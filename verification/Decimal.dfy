/** Decimal text: what the label prints numbers as, and how it reads them. */
module Decimal {
  import opened Wrappers

  predicate DigitChar(c: char) {
    '0' <= c <= '9'
  }

  function DigitOf(n: nat): char
    requires n < 10
  {
    '0' + n as char
  }

  function DigitValue(c: char): nat
    requires DigitChar(c)
  {
    (c - '0') as nat
  }

  predicate AllDigits(s: string) {
    forall i :: 0 <= i < |s| ==> DigitChar(s[i])
  }

  function Print(n: nat): string {
    if n < 10 then [DigitOf(n)] else Print(n / 10) + [DigitOf(n % 10)]
  }

  function NatOf(s: string): nat
    requires AllDigits(s)
  {
    if s == "" then 0 else 10 * NatOf(s[..|s| - 1]) + DigitValue(s[|s| - 1])
  }

  lemma {:induction false} PrintReadsBack(n: nat)
    ensures AllDigits(Print(n)) && Print(n) != "" && NatOf(Print(n)) == n
    ensures n > 0 ==> Print(n)[0] != '0'
  {
    if n >= 10 {
      PrintReadsBack(n / 10);
      assert Print(n)[..|Print(n)| - 1] == Print(n / 10);
    } else {
      assert Print(n)[..0] == "";
    }
  }

  /** The digits are the codes 48 to 57, each worth its distance from the first. */
  lemma DigitsAre(c: char)
    ensures DigitChar(c) <==> 48 <= c as int <= 57
    ensures DigitChar(c) ==> DigitValue(c) == c as int - 48 && DigitOf(DigitValue(c)) == c
  {}

  /** The most significant digit first, and no zeros before it. */
  lemma PrintIs(n: nat, d: nat)
    requires d < 10
    ensures Print(d) == [DigitOf(d)] && PrintInt(0) == "0" && PrintInt(-7) == "-7" && PrintInt(42) == "42"
    ensures n > 0 ==> Print(10 * n + d) == Print(n) + [DigitOf(d)]
    ensures n > 0 ==> PrintInt(0 - n as int) == "-" + Print(n) && PrintInt(n) == Print(n)
  {
    assert Print(7) == ['0' + 7 as char] && '0' + 7 as char == '7';
    assert Print(42) == Print(4) + [DigitOf(2)];
  }

  // ---- 64-bit integers ---------------------------------------------------

  type Int64 = n: int | -0x8000_0000_0000_0000 <= n < 0x8000_0000_0000_0000

  function PrintInt(n: int): string {
    if n < 0 then "-" + Print(-n) else Print(n)
  }

  function ParseInt(s: string): Option<int> {
    var signed := s != "" && (s[0] == '-' || s[0] == '+');
    var digits := if signed then s[1..] else s;
    if digits == "" || !AllDigits(digits) then None
    else
      var n := if s[0] == '-' then 0 - NatOf(digits) else NatOf(digits);
      if -0x8000_0000_0000_0000 <= n < 0x8000_0000_0000_0000 then Some(n) else None
  }

  lemma IntReadsBack(n: Int64)
    ensures ParseInt(PrintInt(n)) == Some(n) && PrintInt(n) != ""
    ensures forall c :: c in PrintInt(n) ==> DigitChar(c) || c == '-'
  {
    hide NatOf, Print, AllDigits;
    var m: int := n;
    var digits := Print(if m < 0 then -m else m);
    PrintReadsBack(if m < 0 then -m else m);
    DigitsOnly(digits);
    if n < 0 { assert PrintInt(n)[1..] == digits; }
  }

  lemma DigitsOnly(s: string)
    requires AllDigits(s)
    ensures forall c :: c in s ==> DigitChar(c)
  {}

  // ---- prices ------------------------------------------------------------

  function Pow10(k: nat): (p: nat)
    ensures p > 0
  {
    if k == 0 then 1 else 10 * Pow10(k - 1)
  }

  /** A price given in ten-thousandths, printed with four decimals. */
  function PrintPrice(c: nat): string {
    Print(c / 10000) + "." + Four(c % 10000)
  }

  function DotAt(s: string): (i: nat)
    ensures i <= |s| && (i < |s| ==> s[i] == '.')
  {
    if s == "" || s[0] == '.' then 0 else 1 + DotAt(s[1..])
  }

  /** Reads digits with an optional fraction. */
  function ParsePrice(s: string): Option<real> {
    var i := DotAt(s);
    var whole, fraction := s[..i], if i < |s| then s[i + 1..] else "";
    if !AllDigits(whole) || !AllDigits(fraction) || whole + fraction == "" then None
    else Some(Mixed(NatOf(whole), NatOf(fraction), Pow10(|fraction|)))
  }

  function Mixed(whole: nat, fraction: nat, parts: nat): real
    requires parts > 0
  {
    whole as real + fraction as real / parts as real
  }

  lemma {:induction false} DotAfterDigits(a: string, b: string)
    requires AllDigits(a)
    ensures DotAt(a + "." + b) == |a|
  {
    if a != "" {
      assert (a + "." + b)[1..] == a[1..] + "." + b;
      DotAfterDigits(a[1..], b);
    } else {
      assert (a + "." + b)[0] == '.';
    }
  }

  lemma NatSnoc(s: string, d: nat)
    requires AllDigits(s) && d < 10
    ensures AllDigits(s + [DigitOf(d)]) && NatOf(s + [DigitOf(d)]) == 10 * NatOf(s) + d
  {
    assert (s + [DigitOf(d)])[..|s|] == s;
  }

  function Four(n: nat): string {
    [DigitOf(n / 1000 % 10), DigitOf(n / 100 % 10), DigitOf(n / 10 % 10), DigitOf(n % 10)]
  }

  lemma FourDigits(n: nat)
    requires n < 10000
    ensures AllDigits(Four(n)) && NatOf(Four(n)) == n
  {
    hide NatOf, AllDigits, DigitOf;
    FourAre(n / 1000 % 10, n / 100 % 10, n / 10 % 10, n % 10);
    TensOf(n);
    TensOf(n / 10);
    TensOf(n / 100);
  }

  lemma TensOf(n: nat)
    ensures n == 10 * (n / 10) + n % 10 && n / 10 / 10 == n / 100 && n / 100 / 10 == n / 1000
  {}

  lemma FourAre(a: nat, b: nat, c: nat, d: nat)
    requires a < 10 && b < 10 && c < 10 && d < 10
    ensures var s := [DigitOf(a), DigitOf(b), DigitOf(c), DigitOf(d)];
            AllDigits(s) && NatOf(s) == 1000 * a + 100 * b + 10 * c + d
  {
    hide NatOf, AllDigits, DigitOf;
    NoDigits();
    NatSnoc("", a);
    NatSnoc("" + [DigitOf(a)], b);
    NatSnoc("" + [DigitOf(a)] + [DigitOf(b)], c);
    NatSnoc("" + [DigitOf(a)] + [DigitOf(b)] + [DigitOf(c)], d);
    assert [DigitOf(a), DigitOf(b), DigitOf(c), DigitOf(d)] ==
           "" + [DigitOf(a)] + [DigitOf(b)] + [DigitOf(c)] + [DigitOf(d)];
  }

  lemma JoinPrice(q: nat, r: nat, c: nat)
    requires c == 10000 * q + r
    ensures Mixed(q, r, 10000) == c as real / 10000.0
  {}

  lemma NoDigits()
    ensures NatOf("") == 0 && AllDigits("")
  {}

  lemma PriceReadsBack(c: nat)
    ensures ParsePrice(PrintPrice(c)) == Some(c as real / 10000.0)
    ensures forall x :: x in PrintPrice(c) ==> DigitChar(x) || x == '.'
  {
    hide NatOf, Print, Four, DotAt, DigitOf, Pow10, AllDigits, ParsePrice, Mixed;
    var whole, fraction := Print(c / 10000), Four(c % 10000);
    PrintReadsBack(c / 10000);
    FourDigits(c % 10000);
    FourIsFour(c % 10000);
    TenThousand();
    ReadSplit(whole, fraction);
    DigitsOnly(whole);
    DigitsOnly(fraction);
    JoinPrice(c / 10000, c % 10000, c);
  }

  lemma ReadSplit(whole: string, fraction: string)
    requires AllDigits(whole) && AllDigits(fraction) && fraction != ""
    ensures ParsePrice(whole + "." + fraction)
            == Some(Mixed(NatOf(whole), NatOf(fraction), Pow10(|fraction|)))
  {
    hide NatOf, DotAt, Pow10, AllDigits, Mixed;
    DotAfterDigits(whole, fraction);
    var s := whole + "." + fraction;
    assert s[..|whole|] == whole && s[|whole| + 1..] == fraction;
  }

  lemma TenThousand()
    ensures Pow10(4) == 10000
  {
    assert Pow10(1) == 10 && Pow10(2) == 100 && Pow10(3) == 1000;
  }

  lemma FourIsFour(n: nat)
    ensures |Four(n)| == 4
  {}
}
