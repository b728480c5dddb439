/** Rig IDs: 48 bits of millisecond time and 80 bits of entropy, rendered as 26
    Crockford base 32 digits (the ULID format). */
module RigId {
  import opened Arith
  import opened Order

  const CROCKFORD := "0123456789ABCDEFGHJKMNPQRSTVWXYZ"
  const ID_LEN := 26

  type Byte = b: int | 0 <= b < 256
  type Bit = b: int | 0 <= b < 2

  // ---- reference: numbers and their digits -------------------------------

  function Pow(base: nat, n: nat): (p: nat)
    ensures base > 0 ==> p > 0
  {
    if n == 0 then 1 else base * Pow(base, n - 1)
  }

  /** The number a big-endian digit string denotes. */
  function Number(base: nat, digits: seq<nat>): nat {
    if digits == [] then 0 else base * Number(base, digits[..|digits| - 1]) + digits[|digits| - 1]
  }

  function Bits(b: Byte): (bits: seq<nat>)
    ensures |bits| == 8
  {
    [b / 128, b / 64 % 2, b / 32 % 2, b / 16 % 2, b / 8 % 2, b / 4 % 2, b / 2 % 2, b % 2]
  }

  function AllBits(b: seq<Byte>): (bits: seq<nat>)
    ensures |bits| == 8 * |b|
  {
    if b == [] then [] else AllBits(b[..|b| - 1]) + Bits(b[|b| - 1])
  }

  /** The index of a character in the alphabet, or 32 when it is not there. */
  function Digit(c: char): nat {
    if c in CROCKFORD then DigitFrom(c, 0) else 32
  }

  function DigitFrom(c: char, i: nat): (k: nat)
    requires i < 32 && exists j :: i <= j < 32 && CROCKFORD[j] == c
    ensures i <= k < 32 && CROCKFORD[k] == c
    decreases 32 - i
  {
    if CROCKFORD[i] == c then i else DigitFrom(c, i + 1)
  }

  function Digits(s: string): (d: seq<nat>)
    ensures |d| == |s|
  {
    seq(|s|, i requires 0 <= i < |s| => Digit(s[i]))
  }

  predicate Alphabetic(s: string) {
    forall i :: 0 <= i < |s| ==> s[i] in CROCKFORD
  }

  predicate Valid(s: string) {
    |s| == ID_LEN && Alphabetic(s)
  }

  /** The 128-bit value an ID denotes, read as base 32. */
  function Value(s: string): nat {
    Number(32, Digits(s))
  }

  /** The digits 0 to 9 and the capital letters without I, L, O and U, in order. */
  lemma AlphabetIs(c: char)
    ensures var n := c as int;
            Digit(c) == if 48 <= n <= 57 then n - 48 else if 65 <= n <= 72 then n - 55 else if 74 <= n <= 75 then n - 56
                        else if 77 <= n <= 78 then n - 57 else if 80 <= n <= 84 then n - 58 else if 86 <= n <= 90 then n - 59 else 32
  {
    var n := c as int;
    if c in CROCKFORD {
      var k := Digit(c);
      CodeAt(k);
    } else {
      CodesAreThere(c);
    }
  }

  function Code(k: nat): nat {
    if k < 10 then 48 + k else if k < 18 then 55 + k else if k < 20 then 56 + k else if k < 22 then 57 + k
    else if k < 27 then 58 + k else 59 + k
  }

  lemma CodeAt(k: nat)
    requires k < 32
    ensures CROCKFORD[k] as int == Code(k)
  {}

  lemma CodesAreThere(c: char)
    requires c !in CROCKFORD
    ensures forall k :: 0 <= k < 32 ==> c as int != Code(k)
  {
    forall k | 0 <= k < 32 ensures c as int != Code(k) { CodeAt(k); }
  }

  /** An ID is 26 of them. */
  lemma ValidIff(s: string)
    ensures Valid(s) <==> |s| == 26 && forall i :: 0 <= i < |s| ==> Digit(s[i]) < 32
  {}

  // ---- encoding ----------------------------------------------------------

  /** The bit the encoder reads at an offset into the padded space. */
  function PaddedBit(b: seq<Byte>, pos: int): (v: nat)
    requires -2 <= pos < 8 * |b|
  {
    if pos < 0 then 0 else b[pos / 8] / Pow(2, 7 - pos % 8) % 2
  }

  function Padded(b: seq<Byte>): (bits: seq<nat>)
    ensures |bits| == 8 * |b| + 2
  {
    [0, 0] + AllBits(b)
  }

  /** 128 bits rendered as 26 digits: the digits are the same number. */
  method EncodeULID(b: seq<Byte>) returns (s: string)
    requires |b| == 16
    ensures Valid(s) && Value(s) == Number(256, b)
  {
    hide Number, Digit, Pow, Five, Value;
    var out := new char[ID_LEN];
    var i := 0;
    while i < ID_LEN
      invariant 0 <= i <= ID_LEN
      invariant forall j :: 0 <= j < i ==> out[j] in CROCKFORD && Digit(out[j]) == Five(b, j, 5)
    {
      var v := FiveBits(b, i);
      DigitOfAlphabet(v);
      out[i] := CROCKFORD[v];
      i := i + 1;
    }
    s := out[..];
    DigitsDenote(b, s);
  }

  /** One digit's bits, most significant first; the first digit has three. */
  method FiveBits(b: seq<Byte>, i: nat) returns (v: nat)
    requires |b| == 16 && i < ID_LEN
    ensures v == Five(b, i, 5) < 32
  {
    hide Number, Pow, Five, PaddedBit;
    var hi := i * 5 - 2;
    v := 0;
    var k := 0;
    FiveStarts(b, i);
    while k < 5
      invariant 0 <= k <= 5
      invariant v == Five(b, i, k)
    {
      var pos := hi + k;
      FiveNext(b, i, k);
      PaddedBitIsRead(b, pos);
      v := v * 2;
      if pos >= 0 {
        if b[pos / 8] / Pow(2, 7 - pos % 8) % 2 != 0 { v := v + 1; }
      }
      k := k + 1;
    }
    FiveBound(b, i, 5);
  }

  lemma PaddedBitIsRead(b: seq<Byte>, pos: int)
    requires -2 <= pos < 8 * |b|
    ensures PaddedBit(b, pos) == if pos < 0 then 0 else b[pos / 8] / Pow(2, 7 - pos % 8) % 2
  {
    hide Pow;
  }

  /** The first k bits of the i-th digit, as a number. */
  function Five(b: seq<Byte>, i: nat, k: nat): nat
    requires |b| == 16 && i < ID_LEN && k <= 5
  {
    Number(2, Padded(b)[5 * i..5 * i + k])
  }

  lemma FiveStarts(b: seq<Byte>, i: nat)
    requires |b| == 16 && i < ID_LEN
    ensures Five(b, i, 0) == 0
  {}

  lemma FiveNext(b: seq<Byte>, i: nat, k: nat)
    requires |b| == 16 && i < ID_LEN && k < 5
    ensures Five(b, i, k + 1) == 2 * Five(b, i, k) + PaddedBit(b, i * 5 - 2 + k)
    ensures PaddedBit(b, i * 5 - 2 + k) < 2
  {
    hide AllBits, Bits, Padded;
    PaddedBitIs(b, i * 5 - 2 + k);
    NumberSnoc(2, Padded(b)[5 * i..5 * i + k], Padded(b)[5 * i + k]);
    assert Padded(b)[5 * i..5 * i + k + 1] == Padded(b)[5 * i..5 * i + k] + [Padded(b)[5 * i + k]];
  }

  lemma {:induction false} FiveBound(b: seq<Byte>, i: nat, k: nat)
    requires |b| == 16 && i < ID_LEN && k <= 5
    ensures Five(b, i, k) < Pow(2, k) && Pow(2, 5) == 32
  {
    hide AllBits, Bits, Padded, Number, PaddedBit;
    FiveStarts(b, i);
    assert Pow(2, 5) == 32;
    if k > 0 {
      FiveBound(b, i, k - 1);
      FiveNext(b, i, k - 1);
    }
  }

  lemma DigitsDenote(b: seq<Byte>, s: string)
    requires |b| == 16 && |s| == ID_LEN
    requires forall j :: 0 <= j < ID_LEN ==> Digit(s[j]) == Five(b, j, 5)
    ensures Value(s) == Number(256, b)
  {
    hide AllBits, Bits, Padded, Number, Digit;
    GroupedByFive(Padded(b), Digits(s));
    PaddedNumber(b);
  }

  lemma NumberSnoc(base: nat, d: seq<nat>, x: nat)
    ensures Number(base, d + [x]) == base * Number(base, d) + x
  {
    assert (d + [x])[..|d|] == d;
  }

  lemma DigitOfAlphabet(v: nat)
    requires v < 32
    ensures CROCKFORD[v] in CROCKFORD && Digit(CROCKFORD[v]) == v
  {
    AlphabetAscends();
    assert CROCKFORD[Digit(CROCKFORD[v])] == CROCKFORD[v];
  }

  lemma AlphabetAscends()
    ensures forall i, j :: 0 <= i < j < 32 ==> CROCKFORD[i] < CROCKFORD[j]
  {
    assert forall i :: 0 <= i < 31 ==> CROCKFORD[i] < CROCKFORD[i + 1];
    forall i, j | 0 <= i < j < 32 ensures CROCKFORD[i] < CROCKFORD[j] { AscendsFrom(i, j); }
  }

  lemma {:induction false} AscendsFrom(i: nat, j: nat)
    requires i < j < 32
    requires forall i :: 0 <= i < 31 ==> CROCKFORD[i] < CROCKFORD[i + 1]
    ensures CROCKFORD[i] < CROCKFORD[j]
  {
    if i + 1 < j { AscendsFrom(i, j - 1); }
    assert CROCKFORD[j - 1] < CROCKFORD[j - 1 + 1];
  }

  lemma {:induction false} AllBitsAt(b: seq<Byte>, pos: nat)
    requires pos < 8 * |b|
    ensures AllBits(b)[pos] == Bits(b[pos / 8])[pos % 8]
  {
    if pos / 8 < |b| - 1 {
      AllBitsAt(b[..|b| - 1], pos);
    }
  }

  lemma PaddedBitIs(b: seq<Byte>, pos: int)
    requires -2 <= pos < 8 * |b|
    ensures Padded(b)[pos + 2] == PaddedBit(b, pos) < 2
  {
    if pos >= 0 {
      AllBitsAt(b, pos);
      BitIs(b[pos / 8], pos % 8);
    }
  }

  lemma BitIs(b: Byte, k: nat)
    requires k < 8
    ensures Bits(b)[k] == b / Pow(2, 7 - k) % 2
  {
    assert Pow(2, 1) == 2 && Pow(2, 2) == 4 && Pow(2, 3) == 8 && Pow(2, 4) == 16;
    assert Pow(2, 5) == 32 && Pow(2, 6) == 64 && Pow(2, 7) == 128;
  }

  lemma Distribute(b: nat, p: nat, q: nat, r: nat)
    ensures b * (p * q + r) == p * (b * q) + b * r
  {
    assert b * (p * q + r) == b * (p * q) + b * r;
    assert b * (p * q) == (b * p) * q == (p * b) * q == p * (b * q);
  }

  lemma {:induction false} NumberConcat(base: nat, a: seq<nat>, d: seq<nat>)
    ensures Number(base, a + d) == Number(base, a) * Pow(base, |d|) + Number(base, d)
  {
    if d == [] {
      assert a + d == a;
    } else {
      var d', x := d[..|d| - 1], d[|d| - 1];
      assert a + d == (a + d') + [x] && d == d' + [x];
      NumberSnoc(base, a + d', x);
      NumberConcat(base, a, d');
      Distribute(base, Number(base, a), Pow(base, |d'|), Number(base, d'));
    }
  }

  /** Reading a bit string five at a time gives the base 32 digits of the same number. */
  lemma {:induction false} GroupedByFive(bits: seq<nat>, digits: seq<nat>)
    requires |bits| == 5 * |digits|
    requires forall j :: 0 <= j < |digits| ==> digits[j] == Number(2, bits[5 * j..5 * j + 5])
    ensures Number(32, digits) == Number(2, bits)
  {
    if digits != [] {
      var n := |digits| - 1;
      var front := bits[..5 * n];
      forall j | 0 <= j < n ensures digits[..n][j] == Number(2, front[5 * j..5 * j + 5]) {
        assert front[5 * j..5 * j + 5] == bits[5 * j..5 * j + 5];
      }
      GroupedByFive(front, digits[..n]);
      assert bits == front + bits[5 * n..5 * n + 5];
      NumberConcat(2, front, bits[5 * n..5 * n + 5]);
      assert Pow(2, 5) == 32;
    }
  }

  lemma NumberOfByte(b: Byte)
    ensures Number(2, Bits(b)) == b
  {
    NumberOfEight(Bits(b));
    Halves(b, 1);
    Halves(b, 2);
    Halves(b, 4);
    Halves(b, 8);
    Halves(b, 16);
    Halves(b, 32);
    Halves(b, 64);
    SumOfHalves(b / 128, b / 64, b / 32, b / 16, b / 8, b / 4, b / 2, b);
  }

  lemma SumOfHalves(h7: nat, h6: nat, h5: nat, h4: nat, h3: nat, h2: nat, h1: nat, h0: nat)
    requires h6 == 2 * h7 + h6 % 2 && h5 == 2 * h6 + h5 % 2 && h4 == 2 * h5 + h4 % 2 && h3 == 2 * h4 + h3 % 2
    requires h2 == 2 * h3 + h2 % 2 && h1 == 2 * h2 + h1 % 2 && h0 == 2 * h1 + h0 % 2
    ensures h0 == 128 * h7 + 64 * (h6 % 2) + 32 * (h5 % 2) + 16 * (h4 % 2) + 8 * (h3 % 2) + 4 * (h2 % 2)
                  + 2 * (h1 % 2) + h0 % 2
  {}

  lemma Halves(b: nat, k: nat)
    requires k > 0
    ensures b / k == 2 * (b / (2 * k)) + b / k % 2
  {
    DivideTwice(b, k, 2);
  }

  lemma NumberOfEight(s: seq<nat>)
    requires |s| == 8
    ensures Number(2, s) == 128 * s[0] + 64 * s[1] + 32 * s[2] + 16 * s[3] + 8 * s[4] + 4 * s[5] + 2 * s[6] + s[7]
  {
    assert Number(2, s[..0]) == 0;
    forall k | 0 < k <= 8 ensures Number(2, s[..k]) == 2 * Number(2, s[..k - 1]) + s[k - 1] {
      assert s[..k][..k - 1] == s[..k - 1];
    }
    assert Number(2, s[..1]) == s[0];
    assert Number(2, s[..2]) == 2 * s[0] + s[1];
    assert Number(2, s[..3]) == 4 * s[0] + 2 * s[1] + s[2];
    assert Number(2, s[..4]) == 8 * s[0] + 4 * s[1] + 2 * s[2] + s[3];
    assert s[..8] == s;
  }

  lemma {:induction false} NumberOfBytes(b: seq<Byte>)
    ensures Number(2, AllBits(b)) == Number(256, b)
  {
    if b != [] {
      var b' := b[..|b| - 1];
      NumberOfBytes(b');
      NumberConcat(2, AllBits(b'), Bits(b[|b| - 1]));
      NumberOfByte(b[|b| - 1]);
      assert Pow(2, 8) == 256;
    }
  }

  lemma PaddedNumber(b: seq<Byte>)
    ensures Number(2, Padded(b)) == Number(256, b)
  {
    NumberConcat(2, [0, 0], AllBits(b));
    assert Number(2, [0, 0]) == 0 by { NumberSnoc(2, [0], 0); NumberSnoc(2, [], 0); assert [] + [0] == [0]; assert [0] + [0] == [0, 0]; }
    NumberOfBytes(b);
  }

  // ---- minting and reading back ------------------------------------------

  /** 48 bits of milliseconds, big endian. */
  function TimeBytes(ms: nat): (b: seq<Byte>)
    ensures |b| == 6
  {
    [ms / 0x100_0000_0000 % 256, ms / 0x1_0000_0000 % 256, ms / 0x100_0000 % 256,
     ms / 0x1_0000 % 256, ms / 0x100 % 256, ms % 256]
  }

  /** Mints an ID for a time given in milliseconds, as an unsigned 64-bit value. */
  method NewID(ms: nat, entropy: seq<Byte>) returns (s: string)
    requires |entropy| == 10
    ensures Valid(s) && Value(s) == ms % 0x1_0000_0000_0000 * Pow(256, 10) + Number(256, entropy)
    ensures Number(256, entropy) < Pow(256, 10)
  {
    var b := TimeBytes(ms) + entropy;
    s := EncodeULID(b);
    NumberConcat(256, TimeBytes(ms), entropy);
    NumberOfTime(ms);
    NumberBound(256, entropy);
  }

  lemma NumberOfTime(ms: nat)
    ensures Number(256, TimeBytes(ms)) == ms % 0x1_0000_0000_0000
  {
    var s: seq<nat> := TimeBytes(ms);
    assert Number(256, s[..0]) == 0;
    forall k | 0 < k <= 6 ensures Number(256, s[..k]) == 256 * Number(256, s[..k - 1]) + s[k - 1] {
      assert s[..k][..k - 1] == s[..k - 1];
    }
    assert s[..6] == s;
    LowBytes(ms, 1, 0x100);
    LowBytes(ms, 0x100, 0x1_0000);
    LowBytes(ms, 0x1_0000, 0x100_0000);
    LowBytes(ms, 0x100_0000, 0x1_0000_0000);
    LowBytes(ms, 0x1_0000_0000, 0x100_0000_0000);
    assert Number(256, s[..1]) == s[0];
    assert Number(256, s[..2]) == 256 * s[0] + s[1];
    assert Number(256, s[..3]) == 256 * Number(256, s[..2]) + s[2];
    TopByte(ms);
  }

  /** Each byte of a value sits above the bytes below it. */
  lemma LowBytes(x: nat, k: nat, k': nat)
    requires k > 0 && k' == 256 * k
    ensures x / k == 256 * (x / k') + x / k % 256
  {
    DivideTwice(x, k, 256);
  }

  lemma TopByte(x: nat)
    ensures x / 0x100_0000_0000 % 256 * 0x100_0000_0000 + x % 0x100_0000_0000 == x % 0x1_0000_0000_0000
  {
    var k := 0x100_0000_0000;
    var q, r := x / k, x % k;
    assert x == q / 256 * (256 * k) + (q % 256 * k + r);
  }

  lemma {:induction false} NumberBound(base: nat, d: seq<nat>)
    requires base > 0 && forall i :: 0 <= i < |d| ==> d[i] < base
    ensures Number(base, d) < Pow(base, |d|)
  {
    if d != [] {
      NumberBound(base, d[..|d| - 1]);
      BoundSnoc(base, Number(base, d[..|d| - 1]), Pow(base, |d| - 1), d[|d| - 1]);
    }
  }

  lemma BoundSnoc(base: nat, n: nat, p: nat, x: nat)
    requires n < p && x < base
    ensures base * n + x < base * p
  {
    assert base * (n + 1) <= base * p;
  }

  /** Recovers the creation time from the first ten digits. */
  method IDTime(s: string) returns (ok: bool, ms: nat)
    ensures ok <==> Valid(s)
    ensures ok ==> ms == Value(s) / Pow(2, 80) % 0x1_0000_0000_0000
  {
    hide Number, Digit, Pow, Value, Digits;
    ok := |s| == ID_LEN && forall i :: 0 <= i < |s| ==> s[i] in CROCKFORD;
    ms := 0;
    if !ok { return; }
    var i := 0;
    assert Digits(s)[..0] == [];
    NoDigits();
    while i < 10
      invariant 0 <= i <= 10
      invariant ms == Number(32, Digits(s)[..i])
    {
      ms := ms * 32 + Digit(s[i]);
      NextDigit(s, i);
      i := i + 1;
    }
    TopDigits(s);
    ms := ms % 0x1_0000_0000_0000;
  }

  lemma NoDigits()
    ensures Number(32, []) == 0
  {}

  lemma NextDigit(s: string, i: nat)
    requires i < |s|
    ensures Number(32, Digits(s)[..i + 1]) == Number(32, Digits(s)[..i]) * 32 + Digit(s[i])
  {
    hide Number, Digit;
    assert Digits(s)[..i + 1] == Digits(s)[..i] + [Digit(s[i])];
    NumberSnoc(32, Digits(s)[..i], Digit(s[i]));
  }

  lemma {:induction false} PowerOfPower(n: nat)
    ensures Pow(32, n) == Pow(2, 5 * n)
  {
    if n > 0 {
      PowerOfPower(n - 1);
      var p := Pow(2, 5 * n - 5);
      assert Pow(2, 5 * n - 4) == 2 * p && Pow(2, 5 * n - 3) == 4 * p;
      assert Pow(2, 5 * n - 2) == 8 * p && Pow(2, 5 * n - 1) == 16 * p;
    }
  }

  lemma {:induction false} PowerOfByte(n: nat)
    ensures Pow(256, n) == Pow(2, 8 * n)
  {
    if n > 0 {
      PowerOfByte(n - 1);
      var p := Pow(2, 8 * n - 8);
      assert Pow(2, 8 * n - 7) == 2 * p && Pow(2, 8 * n - 6) == 4 * p && Pow(2, 8 * n - 5) == 8 * p;
      assert Pow(2, 8 * n - 4) == 16 * p && Pow(2, 8 * n - 3) == 32 * p && Pow(2, 8 * n - 2) == 64 * p;
      assert Pow(2, 8 * n - 1) == 128 * p;
    }
  }

  lemma DigitBound(s: string)
    requires Valid(s)
    ensures forall i :: 0 <= i < |s| ==> Digits(s)[i] < 32 && CROCKFORD[Digits(s)[i]] == s[i]
  {}

  lemma TopDigits(s: string)
    requires Valid(s)
    ensures Value(s) / Pow(2, 80) == Number(32, Digits(s)[..10])
  {
    hide Pow, Number;
    var d := Digits(s);
    DigitBound(s);
    assert d == d[..10] + d[10..];
    NumberConcat(32, d[..10], d[10..]);
    NumberBound(32, d[10..]);
    PowerOfPower(16);
    QuotientIs(Value(s), Pow(2, 80), Number(32, d[..10]), Number(32, d[10..]));
  }

  /** The time an ID was minted at is the time it gives back, for every 48-bit time. */
  lemma MintedTimeComesBack(s: string, ms: nat, entropy: seq<Byte>)
    requires |entropy| == 10 && ms < 0x1_0000_0000_0000
    requires Value(s) == ms % 0x1_0000_0000_0000 * Pow(256, 10) + Number(256, entropy)
    ensures Value(s) / Pow(2, 80) % 0x1_0000_0000_0000 == ms
  {
    hide Pow, Number;
    PowerOfByte(10);
    NumberBound(256, entropy);
    QuotientIs(Value(s), Pow(2, 80), ms, Number(256, entropy));
  }

  // ---- uniqueness and order ----------------------------------------------

  lemma {:induction false} NumberCons(base: nat, d: seq<nat>)
    requires d != []
    ensures Number(base, d) == d[0] * Pow(base, |d| - 1) + Number(base, d[1..])
  {
    assert d == [d[0]] + d[1..];
    NumberConcat(base, [d[0]], d[1..]);
    assert Number(base, [d[0]]) == d[0] by { assert [d[0]][..0] == []; }
  }

  lemma {:induction false} OrderIs(s: string, t: string)
    requires |s| == |t|
    requires Alphabetic(s) && Alphabetic(t)
    ensures Less(s, t) <==> Number(32, Digits(s)) < Number(32, Digits(t))
    ensures s == t <==> Number(32, Digits(s)) == Number(32, Digits(t))
  {
    if s != [] {
      FirstInAlphabet(s);
      FirstInAlphabet(t);
      OrderIs(s[1..], t[1..]);
      FirstDigitDecides(s, t);
    }
  }

  lemma FirstDigitDecides(s: string, t: string)
    requires |s| == |t| > 0
    requires Alphabetic(s) && Alphabetic(t)
    ensures s[0] < t[0] ==> Number(32, Digits(s)) < Number(32, Digits(t))
    ensures t[0] < s[0] ==> Number(32, Digits(t)) < Number(32, Digits(s))
    ensures s[0] == t[0] ==> Number(32, Digits(s)) - Number(32, Digits(t))
                             == Number(32, Digits(s[1..])) - Number(32, Digits(t[1..]))
    ensures s == t <==> s[0] == t[0] && s[1..] == t[1..]
  {
    hide Number, Pow, Digit, Digits, Alphabetic;
    DigitBounds(s);
    DigitBounds(t);
    FirstOfNumber(Digits(s), Digits(t));
    DigitsTail(s);
    DigitsTail(t);
    FirstInAlphabet(s);
    FirstInAlphabet(t);
    DigitOrder(s[0], t[0]);
    assert s == [s[0]] + s[1..] && t == [t[0]] + t[1..];
  }

  lemma DigitsTail(s: string)
    requires s != []
    ensures Digits(s)[0] == Digit(s[0]) && Digits(s)[1..] == Digits(s[1..])
  {
    hide Digit;
  }

  lemma FirstInAlphabet(s: string)
    requires Alphabetic(s) && s != []
    ensures s[0] in CROCKFORD && Alphabetic(s[1..])
  {}

  lemma DigitBounds(s: string)
    requires Alphabetic(s)
    ensures forall i :: 0 <= i < |s| ==> Digits(s)[i] < 32
  {}

  lemma DigitOrder(c: char, d: char)
    requires c in CROCKFORD && d in CROCKFORD
    ensures c < d <==> Digit(c) < Digit(d)
    ensures c == d <==> Digit(c) == Digit(d)
  {
    AlphabetAscends();
    assert CROCKFORD[Digit(c)] == c && CROCKFORD[Digit(d)] == d;
  }

  lemma FirstOfNumber(d: seq<nat>, e: seq<nat>)
    requires |d| == |e| > 0
    requires forall i :: 0 <= i < |d| ==> d[i] < 32
    requires forall i :: 0 <= i < |e| ==> e[i] < 32
    ensures d[0] < e[0] ==> Number(32, d) < Number(32, e)
    ensures e[0] < d[0] ==> Number(32, e) < Number(32, d)
    ensures d[0] == e[0] ==> Number(32, d) - Number(32, e) == Number(32, d[1..]) - Number(32, e[1..])
  {
    hide Number, Pow;
    NumberCons(32, d);
    NumberCons(32, e);
    NumberBound(32, d[1..]);
    NumberBound(32, e[1..]);
    LeadingDigit(d[0], e[0], Pow(32, |d| - 1), Number(32, d[1..]), Number(32, e[1..]));
  }

  lemma LeadingDigit(a: nat, b: nat, p: nat, x: nat, y: nat)
    requires x < p && y < p
    ensures a < b ==> a * p + x < b * p + y
    ensures b < a ==> b * p + y < a * p + x
  {
    if a < b { assert (a + 1) * p <= b * p; }
    if b < a { assert (b + 1) * p <= a * p; }
  }

  /** IDs sort as strings exactly as they sort as numbers, and different values
      never share a rendering. */
  lemma StringOrderIsNumericOrder(s: string, t: string)
    requires Valid(s) && Valid(t)
    ensures Less(s, t) <==> Value(s) < Value(t)
    ensures s == t <==> Value(s) == Value(t)
  {
    OrderIs(s, t);
  }

  /** Two IDs are the same string only if they were encoded from the same bytes. */
  lemma EncodingIsInjective(a: seq<Byte>, b: seq<Byte>, s: string)
    requires |a| == |b| == 16
    requires Value(s) == Number(256, a) && Value(s) == Number(256, b)
    ensures a == b
  {
    SameNumberSameDigits(256, a, b);
  }

  lemma SameSnoc(base: nat, x: nat, y: nat, a: nat, b: nat)
    requires base * x + a == base * y + b && a < base && b < base
    ensures x == y && a == b
  {
    assert x < y ==> base * (x + 1) <= base * y;
    assert y < x ==> base * (y + 1) <= base * x;
  }

  lemma {:induction false} SameNumberSameDigits(base: nat, a: seq<nat>, b: seq<nat>)
    requires |a| == |b| && Number(base, a) == Number(base, b)
    requires forall i :: 0 <= i < |a| ==> a[i] < base && b[i] < base
    ensures a == b
  {
    if a != [] {
      var n := |a| - 1;
      SameSnoc(base, Number(base, a[..n]), Number(base, b[..n]), a[n], b[n]);
      SameNumberSameDigits(base, a[..n], b[..n]);
      assert a == a[..n] + [a[n]] && b == b[..n] + [b[n]];
    }
  }

  /** The time, in milliseconds, an ID carries. */
  function Minted(s: string): nat {
    Leading(Value(s), 80)
  }

  function Leading(v: nat, lowBits: nat): nat {
    v / Pow(2, lowBits)
  }

  /** An ID that sorts after another was not minted before it. */
  lemma LaterIdsAreNewer(s: string, t: string)
    requires Valid(s) && Valid(t) && Less(s, t)
    ensures Minted(s) <= Minted(t)
  {
    hide Pow, Value, Less, Valid;
    StringOrderIsNumericOrder(s, t);
    DivisionKeepsOrder(Value(s), Value(t), Pow(2, 80));
  }
}
