/** The terminal's key decoder, and the loop that feeds it read by read. */
module Keys {

  type Byte = b: int | 0 <= b < 256

  datatype Key =
    | Unknown | Runes(r: nat) | Enter | Esc | Backspace | Up | Down | Left | Right | CtrlC | Space

  /** A decoded key and the bytes it took; 0 bytes means the buffer holds only
      the start of one. */
  datatype Decoded = Decoded(key: Key, used: nat)

  const INCOMPLETE := Decoded(Unknown, 0)
  const ESC: Byte := 0x1b

  // ---- UTF-8 (RFC 3629 section 4) ----------------------------------------

  /** How many bytes a lead byte announces; 1 for ASCII and for bytes that
      cannot lead. */
  function Width(lead: Byte): (n: nat)
    ensures 1 <= n <= 4
  {
    if 0xc2 <= lead <= 0xdf then 2
    else if 0xe0 <= lead <= 0xef then 3
    else if 0xf0 <= lead <= 0xf4 then 4
    else 1
  }

  predicate Continues(lead: Byte, second: Byte) {
    (if lead == 0xe0 then 0xa0 else if lead == 0xf0 then 0x90 else 0x80) <= second
    <= (if lead == 0xed then 0x9f else if lead == 0xf4 then 0x8f else 0xbf)
  }

  predicate Tail(b: Byte) {
    0x80 <= b <= 0xbf
  }

  /** The bytes of b that an encoding led by b[0] takes are all in range. */
  predicate InRange(b: seq<Byte>)
    requires b != []
  {
    var n := Width(b[0]);
    (n > 1 && |b| > 1 ==> Continues(b[0], b[1])) && (n > 2 && |b| > 2 ==> Tail(b[2]))
    && (n > 3 && |b| > 3 ==> Tail(b[3]))
  }

  /** Six more bits of a code point, from a continuation byte. */
  function Six(high: nat, b: Byte): nat {
    high * 64 + b % 64
  }

  function Rune(b: seq<Byte>): nat
    requires b != [] && |b| >= Width(b[0])
  {
    var lead: nat := b[0];
    match Width(lead)
    case 1 => lead
    case 2 => Six(lead % 32, b[1])
    case 3 => Six(Six(lead % 16, b[1]), b[2])
    case _ => Six(Six(Six(lead % 8, b[1]), b[2]), b[3])
  }

  /** A printable byte or the start of a multi-byte rune. */
  function DecodeRune(b: seq<Byte>): Decoded
    requires b != []
  {
    var n := Width(b[0]);
    if n == 1 then (if b[0] < 0x80 then Decoded(Runes(b[0]), 1) else Decoded(Unknown, 1))
    else if !InRange(b) then Decoded(Unknown, 1)
    else if |b| < n then INCOMPLETE
    else Decoded(Runes(Rune(b)), n)
  }

  /** Unicode scalar values. */
  predicate Scalar(r: nat) {
    r < 0xd800 || 0xe000 <= r < 0x11_0000
  }

  /** The encoding of a code point: six bits to a continuation byte. */
  function Utf8(r: nat): (s: seq<Byte>)
    requires r < 0x11_0000
    ensures 1 <= |s| <= 4
  {
    if r < 0x80 then [r]
    else if r < 0x800 then [0xc0 + r / 64, 0x80 + r % 64]
    else if r < 0x1_0000 then [0xe0 + r / 4096, 0x80 + r / 64 % 64, 0x80 + r % 64]
    else [0xf0 + r / 262144, 0x80 + r / 4096 % 64, 0x80 + r / 64 % 64, 0x80 + r % 64]
  }

  // ---- control sequences (ECMA-48 section 5.4) ---------------------------

  predicate Final(b: Byte) {
    0x40 <= b <= 0x7e
  }

  /** Index of the first final byte at or after i, or the length. */
  function FinalFrom(b: seq<Byte>, i: nat): (j: nat)
    requires i <= |b|
    ensures i <= j <= |b|
    decreases |b| - i
  {
    if i == |b| || Final(b[i]) then i else FinalFrom(b, i + 1)
  }

  predicate Introduces(b: Byte) {
    b == '[' as int || b == 'O' as int
  }

  function DecodeEscape(b: seq<Byte>): Decoded
    requires b != []
  {
    if |b| == 1 || !Introduces(b[1]) then Decoded(Esc, 1)
    else if |b| < 3 then INCOMPLETE
    else if b[2] == 'A' as int then Decoded(Up, 3)
    else if b[2] == 'B' as int then Decoded(Down, 3)
    else if b[2] == 'C' as int then Decoded(Right, 3)
    else if b[2] == 'D' as int then Decoded(Left, 3)
    else if FinalFrom(b, 2) < |b| then Decoded(Unknown, FinalFrom(b, 2) + 1)
    else INCOMPLETE
  }

  function DecodeKey(b: seq<Byte>): Decoded {
    if b == [] then INCOMPLETE
    else if b[0] == 0x03 then Decoded(CtrlC, 1)
    else if b[0] == 0x0d || b[0] == 0x0a then Decoded(Enter, 1)
    else if b[0] == 0x7f || b[0] == 0x08 then Decoded(Backspace, 1)
    else if b[0] == 0x20 then Decoded(Space, 1)
    else if b[0] == ESC then DecodeEscape(b)
    else if b[0] < 0x20 then Decoded(Unknown, 1)
    else DecodeRune(b)
  }

  method Decode(b: seq<Byte>) returns (d: Decoded)
    ensures d == DecodeKey(b)
  {
    if |b| == 0 { return INCOMPLETE; }
    if b[0] == 0x03 { return Decoded(CtrlC, 1); }
    if b[0] == 0x0d || b[0] == 0x0a { return Decoded(Enter, 1); }
    if b[0] == 0x7f || b[0] == 0x08 { return Decoded(Backspace, 1); }
    if b[0] == 0x20 { return Decoded(Space, 1); }
    if b[0] == 0x1b {
      if |b| == 1 { return Decoded(Esc, 1); }
      if b[1] != '[' as int && b[1] != 'O' as int { return Decoded(Esc, 1); }
      if |b| < 3 { return INCOMPLETE; }
      if b[2] == 'A' as int { return Decoded(Up, 3); }
      if b[2] == 'B' as int { return Decoded(Down, 3); }
      if b[2] == 'C' as int { return Decoded(Right, 3); }
      if b[2] == 'D' as int { return Decoded(Left, 3); }
      var i := 2;
      while i < |b|
        invariant 2 <= i <= |b|
        invariant FinalFrom(b, 2) == FinalFrom(b, i)
      {
        if 0x40 <= b[i] <= 0x7e { return Decoded(Unknown, i + 1); }
        i := i + 1;
      }
      return INCOMPLETE;
    }
    if b[0] < 0x20 { return Decoded(Unknown, 1); }
    d := DecodeRune(b);
  }

  // ---- what is typed ------------------------------------------------------

  /** A character sent as UTF-8 is read as that character, whatever follows, and any
      part of it that has arrived is kept for the rest. */
  lemma RuneReadsBack(r: nat, more: seq<Byte>)
    requires Scalar(r) && r > 0x20 && r != 0x7f
    ensures DecodeKey(Utf8(r) + more) == Decoded(Runes(r), |Utf8(r)|)
    ensures forall k :: 0 < k < |Utf8(r)| ==> DecodeKey(Utf8(r)[..k]) == INCOMPLETE
  {
    RuneReads(r, more);
    forall k | 0 < k < |Utf8(r)| ensures DecodeKey(Utf8(r)[..k]) == INCOMPLETE { PartIsKept(r, k); }
  }

  lemma PartIsKept(r: nat, k: nat)
    requires Scalar(r) && r > 0x20 && r != 0x7f && 0 < k < |Utf8(r)|
    ensures DecodeKey(Utf8(r)[..k]) == INCOMPLETE
  {
    var s := Utf8(r)[..k];
    assert s[0] == Utf8(r)[0] && (k > 1 ==> s[1] == Utf8(r)[1]) && (k > 2 ==> s[2] == Utf8(r)[2]);
    if r < 0x800 {
      assert 0xc2 <= s[0] <= 0xdf;
    } else if r < 0x1_0000 {
      SecondOfThree(r);
    } else {
      SecondOfFour(r);
    }
  }

  lemma RuneReads(r: nat, more: seq<Byte>)
    requires Scalar(r) && r > 0x20 && r != 0x7f
    ensures DecodeKey(Utf8(r) + more) == Decoded(Runes(r), |Utf8(r)|)
  {
    hide Rune;
    var u, b := Utf8(r), Utf8(r) + more;
    assert forall i :: 0 <= i < |u| ==> b[i] == u[i];
    if r < 0x80 {
    } else if r < 0x800 {
      assert 0xc2 <= u[0] <= 0xdf && Tail(u[1]);
      TwoBytesGive(r, b);
    } else if r < 0x1_0000 {
      SecondOfThree(r);
      ThreeBytesGive(r, b);
    } else {
      SecondOfFour(r);
      FourBytesGive(r, b);
    }
  }

  lemma TwoBytesGive(r: nat, b: seq<Byte>)
    requires 0x80 <= r < 0x800 && |b| >= 2 && b[0] == 0xc0 + r / 64 && b[1] == 0x80 + r % 64
    ensures Rune(b) == r
  {
    SixAre(r / 64, r % 64);
  }

  lemma ThreeBytesGive(r: nat, b: seq<Byte>)
    requires 0x800 <= r < 0x1_0000 && |b| >= 3
    requires b[0] == 0xe0 + r / 4096 && b[1] == 0x80 + r / 64 % 64 && b[2] == 0x80 + r % 64
    ensures Rune(b) == r
  {
    hide Six;
    SixAre(r / 4096, r / 64 % 64);
    SixAre(r / 64, r % 64);
    Sixes(r);
    assert b[0] as int % 16 == r / 4096;
  }

  lemma FourBytesGive(r: nat, b: seq<Byte>)
    requires 0x1_0000 <= r < 0x11_0000 && |b| >= 4
    requires b[0] == 0xf0 + r / 262144 && b[1] == 0x80 + r / 4096 % 64 && b[2] == 0x80 + r / 64 % 64 && b[3] == 0x80 + r % 64
    ensures Rune(b) == r
  {
    hide Six;
    SixAre(r / 262144, r / 4096 % 64);
    SixAre(r / 4096, r / 64 % 64);
    SixAre(r / 64, r % 64);
    Sixes(r);
    Sixes(r / 64);
    assert b[0] as int % 8 == r / 262144;
  }

  lemma SixAre(high: nat, low: nat)
    requires low < 64
    ensures Six(high, 0x80 + low) == 64 * high + low
  {}

  lemma Sixes(r: nat)
    ensures r == 64 * (r / 64) + r % 64 && r / 64 == 64 * (r / 4096) + r / 64 % 64
    ensures r / 64 / 64 == r / 4096 && r / 64 / 4096 == r / 262144
  {}

  /** Neither an overlong encoding nor a surrogate's is sent. */
  lemma SecondOfThree(r: nat)
    requires Scalar(r) && 0x800 <= r < 0x1_0000
    ensures 0xe0 <= Utf8(r)[0] <= 0xef && Continues(Utf8(r)[0], Utf8(r)[1]) && Tail(Utf8(r)[2])
  {
    assert r / 64 == 64 * (r / 4096) + r / 64 % 64;
  }

  lemma SecondOfFour(r: nat)
    requires 0x1_0000 <= r < 0x11_0000
    ensures 0xf0 <= Utf8(r)[0] <= 0xf4 && Continues(Utf8(r)[0], Utf8(r)[1]) && Tail(Utf8(r)[2]) && Tail(Utf8(r)[3])
  {
    assert r / 4096 == 64 * (r / 262144) + r / 4096 % 64;
  }

  /** And nothing else is read as a character: its bytes are the character's. */
  lemma OnlyRunesRead(b: seq<Byte>)
    requires DecodeKey(b).key.Runes?
    ensures var r := DecodeKey(b).key.r; Scalar(r) && b[..DecodeKey(b).used] == Utf8(r)
  {
    var n := Width(b[0]);
    if n > 1 {
      assert DecodeRune(b) == Decoded(Runes(Rune(b)), n);
      if n == 2 { TwoBytesMake(b[0], b[1]); }
      else if n == 3 { ThreeBytesMake(b[0], b[1], b[2]); }
      else { FourBytesMake(b[0], b[1], b[2], b[3]); }
    }
  }

  lemma TwoBytesMake(x: Byte, y: Byte)
    requires 0xc2 <= x <= 0xdf && Tail(y)
    ensures var r := Six(x as int % 32, y); 0x80 <= r < 0x800 && Utf8(r) == [x, y]
  {}

  lemma ThreeBytesMake(x: Byte, y: Byte, z: Byte)
    requires 0xe0 <= x <= 0xef && Continues(x, y) && Tail(z)
    ensures var r := Six(Six(x as int % 16, y), z); 0x800 <= r < 0x1_0000 && Scalar(r) && Utf8(r) == [x, y, z]
  {
    hide Six;
    var h: nat, m: nat, l: nat := x as int - 0xe0, y as int - 0x80, z as int - 0x80;
    assert x as int % 16 == h;
    SixAre(h, m);
    SixAre(64 * h + m, l);
    Unsix(h, m);
    Unsix(64 * h + m, l);
    Sixes(64 * (64 * h + m) + l);
  }

  lemma FourBytesMake(x: Byte, y: Byte, z: Byte, w: Byte)
    requires 0xf0 <= x <= 0xf4 && Continues(x, y) && Tail(z) && Tail(w)
    ensures var r := Six(Six(Six(x as int % 8, y), z), w); 0x1_0000 <= r < 0x11_0000 && Utf8(r) == [x, y, z, w]
  {
    hide Six;
    var h: nat, m: nat, l: nat, e: nat := x as int - 0xf0, y as int - 0x80, z as int - 0x80, w as int - 0x80;
    assert x as int % 8 == h;
    SixAre(h, m);
    SixAre(64 * h + m, l);
    SixAre(64 * (64 * h + m) + l, e);
    Unsix(h, m);
    Unsix(64 * h + m, l);
    Unsix(64 * (64 * h + m) + l, e);
    Sixes(64 * (64 * (64 * h + m) + l) + e);
  }

  lemma Unsix(high: nat, low: nat)
    requires low < 64
    ensures (64 * high + low) / 64 == high && (64 * high + low) % 64 == low
  {}

  /** The keys that are one byte, and the arrows. */
  lemma KeysAre(b: seq<Byte>)
    ensures DecodeKey([3] + b) == Decoded(CtrlC, 1)
    ensures DecodeKey([13] + b) == DecodeKey([10] + b) == Decoded(Enter, 1)
    ensures DecodeKey([127] + b) == DecodeKey([8] + b) == Decoded(Backspace, 1)
    ensures DecodeKey([32] + b) == Decoded(Space, 1)
    ensures forall c: Byte :: c < 32 && c !in {3, 8, 10, 13, 27} ==> DecodeKey([c] + b) == Decoded(Unknown, 1)
    ensures forall c: Byte :: c == 91 || c == 79 ==>
              && DecodeKey([27, c, 65] + b) == Decoded(Up, 3) && DecodeKey([27, c, 66] + b) == Decoded(Down, 3)
              && DecodeKey([27, c, 67] + b) == Decoded(Right, 3) && DecodeKey([27, c, 68] + b) == Decoded(Left, 3)
              && DecodeKey([27, c]) == INCOMPLETE
    ensures forall c: Byte :: c != 91 && c != 79 ==> DecodeKey([27, c] + b) == Decoded(Esc, 1)
    ensures DecodeKey([27]) == Decoded(Esc, 1) && DecodeKey([]) == INCOMPLETE
  {}

  /** Any other control sequence is passed over whole, once its final byte is there,
      and kept back until then. */
  lemma SequencesArePassed(c: Byte, params: seq<Byte>, last: Byte, b: seq<Byte>)
    requires (c == 91 || c == 79) && (forall i :: 0 <= i < |params| ==> !(64 <= params[i] <= 126)) && 64 <= last <= 126
    requires params == [] ==> last !in {65, 66, 67, 68}
    ensures DecodeKey([27, c] + params + [last] + b) == Decoded(Unknown, |params| + 3)
    ensures DecodeKey([27, c] + params) == INCOMPLETE
  {
    var whole, part: seq<Byte> := [27, c] + params + [last] + b, [27, c] + params;
    assert forall i :: 0 <= i < |params| ==> whole[2 + i] == params[i] && part[2 + i] == params[i];
    assert whole[2 + |params|] == last;
    FinalIs(whole, 2, 2 + |params|);
    FinalIs(part, 2, |part|);
  }

  lemma {:induction false} FinalIs(b: seq<Byte>, i: nat, j: nat)
    requires i <= j <= |b| && (forall k :: i <= k < j ==> !Final(b[k])) && (j < |b| ==> Final(b[j]))
    ensures FinalFrom(b, i) == j
    decreases j - i
  {
    if i < j { FinalIs(b, i + 1, j); }
  }

  // ---- the whole stream --------------------------------------------------

  /** The keys sent and the bytes kept back. */
  datatype Reading = Reading(keys: seq<Key>, rest: seq<Byte>)

  function Known(k: Key): seq<Key> {
    if k.Unknown? then [] else [k]
  }

  function DecodeAll(b: seq<Byte>): Reading {
    var d := DecodeKey(b);
    if d.used == 0 then Reading([], b)
    else
      UsedFits(b);
      var r := DecodeAll(b[d.used..]);
      Reading(Known(d.key) + r.keys, r.rest)
  }

  lemma UsedFits(b: seq<Byte>)
    ensures DecodeKey(b).used <= |b|
  {}

  /** What the loop holds after reading the chunks one after another. */
  function ReadChunks(chunks: seq<seq<Byte>>): Reading {
    if chunks == [] then Reading([], [])
    else
      var before := ReadChunks(chunks[..|chunks| - 1]);
      var now := DecodeAll(before.rest + chunks[|chunks| - 1]);
      Reading(before.keys + now.keys, now.rest)
  }

  lemma DecodeOne(b: seq<Byte>)
    ensures DecodeKey(b).used <= |b|
    ensures DecodeKey(b).used == 0 || b == [] ==> DecodeAll(b) == Reading([], b)
    ensures DecodeKey(b).used > 0 ==>
              var r := DecodeAll(b[DecodeKey(b).used..]);
              DecodeAll(b) == Reading(Known(DecodeKey(b).key) + r.keys, r.rest)
  {
    UsedFits(b);
  }

  method ReadKeys(chunks: seq<seq<Byte>>) returns (sent: seq<Key>, buf: seq<Byte>)
    ensures Reading(sent, buf) == ReadChunks(chunks)
  {
    hide DecodeKey, DecodeAll;
    sent, buf := [], [];
    for n := 0 to |chunks|
      invariant Reading(sent, buf) == ReadChunks(chunks[..n])
    {
      assert chunks[..n + 1][..n] == chunks[..n];
      ghost var before := sent;
      buf := buf + chunks[n];
      ghost var whole := buf;
      while |buf| > 0
        invariant DecodeAll(whole).rest == DecodeAll(buf).rest
        invariant before + DecodeAll(whole).keys == sent + DecodeAll(buf).keys
        invariant before == ReadChunks(chunks[..n]).keys && whole == ReadChunks(chunks[..n]).rest + chunks[n]
        decreases |buf|
      {
        var d := Decode(buf);
        DecodeOne(buf);
        if d.used == 0 { break; }
        buf := buf[d.used..];
        if d.key.Unknown? { continue; }
        sent := sent + [d.key];
      }
      DecodeOne(buf);
    }
    assert chunks[..|chunks|] == chunks;
  }

  // ---- chunk independence ------------------------------------------------

  /** Decoding b ends on an escape byte with nothing after it. */
  predicate EndsInLoneEsc(b: seq<Byte>) {
    var d := DecodeKey(b);
    UsedFits(b);
    d.used > 0 && (b == [ESC] || EndsInLoneEsc(b[d.used..]))
  }

  /** A chunk boundary that falls between an escape byte and the byte that
      would have made it a control sequence. */
  predicate CutsEscape(x: seq<Byte>, y: seq<Byte>) {
    EndsInLoneEsc(x) && y != [] && Introduces(y[0])
  }

  lemma {:induction false} FinalFromExtends(b: seq<Byte>, x: seq<Byte>, i: nat)
    requires i <= |b| && FinalFrom(b, i) < |b|
    ensures FinalFrom(b + x, i) == FinalFrom(b, i)
    decreases |b| - i
  {
    if !Final(b[i]) { FinalFromExtends(b, x, i + 1); }
  }

  /** A key once decoded stays that key whatever arrives after it. */
  lemma DecodedKeyIsStable(b: seq<Byte>, x: seq<Byte>)
    requires DecodeKey(b).used > 0
    requires b == [ESC] ==> x == [] || !Introduces(x[0])
    ensures DecodeKey(b + x) == DecodeKey(b)
  {
    assert (b + x)[0] == b[0];
    if b[0] == ESC && |b| >= 3 && FinalFrom(b, 2) < |b| { FinalFromExtends(b, x, 2); }
    if b[0] >= 0x20 { assert (b + x)[..|b|] == b; }
  }

  /** Decoding x and then y is decoding them at once. */
  predicate Splits(x: seq<Byte>, y: seq<Byte>) {
    var first := DecodeAll(x);
    var second := DecodeAll(first.rest + y);
    DecodeAll(x + y) == Reading(first.keys + second.keys, second.rest)
  }

  /** Decoding a stream in two pieces is decoding it whole. */
  lemma {:induction false} SplitAnywhere(x: seq<Byte>, y: seq<Byte>)
    requires !CutsEscape(x, y)
    ensures Splits(x, y)
    decreases |x|
  {
    hide DecodeKey, DecodeAll;
    var used := DecodeKey(x).used;
    DecodeOne(x);
    DecodeOne(x + y);
    if used > 0 {
      DecodedKeyIsStable(x, y);
      assert (x + y)[used..] == x[used..] + y;
      SplitAnywhere(x[used..], y);
    }
  }

  /** A stream may be cut after x, whatever follows, exactly when what x decodes
      to does not end on an escape byte alone. */
  lemma CutIsHarmlessIff(x: seq<Byte>)
    ensures (forall y :: Splits(x, y)) <==> !EndsInLoneEsc(x)
  {
    var arrow: seq<Byte> := ['[' as int, 'A' as int];
    if EndsInLoneEsc(x) {
      ArrowAfterEsc(x);
      TwoLetters();
      assert DecodeAll(x).rest + arrow == arrow;
      assert !Splits(x, arrow);
    } else {
      forall y ensures Splits(x, y) { SplitAnywhere(x, y); }
    }
  }

  /** Decoded with its escape byte, an arrow is the one key that byte was alone. */
  lemma {:induction false} ArrowAfterEsc(x: seq<Byte>)
    requires EndsInLoneEsc(x)
    ensures var arrow: seq<Byte> := ['[' as int, 'A' as int];
            |DecodeAll(x + arrow).keys| == |DecodeAll(x).keys| && DecodeAll(x).rest == []
    decreases |x|
  {
    var arrow: seq<Byte> := ['[' as int, 'A' as int];
    if x == [ESC] {
      EscAlone();
      WholeArrow();
    } else {
      hide DecodeAll;
      var used := DecodeKey(x).used;
      UsedFits(x);
      ArrowAfterEsc(x[used..]);
      DecodedKeyIsStable(x, arrow);
      assert (x + arrow)[used..] == x[used..] + arrow;
      DecodeOne(x);
      DecodeOne(x + arrow);
    }
  }

  lemma {:induction false} LoneEscIsLast(b: seq<Byte>)
    requires EndsInLoneEsc(b)
    ensures b[|b| - 1] == ESC
    decreases |b|
  {
    if b != [ESC] {
      UsedFits(b);
      LoneEscIsLast(b[DecodeKey(b).used..]);
    }
  }

  lemma {:induction false} RestIsIncomplete(b: seq<Byte>)
    ensures DecodeKey(DecodeAll(b).rest).used == 0
    decreases |b|
  {
    if DecodeKey(b).used > 0 {
      UsedFits(b);
      RestIsIncomplete(b[DecodeKey(b).used..]);
    }
  }

  function Flatten(chunks: seq<seq<Byte>>): seq<Byte> {
    if chunks == [] then [] else Flatten(chunks[..|chunks| - 1]) + chunks[|chunks| - 1]
  }

  /** No read ends where an escape byte stands alone. */
  predicate CutsHarmlessly(chunks: seq<seq<Byte>>) {
    forall i :: 0 < i < |chunks| ==> !EndsInLoneEsc(Flatten(chunks[..i]))
  }

  /** However a stream is chopped into reads, the same keys are sent and the
      same bytes kept back. */
  lemma {:induction false} ChunksDoNotMatter(chunks: seq<seq<Byte>>)
    requires CutsHarmlessly(chunks)
    ensures ReadChunks(chunks) == DecodeAll(Flatten(chunks))
  {
    hide DecodeAll, EndsInLoneEsc;
    DecodeNothing();
    if chunks != [] {
      var front, last := chunks[..|chunks| - 1], chunks[|chunks| - 1];
      forall i | 0 < i < |front| ensures !EndsInLoneEsc(Flatten(front[..i])) { assert front[..i] == chunks[..i]; }
      ChunksDoNotMatter(front);
      if front == [] { NoBytesNoEsc(); }
      SplitAnywhere(Flatten(front), last);
    }
  }

  lemma NoBytesNoEsc()
    ensures !EndsInLoneEsc([])
  {}

  /** After some reads, the next may come cut anywhere exactly when they have been
      read as one piece and did not end on an escape byte alone. */
  lemma NextReadIsHarmlessIff(front: seq<seq<Byte>>)
    ensures (forall last :: ReadChunks(front + [last]) == DecodeAll(Flatten(front) + last))
            <==> ReadChunks(front) == DecodeAll(Flatten(front)) && !EndsInLoneEsc(Flatten(front))
  {
    hide DecodeAll, EndsInLoneEsc;
    var x := Flatten(front);
    if forall last :: ReadChunks(front + [last]) == DecodeAll(x + last) {
      NothingRead(front);
      assert ReadChunks(front + [[]]) == DecodeAll(x + []) && x + [] == x;
      forall y ensures Splits(x, y) {
        NextRead(front, y);
        assert ReadChunks(front + [y]) == DecodeAll(x + y);
      }
    } else if ReadChunks(front) == DecodeAll(x) && !EndsInLoneEsc(x) {
      CutIsHarmlessIff(x);
      forall last ensures ReadChunks(front + [last]) == DecodeAll(x + last) {
        NextRead(front, last);
        assert Splits(x, last);
      }
    }
    CutIsHarmlessIff(x);
  }

  lemma NextRead(front: seq<seq<Byte>>, last: seq<Byte>)
    ensures var before := ReadChunks(front); var now := DecodeAll(before.rest + last);
            ReadChunks(front + [last]) == Reading(before.keys + now.keys, now.rest)
  {
    hide DecodeAll;
    assert (front + [last])[..|front|] == front;
  }

  /** An empty read sends nothing and keeps what was kept. */
  lemma {:induction false} NothingRead(front: seq<seq<Byte>>)
    ensures ReadChunks(front + [[]]) == ReadChunks(front)
  {
    hide DecodeAll;
    var before := ReadChunks(front);
    NextRead(front, []);
    assert before.rest + [] == before.rest;
    if front == [] {
      DecodeNothing();
    } else {
      RestIsIncomplete(ReadChunks(front[..|front| - 1]).rest + front[|front| - 1]);
      DecodeOne(before.rest);
    }
  }

  /** Where no read ends in an escape byte, none ends on one alone. */
  lemma NoEscAtTheEnds(chunks: seq<seq<Byte>>)
    requires forall i :: 0 <= i < |chunks| - 1 && chunks[i] != [] ==> chunks[i][|chunks[i]| - 1] != ESC
    ensures CutsHarmlessly(chunks)
  {
    hide EndsInLoneEsc;
    forall i | 0 < i < |chunks| ensures !EndsInLoneEsc(Flatten(chunks[..i])) {
      FlattenedEnd(chunks[..i]);
      if EndsInLoneEsc(Flatten(chunks[..i])) {
        LoneEscIsLast(Flatten(chunks[..i]));
        NoBytesNoEsc();
      }
    }
  }

  lemma {:induction false} FlattenedEnd(chunks: seq<seq<Byte>>)
    requires forall i :: 0 <= i < |chunks| && chunks[i] != [] ==> chunks[i][|chunks[i]| - 1] != ESC
    ensures Flatten(chunks) != [] ==> Flatten(chunks)[|Flatten(chunks)| - 1] != ESC
  {
    if chunks != [] { FlattenedEnd(chunks[..|chunks| - 1]); }
  }

  lemma DecodeNothing()
    ensures DecodeAll([]) == Reading([], [])
  {}

  /** An arrow key cut after its escape byte arrives as Esc and two letters. */
  lemma EscapeCutIsVisible()
    ensures var x: seq<Byte>, y: seq<Byte> := [ESC], ['[' as int, 'A' as int];
            CutsEscape(x, y) && DecodeAll(x + y) == Reading([Up], [])
            && ReadChunks([x, y]) == Reading([Esc, Runes('[' as int), Runes('A' as int)], [])
  {
    var x: seq<Byte>, y: seq<Byte> := [ESC], ['[' as int, 'A' as int];
    EscAlone();
    TwoLetters();
    WholeArrow();
    hide DecodeAll;
    DecodeNothing();
    assert [x, y][..1] == [x] && [x][..0] == [];
    assert [] + x == x && [] + y == y;
    assert ReadChunks([x]) == Reading([Esc], []);
  }

  lemma EscAlone()
    ensures DecodeAll([ESC]) == Reading([Esc], [])
  {
    var x: seq<Byte> := [ESC];
    DecodeNothing();
    assert x[1..] == [];
  }

  lemma TwoLetters()
    ensures DecodeAll(['[' as int, 'A' as int]) == Reading([Runes('[' as int), Runes('A' as int)], [])
  {
    var y: seq<Byte> := ['[' as int, 'A' as int];
    DecodeNothing();
    assert y[1..] == ['A' as int] && y[1..][1..] == [];
    assert DecodeAll(y[1..]) == Reading([Runes('A' as int)], []);
  }

  lemma WholeArrow()
    ensures var x: seq<Byte>, y: seq<Byte> := [ESC], ['[' as int, 'A' as int];
            DecodeAll(x + y) == Reading([Up], [])
  {
    var x: seq<Byte>, y: seq<Byte> := [ESC], ['[' as int, 'A' as int];
    DecodeNothing();
    assert (x + y)[3..] == [];
  }
}
