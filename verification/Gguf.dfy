/** The metadata header of a GGUF file, read from as much of it as has arrived. */
module Gguf {

  type Byte = b: int | 0 <= b < 256

  /** A metadata value as a reader sees it: integers widened, floats as their
      bits, arrays as how many elements were skipped. */
  datatype Value =
    | Unsigned(n: nat) | Signed(i: int) | Single(bits: nat) | Double(bits: nat) | Flag(b: bool)
    | Text(s: seq<Byte>) | Strings(count: nat) | Values(count: nat)

  const T_UINT8 := 0
  const T_INT8 := 1
  const T_UINT16 := 2
  const T_INT16 := 3
  const T_UINT32 := 4
  const T_INT32 := 5
  const T_FLOAT32 := 6
  const T_BOOL := 7
  const T_STRING := 8
  const T_ARRAY := 9
  const T_UINT64 := 10
  const T_INT64 := 11
  const T_FLOAT64 := 12

  const MAGIC: seq<Byte> := [0x47, 0x47, 0x55, 0x46]
  const MAX_PAIRS := 0x10_0000

  function Pow256(k: nat): (p: nat)
    ensures p > 0
  {
    if k == 0 then 1 else 256 * Pow256(k - 1)
  }

  // ---- reading from what remains of a buffer -----------------------------

  /** A value and the bytes it took, or too few bytes to hold one. */
  datatype Read<+T> = Got(value: T, used: nat) | Stop

  /** The little-endian number in the first k bytes. */
  function Le(r: seq<Byte>, k: nat): (n: nat)
    requires k <= |r|
  {
    if k == 0 then 0 else r[0] + 256 * Le(r[1..], k - 1)
  }

  function Number(r: seq<Byte>, k: nat): Read<nat> {
    if k <= |r| then Got(Le(r, k), k) else Stop
  }

  function String(r: seq<Byte>): Read<seq<Byte>> {
    match Number(r, 8)
    case Stop => Stop
    case Got(n, _) => if 8 + n <= |r| then Got(r[8..8 + n], 8 + n) else Stop
  }

  /** Skips n strings. */
  function SkipStrings(r: seq<Byte>, n: nat): Read<()> {
    if n == 0 then Got((), 0)
    else match String(r)
      case Stop => Stop
      case Got(_, used) =>
        StringFits(r);
        match SkipStrings(r[used..], n - 1)
        case Stop => Stop
        case Got(_, more) => Got((), used + more)
  }

  lemma StringFits(r: seq<Byte>)
    ensures String(r).Got? ==> 8 <= String(r).used <= |r|
  {}

  function FixedWidth(t: nat): nat {
    if t == T_UINT8 || t == T_INT8 || t == T_BOOL then 1
    else if t == T_UINT16 || t == T_INT16 then 2
    else if t == T_UINT32 || t == T_INT32 || t == T_FLOAT32 then 4
    else if t == T_UINT64 || t == T_INT64 || t == T_FLOAT64 then 8
    else 0
  }

  function Array(r: seq<Byte>): Read<Value> {
    if |r| < 12 then Stop
    else
      var t, n := Le(r, 4), Le(r[4..], 8);
      if t == T_STRING then
        match SkipStrings(r[12..], n)
        case Stop => Stop
        case Got(_, used) => Got(Strings(n), 12 + used)
      else if FixedWidth(t) == 0 || n * FixedWidth(t) > |r| - 12 then Stop
      else Got(Values(n), 12 + n * FixedWidth(t))
  }

  /** An unsigned number reinterpreted as two's complement. */
  function TwosComplement(n: nat, k: nat): int
  {
    if 2 * n >= Pow256(k) then n - Pow256(k) else n
  }

  function Kind(t: nat, n: nat): Value {
    if t == T_UINT8 || t == T_UINT16 || t == T_UINT32 || t == T_UINT64 then Unsigned(n)
    else if t == T_FLOAT32 then Single(n)
    else if t == T_FLOAT64 then Double(n)
    else if t == T_BOOL then Flag(n != 0)
    else Signed(TwosComplement(n, FixedWidth(t)))
  }

  function ValueOf(r: seq<Byte>, t: nat): Read<Value> {
    if FixedWidth(t) > 0 then
      match Number(r, FixedWidth(t))
      case Stop => Stop
      case Got(n, used) => Got(Kind(t, n), used)
    else if t == T_STRING then
      match String(r)
      case Stop => Stop
      case Got(s, used) => Got(Text(s), used)
    else if t == T_ARRAY then Array(r)
    else Stop
  }

  datatype Pair = Pair(key: seq<Byte>, value: Value)

  function PairOf(r: seq<Byte>): Read<Pair> {
    match String(r)
    case Stop => Stop
    case Got(key, k) =>
      StringFits(r);
      if |r| < k + 4 then Stop
      else match ValueOf(r[k + 4..], Le(r[k..], 4))
        case Stop => Stop
        case Got(v, used) => Got(Pair(key, v), k + 4 + used)
  }

  lemma PairFits(r: seq<Byte>)
    ensures PairOf(r).Got? ==> 12 <= PairOf(r).used <= |r|
  {
    StringFits(r);
    if PairOf(r).Got? { ValueFits(r[String(r).used + 4..], Le(r[String(r).used..], 4)); }
  }

  lemma ValueFits(r: seq<Byte>, t: nat)
    ensures ValueOf(r, t).Got? ==> ValueOf(r, t).used <= |r|
  {
    StringFits(r);
    if |r| >= 12 { SkipFits(r[12..], Le(r[4..], 8)); }
  }

  lemma {:induction false} SkipFits(r: seq<Byte>, n: nat)
    ensures SkipStrings(r, n).Got? ==> SkipStrings(r, n).used <= |r|
  {
    StringFits(r);
    if n > 0 && String(r).Got? { SkipFits(r[String(r).used..], n - 1); }
  }

  /** The first pairs there are bytes for, n at most. */
  function PairsOf(r: seq<Byte>, n: nat): seq<Pair> {
    if n == 0 then []
    else match PairOf(r)
      case Stop => []
      case Got(p, used) => PairFits(r); [p] + PairsOf(r[used..], n - 1)
  }

  datatype Parsed = File(version: nat, tensors: nat, pairs: seq<Pair>) | NotGguf | Implausible | Unreadable

  function Header(b: seq<Byte>): Parsed {
    if |b| < 24 || b[..4] != MAGIC then NotGguf
    else
      var version, tensors, n := Le(b[4..], 4), Le(b[8..], 8), Le(b[16..], 8);
      if n > MAX_PAIRS then Implausible
      else if version == 0 then Unreadable
      else File(version, tensors, PairsOf(b[24..], n))
  }

  /** The key/value map: a key read twice keeps its later value. */
  function ToMap(pairs: seq<Pair>): map<seq<Byte>, Value> {
    if pairs == [] then map[]
    else ToMap(pairs[..|pairs| - 1])[pairs[|pairs| - 1].key := pairs[|pairs| - 1].value]
  }

  // ---- the parser --------------------------------------------------------

  /** A cursor over a buffer. Once it has failed it reads nothing more. */
  class Parser {
    const b: seq<Byte>
    var off: nat
    var failed: bool

    constructor (b: seq<Byte>, off: nat)
      requires off <= |b|
      ensures this.b == b && this.off == off && !failed && Valid()
    {
      this.b, this.off, this.failed := b, off, false;
    }

    ghost predicate Valid()
      reads this
    {
      off <= |b|
    }

    function Rest(): seq<Byte>
      requires Valid()
      reads this
    {
      b[off..]
    }

    method Need(n: nat) returns (ok: bool)
      requires Valid()
      modifies this`failed
      ensures ok <==> !old(failed) && n <= |b| - off
      ensures failed <==> !ok
    {
      if failed { return false; }
      if off + n > |b| {
        failed := true;
        return false;
      }
      return true;
    }

    /** u32, u64 and the narrower reads of value. */
    method Fixed(k: nat) returns (v: nat)
      requires Valid()
      modifies this
      ensures Valid() && off >= old(off)
      ensures old(failed) ==> failed
      ensures !old(failed) ==>
                match Number(old(Rest()), k)
                case Stop => failed
                case Got(n, used) => !failed && v == n && off == old(off) + used
    {
      var ok := Need(k);
      if !ok { return 0; }
      v := Le(b[off..], k);
      off := off + k;
    }

    method Str() returns (s: seq<Byte>)
      requires Valid()
      modifies this
      ensures Valid() && off >= old(off)
      ensures old(failed) ==> failed
      ensures !old(failed) ==>
                match String(old(Rest()))
                case Stop => failed
                case Got(t, used) => !failed && s == t && off == old(off) + used
    {
      ghost var r := Rest();
      var n := Fixed(8);
      if failed { return []; }
      if n > |b| {
        failed := true;
        return [];
      }
      var ok := Need(n);
      if !ok { return []; }
      s := b[off..off + n];
      assert s == r[8..8 + n];
      off := off + n;
    }

    /** The string case of an array: past each element in turn. */
    method SkipStringArray(n: nat)
      requires Valid() && !failed
      modifies this
      ensures Valid() && off >= old(off)
      ensures match SkipStrings(old(Rest()), n)
              case Stop => failed
              case Got(_, used) => !failed && off == old(off) + used
    {
      hide String;
      var i := 0;
      while i < n
        invariant Valid() && !failed && i <= n && old(off) <= off
        invariant SkipStrings(old(Rest()), n) ==
                  match SkipStrings(Rest(), n - i)
                  case Stop => Stop
                  case Got(_, used) => Got((), off - old(off) + used)
      {
        ghost var rest := Rest();
        StringFits(rest);
        var _ := Str();
        if failed { return; }
        assert Rest() == rest[String(rest).used..];
        i := i + 1;
      }
    }

    method SkipArray() returns (v: Value)
      requires Valid()
      modifies this
      ensures Valid() && off >= old(off)
      ensures old(failed) ==> failed
      ensures !old(failed) ==>
                match Array(old(Rest()))
                case Stop => failed
                case Got(w, used) => !failed && v == w && off == old(off) + used
    {
      hide SkipStrings, Le;
      ghost var r := Rest();
      v := Strings(0);
      var t := Fixed(4);
      ghost var mid := Rest();
      var n := Fixed(8);
      if failed { return; }
      assert mid == r[4..] && Rest() == r[12..];
      if t == T_STRING {
        SkipStringArray(n);
        return Strings(n);
      }
      var w := FixedWidth(t);
      if w > 0 { Larger(n, w); }
      if w == 0 || n > |b| {
        failed := true;
        return;
      }
      var ok := Need(n * w);
      if !ok { return; }
      off := off + n * w;
      return Values(n);
    }

    method ReadValue(t: nat) returns (v: Value)
      requires Valid()
      modifies this
      ensures Valid() && off >= old(off)
      ensures old(failed) ==> failed
      ensures !old(failed) ==>
                match ValueOf(old(Rest()), t)
                case Stop => failed
                case Got(w, used) => !failed && v == w && off == old(off) + used
    {
      v := Strings(0);
      if FixedWidth(t) > 0 {
        var n := Fixed(FixedWidth(t));
        v := Kind(t, n);
      } else if t == T_STRING {
        var s := Str();
        v := Text(s);
      } else if t == T_ARRAY {
        v := SkipArray();
      } else {
        failed := true;
      }
    }

    /** The loop over the key/value pairs, which stops where the bytes do. */
    method ReadPairs(n: nat) returns (kv: map<seq<Byte>, Value>, pairs: seq<Pair>)
      requires Valid() && !failed
      modifies this
      ensures pairs == PairsOf(old(Rest()), n) && kv == ToMap(pairs)
    {
      hide PairOf, PairsOf, ValueOf, String, Le, ToMap;
      kv, pairs := map[], [];
      NothingMapped();
      ghost var all := PairsOf(Rest(), n);
      var i := 0;
      while i < n
        invariant i <= n && Valid() && !failed
        invariant all == pairs + PairsOf(Rest(), n - i)
        invariant kv == ToMap(pairs)
      {
        ghost var r := Rest();
        PairsInSteps(r, n - i);
        PairInSteps(r);
        var key := Str();
        var typ := Fixed(4);
        var val := ReadValue(typ);
        if failed { return; }
        kv := kv[key := val];
        MappedNext(pairs, Pair(key, val));
        pairs := pairs + [Pair(key, val)];
        assert Rest() == r[PairOf(r).used..];
        i := i + 1;
      }
      NoPairs(Rest());
    }
  }

  lemma Larger(n: nat, w: nat)
    requires w >= 1
    ensures n * w >= n
  {}

  /** Reads as much of the header as the buffer holds. */
  method Parse(b: seq<Byte>) returns (out: Parsed, kv: map<seq<Byte>, Value>)
    ensures out == Header(b)
    ensures kv == if out.File? then ToMap(out.pairs) else map[]
  {
    hide PairOf, PairsOf, ValueOf, String, Le, ToMap;
    kv := map[];
    if |b| < 24 || b[..4] != MAGIC { return NotGguf, kv; }
    var p := new Parser(b, 4);
    var version := p.Fixed(4);
    var tensors := p.Fixed(8);
    var n := p.Fixed(8);
    assert b[4..][4..] == b[8..] && b[8..][8..] == b[16..] && p.Rest() == b[24..];
    if n > MAX_PAIRS { return Implausible, kv; }
    var pairs;
    kv, pairs := p.ReadPairs(n);
    if version == 0 { return Unreadable, map[]; }
    out := File(version, tensors, pairs);
  }

  lemma PairsInSteps(r: seq<Byte>, n: nat)
    requires n > 0
    ensures PairOf(r).Got? ==> PairOf(r).used <= |r|
    ensures PairsOf(r, n) == if PairOf(r).Stop? then [] else [PairOf(r).value] + PairsOf(r[PairOf(r).used..], n - 1)
  {
    hide PairOf;
    PairFits(r);
  }

  lemma NothingMapped()
    ensures ToMap([]) == map[]
  {}

  lemma MappedNext(pairs: seq<Pair>, p: Pair)
    ensures ToMap(pairs + [p]) == ToMap(pairs)[p.key := p.value]
  {
    assert (pairs + [p])[..|pairs|] == pairs;
  }

  lemma PairInSteps(r: seq<Byte>)
    ensures String(r).Got? ==> String(r).used <= |r|
    ensures PairOf(r) ==
            if String(r).Stop? || Number(r[String(r).used..], 4).Stop? then Stop
            else match ValueOf(r[String(r).used..][4..], Number(r[String(r).used..], 4).value)
              case Stop => Stop
              case Got(v, used) => Got(Pair(String(r).value, v), String(r).used + 4 + used)
  {
    StringFits(r);
    if String(r).Got? && |r| >= String(r).used + 4 {
      assert r[String(r).used..][4..] == r[String(r).used + 4..];
    }
  }

  // ---- what the bytes say -------------------------------------------------

  /** Numbers are little-endian. */
  lemma BytesMakeNumbers(r: seq<Byte>)
    ensures |r| >= 1 ==> Le(r, 1) == r[0]
    ensures |r| >= 2 ==> Le(r, 2) == r[0] as int + 256 * r[1] as int
    ensures |r| >= 4 ==> Le(r, 4) == r[0] as int + 256 * r[1] as int + 65536 * r[2] as int + 16777216 * r[3] as int
    ensures |r| >= 8 ==> Le(r, 8) == Le(r, 4) + 4294967296 * Le(r[4..], 4)
  {
    if |r| >= 8 { LeSplits(r, 4, 4); }
    if |r| >= 4 {
      LeSplits(r, 1, 3);
      LeSplits(r[1..], 1, 2);
      LeSplits(r[1..][1..], 1, 1);
      assert r[1..][1..][1..][0] == r[3] && r[1..][1..][0] == r[2];
    }
  }

  lemma {:induction false} LeSplits(r: seq<Byte>, j: nat, k: nat)
    requires j + k <= |r|
    ensures Le(r, j + k) == Le(r, j) + Pow256(j) * Le(r[j..], k)
    ensures Pow256(0) == 1 && Pow256(1) == 256 && Pow256(4) == 4294967296
  {
    assert Pow256(4) == 256 * Pow256(3) && Pow256(3) == 256 * Pow256(2);
    if j > 0 {
      LeSplits(r[1..], j - 1, k);
      assert r[1..][j - 1..] == r[j..];
      Distributes(Le(r[1..], j - 1), Pow256(j - 1), Le(r[j..], k));
    }
  }

  lemma Distributes(a: nat, p: nat, x: nat)
    ensures 256 * (a + p * x) == 256 * a + (256 * p) * x
  {}

  /** The types, by the numbers a file gives them. */
  lemma TypesAre(r: seq<Byte>, t: nat)
    ensures FixedWidth(t) == if t in {0, 1, 7} then 1 else if t in {2, 3} then 2 else if t in {4, 5, 6} then 4
                             else if t in {10, 11, 12} then 8 else 0
    ensures var w := FixedWidth(t); 0 < w <= |r| ==>
              ValueOf(r, t) == Got(if t in {0, 2, 4, 10} then Unsigned(Le(r, w)) else if t == 6 then Single(Le(r, w))
                                   else if t == 12 then Double(Le(r, w)) else if t == 7 then Flag(Le(r, w) != 0)
                                   else Signed(TwosComplement(Le(r, w), w)), w)
    ensures t == 8 ==> ValueOf(r, t) == match String(r) case Stop => Stop case Got(s, used) => Got(Text(s), used)
    ensures t == 9 ==> ValueOf(r, t) == Array(r)
    ensures t > 12 || |r| < FixedWidth(t) ==> ValueOf(r, t) == Stop
  {
    hide Le, Array, String, TwosComplement;
  }

  /** The signed number with the same low bytes, halves either side of zero. */
  lemma TwosComplementIs(n: nat, k: nat)
    requires n < Pow256(k)
    ensures var i, p: int := TwosComplement(n, k), Pow256(k); -p <= 2 * i < p && (i == n || i == n - p)
    ensures Pow256(1) == 256 && Pow256(2) == 65536 && Pow256(4) == 4294967296 && Pow256(8) == 18446744073709551616
  {
    assert Pow256(8) == 256 * Pow256(7) && Pow256(7) == 256 * Pow256(6) && Pow256(6) == 256 * Pow256(5) && Pow256(5) == 256 * Pow256(4);
    assert Pow256(4) == 256 * Pow256(3) && Pow256(3) == 256 * Pow256(2);
  }

  /** A string is its length in eight bytes, and that many bytes. */
  lemma StringIs(r: seq<Byte>)
    ensures String(r).Got? <==> |r| >= 8 && |r| - 8 >= Le(r, 8)
    ensures String(r).Got? ==> String(r).value == r[8..8 + Le(r, 8)] && String(r).used == 8 + Le(r, 8)
  {
    hide Le;
  }

  /** An array is its elements' type, their number, and them; no arrays of arrays. */
  lemma ArrayIs(r: seq<Byte>)
    ensures |r| < 12 ==> Array(r) == Stop
    ensures |r| >= 12 && Le(r, 4) != 8 ==>
              var w, n := FixedWidth(Le(r, 4)), Le(r[4..], 8);
              Array(r) == if w > 0 && w * n <= |r| - 12 then Got(Values(n), 12 + w * n) else Stop
    ensures |r| >= 12 && Le(r, 4) == 8 ==>
              var n := Le(r[4..], 8);
              Array(r) == match SkipStrings(r[12..], n) case Stop => Stop case Got(_, used) => Got(Strings(n), 12 + used)
  {
    hide Le, SkipStrings;
  }

  /** "GGUF", a version, and counts of tensors and pairs; more than 1,048,576 pairs
      are not believed. */
  lemma HeaderIs(b: seq<Byte>)
    ensures Header(b).NotGguf? <==> |b| < 24 || b[..4] != [71, 71, 85, 70]
    ensures !Header(b).NotGguf? ==>
              && (Header(b).Implausible? <==> Le(b[16..], 8) > 1048576)
              && (Header(b).Unreadable? <==> Le(b[16..], 8) <= 1048576 && Le(b[4..], 4) == 0)
    ensures Header(b).File? ==> Header(b).version == Le(b[4..], 4) && Header(b).tensors == Le(b[8..], 8)
                                && Header(b).pairs == PairsOf(b[24..], Le(b[16..], 8))
  {
    hide Le, PairsOf;
  }

  // ---- prefixes ----------------------------------------------------------

  lemma {:induction false} LeStable(r: seq<Byte>, more: seq<Byte>, k: nat)
    requires k <= |r|
    ensures Le(r + more, k) == Le(r, k)
  {
    if k > 0 {
      assert (r + more)[1..] == r[1..] + more;
      LeStable(r[1..], more, k - 1);
    }
  }

  lemma StringStable(r: seq<Byte>, more: seq<Byte>)
    ensures String(r).Got? ==> String(r + more) == String(r)
  {
    if |r| >= 8 {
      LeStable(r, more, 8);
      if 8 + Le(r, 8) <= |r| { assert (r + more)[8..8 + Le(r, 8)] == r[8..8 + Le(r, 8)]; }
    }
  }

  lemma {:induction false} SkipStable(r: seq<Byte>, more: seq<Byte>, n: nat)
    ensures SkipStrings(r, n).Got? ==> SkipStrings(r + more, n) == SkipStrings(r, n)
  {
    hide String;
    if n > 0 && String(r).Got? {
      StringStable(r, more);
      StringFits(r);
      var used := String(r).used;
      assert (r + more)[used..] == r[used..] + more;
      SkipStable(r[used..], more, n - 1);
    }
  }

  lemma ValueStable(r: seq<Byte>, more: seq<Byte>, t: nat)
    ensures ValueOf(r, t).Got? ==> ValueOf(r + more, t) == ValueOf(r, t)
  {
    hide SkipStrings, Le, Kind;
    StringStable(r, more);
    if 0 < FixedWidth(t) <= |r| { LeStable(r, more, FixedWidth(t)); }
    if |r| >= 12 {
      LeStable(r, more, 4);
      assert (r + more)[4..] == r[4..] + more && (r + more)[12..] == r[12..] + more;
      LeStable(r[4..], more, 8);
      SkipStable(r[12..], more, Le(r[4..], 8));
    }
  }

  lemma PairStable(r: seq<Byte>, more: seq<Byte>)
    ensures PairOf(r).Got? ==> PairOf(r + more) == PairOf(r)
  {
    hide ValueOf, Le;
    StringStable(r, more);
    StringFits(r);
    if String(r).Got? {
      var k := String(r).used;
      if |r| >= k + 4 {
        assert (r + more)[k..] == r[k..] + more && (r + more)[k + 4..] == r[k + 4..] + more;
        LeStable(r[k..], more, 4);
        ValueStable(r[k + 4..], more, Le(r[k..], 4));
      }
    }
  }

  lemma {:induction false} PairsStable(r: seq<Byte>, more: seq<Byte>, n: nat)
    ensures PairsOf(r, n) <= PairsOf(r + more, n)
  {
    hide PairOf;
    if n > 0 && PairOf(r).Got? {
      PairStable(r, more);
      PairFits(r);
      var used := PairOf(r).used;
      assert (r + more)[used..] == r[used..] + more;
      PairsStable(r[used..], more, n - 1);
    }
  }

  /** What a prefix of a file yields is what the whole file begins with. */
  lemma PrefixesAgree(b: seq<Byte>, more: seq<Byte>)
    requires Header(b).File?
    ensures Header(b + more).File?
    ensures Header(b + more).version == Header(b).version && Header(b + more).tensors == Header(b).tensors
    ensures Header(b).pairs <= Header(b + more).pairs
  {
    hide PairOf, Le;
    assert (b + more)[..4] == b[..4];
    assert (b + more)[4..] == b[4..] + more && (b + more)[8..] == b[8..] + more;
    assert (b + more)[16..] == b[16..] + more && (b + more)[24..] == b[24..] + more;
    LeStable(b[4..], more, 4);
    LeStable(b[8..], more, 8);
    LeStable(b[16..], more, 8);
    PairsStable(b[24..], more, Le(b[16..], 8));
  }

  // ---- writing and reading back ------------------------------------------

  /** A metadata value as a file holds it. */
  datatype Meta =
    | Fixed(t: nat, n: nat)                    // one element of a fixed-width type, as its bits
    | Str(s: seq<Byte>)
    | StrArray(items: seq<seq<Byte>>)
    | FixedArray(t: nat, n: nat, raw: seq<Byte>)

  predicate Writable(m: Meta) {
    match m
    case Fixed(t, n) => FixedWidth(t) > 0 && n < Pow256(FixedWidth(t))
    case Str(s) => |s| < Pow256(8)
    case StrArray(items) => |items| < Pow256(8) && forall i :: 0 <= i < |items| ==> |items[i]| < Pow256(8)
    case FixedArray(t, n, raw) => FixedWidth(t) > 0 && n < Pow256(8) && |raw| == n * FixedWidth(t)
  }

  function TypeOf(m: Meta): nat {
    match m
    case Fixed(t, _) => t
    case Str(_) => T_STRING
    case _ => T_ARRAY
  }

  /** How a reader sees it. */
  function View(m: Meta): Value {
    match m
    case Fixed(t, n) => Kind(t, n)
    case Str(s) => Text(s)
    case StrArray(items) => Strings(|items|)
    case FixedArray(_, n, _) => Values(n)
  }

  function LeBytes(n: nat, k: nat): (b: seq<Byte>)
    ensures |b| == k
  {
    if k == 0 then [] else [n % 256] + LeBytes(n / 256, k - 1)
  }

  function WriteString(s: seq<Byte>): seq<Byte> {
    LeBytes(|s|, 8) + s
  }

  function WriteStrings(items: seq<seq<Byte>>): seq<Byte> {
    if items == [] then [] else WriteString(items[0]) + WriteStrings(items[1..])
  }

  function WriteMeta(m: Meta): seq<Byte> {
    match m
    case Fixed(t, n) => LeBytes(n, FixedWidth(t))
    case Str(s) => WriteString(s)
    case StrArray(items) => LeBytes(T_STRING, 4) + LeBytes(|items|, 8) + WriteStrings(items)
    case FixedArray(t, n, raw) => LeBytes(t, 4) + LeBytes(n, 8) + raw
  }

  datatype Item = Item(key: seq<Byte>, meta: Meta)

  function WriteItem(i: Item): seq<Byte> {
    WriteString(i.key) + (LeBytes(TypeOf(i.meta), 4) + WriteMeta(i.meta))
  }

  function WriteItems(items: seq<Item>): seq<Byte> {
    if items == [] then [] else WriteItem(items[0]) + WriteItems(items[1..])
  }

  function WriteFile(version: nat, tensors: nat, items: seq<Item>): seq<Byte> {
    MAGIC + LeBytes(version, 4) + LeBytes(tensors, 8) + LeBytes(|items|, 8) + WriteItems(items)
  }

  function Viewed(items: seq<Item>): seq<Pair> {
    if items == [] then [] else [Pair(items[0].key, View(items[0].meta))] + Viewed(items[1..])
  }

  lemma {:induction false} LeReadsBack(n: nat, k: nat, post: seq<Byte>)
    requires n < Pow256(k)
    ensures Le(LeBytes(n, k) + post, k) == n
  {
    if k > 0 {
      assert (LeBytes(n, k) + post)[1..] == LeBytes(n / 256, k - 1) + post;
      LeReadsBack(n / 256, k - 1, post);
    }
  }

  lemma StringReadsBack(s: seq<Byte>, post: seq<Byte>)
    requires |s| < Pow256(8)
    ensures String(WriteString(s) + post) == Got(s, |WriteString(s)|)
  {
    hide Le, LeBytes;
    assert WriteString(s) + post == LeBytes(|s|, 8) + (s + post);
    LeReadsBack(|s|, 8, s + post);
  }

  lemma {:induction false} StringsReadBack(items: seq<seq<Byte>>, post: seq<Byte>)
    requires forall i :: 0 <= i < |items| ==> |items[i]| < Pow256(8)
    ensures SkipStrings(WriteStrings(items) + post, |items|) == Got((), |WriteStrings(items)|)
  {
    if items != [] {
      hide String, WriteString;
      var head, rest := WriteString(items[0]), WriteStrings(items[1..]);
      Joined(head, rest, post);
      StringReadsBack(items[0], rest + post);
      assert (head + (rest + post))[|head|..] == rest + post;
      StringsReadBack(items[1..], post);
    }
  }

  lemma ArrayReadsBack(t: nat, n: nat, body: seq<Byte>, post: seq<Byte>)
    requires t < Pow256(4) && n < Pow256(8)
    ensures var r := LeBytes(t, 4) + LeBytes(n, 8) + body + post;
            |r| >= 12 && Le(r, 4) == t && Le(r[4..], 8) == n && r[12..] == body + post
  {
    hide Le, LeBytes;
    var r := LeBytes(t, 4) + LeBytes(n, 8) + body + post;
    assert r == LeBytes(t, 4) + (LeBytes(n, 8) + (body + post));
    LeReadsBack(t, 4, LeBytes(n, 8) + (body + post));
    assert r[4..] == LeBytes(n, 8) + (body + post);
    LeReadsBack(n, 8, body + post);
    assert r[12..] == body + post;
  }

  lemma SmallTypes()
    ensures Pow256(4) == 0x1_0000_0000
  {
    assert Pow256(1) == 256 && Pow256(2) == 0x1_0000;
  }

  lemma ValueReadsBack(m: Meta, post: seq<Byte>)
    requires Writable(m)
    ensures ValueOf(WriteMeta(m) + post, TypeOf(m)) == Got(View(m), |WriteMeta(m)|)
  {
    hide Le, LeBytes, Pow256, String, SkipStrings, Kind;
    SmallTypes();
    match m
    case Fixed(t, n) => LeReadsBack(n, FixedWidth(t), post);
    case Str(s) => StringReadsBack(s, post);
    case StrArray(items) =>
      ArrayReadsBack(T_STRING, |items|, WriteStrings(items), post);
      StringsReadBack(items, post);
    case FixedArray(t, n, raw) =>
      ArrayReadsBack(t, n, raw, post);
  }

  lemma PairReadsBack(i: Item, post: seq<Byte>)
    requires |i.key| < Pow256(8) && Writable(i.meta)
    ensures PairOf(WriteItem(i) + post) == Got(Pair(i.key, View(i.meta)), |WriteItem(i)|)
  {
    hide Le, LeBytes, Pow256, String, ValueOf, WriteString, WriteMeta, Writable;
    SmallTypes();
    var head, typ, body := WriteString(i.key), LeBytes(TypeOf(i.meta), 4), WriteMeta(i.meta);
    var r := WriteItem(i) + post;
    assert r == head + (typ + (body + post));
    StringReadsBack(i.key, typ + (body + post));
    assert r[|head|..] == typ + (body + post) && r[|head| + 4..] == body + post;
    SmallTypeOf(i.meta);
    LeReadsBack(TypeOf(i.meta), 4, body + post);
    ValueReadsBack(i.meta, post);
  }

  lemma SmallTypeOf(m: Meta)
    requires Writable(m)
    ensures TypeOf(m) <= T_FLOAT64
  {}

  lemma {:induction false} PairsReadBack(items: seq<Item>, post: seq<Byte>)
    requires forall i :: 0 <= i < |items| ==> |items[i].key| < Pow256(8) && Writable(items[i].meta)
    ensures PairsOf(WriteItems(items) + post, |items|) == Viewed(items)
  {
    hide PairOf, PairsOf, WriteItem, Writable, Pow256, View;
    if items != [] {
      var head, rest := WriteItem(items[0]), WriteItems(items[1..]);
      PairReadsBack(items[0], rest + post);
      PairsReadBack(items[1..], post);
      PairThenMore(head, rest + post, Pair(items[0].key, View(items[0].meta)), |items| - 1);
      Joined(head, rest, post);
    } else {
      NoPairs(WriteItems(items) + post);
    }
  }

  lemma NoPairs(r: seq<Byte>)
    ensures PairsOf(r, 0) == []
  {}

  lemma Joined(a: seq<Byte>, b: seq<Byte>, c: seq<Byte>)
    ensures a + b + c == a + (b + c)
  {}

  lemma PairThenMore(head: seq<Byte>, rest: seq<Byte>, p: Pair, n: nat)
    requires PairOf(head + rest) == Got(p, |head|)
    ensures PairsOf(head + rest, n + 1) == [p] + PairsOf(rest, n)
  {
    hide PairOf;
    assert (head + rest)[|head|..] == rest;
  }

  /** A written header reads back whole, whatever follows it in the file. */
  lemma WrittenHeaderReadsBack(version: nat, tensors: nat, items: seq<Item>, post: seq<Byte>)
    requires 0 < version < Pow256(4) && tensors < Pow256(8) && |items| <= MAX_PAIRS
    requires forall i :: 0 <= i < |items| ==> |items[i].key| < Pow256(8) && Writable(items[i].meta)
    ensures Header(WriteFile(version, tensors, items) + post) == File(version, tensors, Viewed(items))
  {
    hide Le, LeBytes, PairOf, Writable, WriteItem, WriteItems;
    CountFits(|items|);
    var v, t, n, body := LeBytes(version, 4), LeBytes(tensors, 8), LeBytes(|items|, 8), WriteItems(items) + post;
    var b := WriteFile(version, tensors, items) + post;
    assert b == MAGIC + (v + (t + (n + body)));
    assert b[..4] == MAGIC && b[4..] == v + (t + (n + body)) && b[8..] == t + (n + body);
    assert b[16..] == n + body && b[24..] == body;
    LeReadsBack(version, 4, t + (n + body));
    LeReadsBack(tensors, 8, n + body);
    LeReadsBack(|items|, 8, body);
    PairsReadBack(items, post);
  }

  lemma CountFits(n: nat)
    requires n <= MAX_PAIRS
    ensures n < Pow256(8)
  {
    assert Pow256(1) == 256 && Pow256(2) == 0x1_0000 && Pow256(3) == 0x100_0000;
    assert Pow256(4) == 0x1_0000_0000 && Pow256(5) >= Pow256(4) && Pow256(6) >= Pow256(5);
    assert Pow256(7) >= Pow256(6) && Pow256(8) >= Pow256(7);
  }

  /** Any prefix of a written file yields an initial run of what was written. */
  lemma PrefixOfWrittenFile(version: nat, tensors: nat, items: seq<Item>, b: seq<Byte>, more: seq<Byte>)
    requires 0 < version < Pow256(4) && tensors < Pow256(8) && |items| <= MAX_PAIRS
    requires forall i :: 0 <= i < |items| ==> |items[i].key| < Pow256(8) && Writable(items[i].meta)
    requires b + more == WriteFile(version, tensors, items)
    ensures |b| >= 24 ==> Header(b).File? && Header(b).version == version && Header(b).pairs <= Viewed(items)
  {
    hide Writable, Pow256, PairsOf, WriteItems;
    assert b + more + [] == b + more;
    WrittenHeaderReadsBack(version, tensors, items, []);
    if |b| >= 24 {
      HeadersAgree(b, more);
      PrefixesAgree(b, more);
    }
  }

  lemma HeadersAgree(b: seq<Byte>, more: seq<Byte>)
    requires |b| >= 24 && Header(b + more).File?
    ensures Header(b).File?
  {
    hide Le, PairsOf;
    assert (b + more)[..4] == b[..4];
    assert (b + more)[4..] == b[4..] + more && (b + more)[16..] == b[16..] + more;
    LeStable(b[4..], more, 4);
    LeStable(b[16..], more, 8);
  }
}
