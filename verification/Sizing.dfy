/** From a model and a card to a VRAM plan, and from a host to the shards an
    engine can place on it. Bytes are naturals, fractions are real. */
module Sizing {
  import opened Arith
  import opened Wrappers

  const GIB := 0x4000_0000
  const MAX_UTILISATION := 0.95
  const MIN_UTILISATION := 0.10
  const DEFAULT_SAFETY := 1.10
  const DEFAULT_CONTEXT := 4096
  const LEAST_CONTEXT := 512
  const ACTIVATION_FACTOR := 2.0
  const ACTIVATION_BYTES := 2.0
  const OVERHEAD_FRACTION := 0.08

  /** What is known of a model; a non-positive field is unknown. */
  datatype Facts = Facts(
    layers: int, kvHeads: int, headDim: int, hiddenSize: int, attentionHeads: int,
    maxContext: int, params: real)

  /** Average bits a weight takes under a quantisation the table knows. */
  type BitsPerWeight = b: real | b > 0.0 witness 1.0

  predicate Known(f: Facts) {
    f.layers > 0 && f.kvHeads > 0 && f.headDim > 0 && f.hiddenSize > 0
  }

  /** What to size. Zero or less means the default, as it does for the caller. */
  datatype Request = Request(
    facts: Facts, context: int, bits: Option<BitsPerWeight>, weightBytes: nat,
    concurrency: int, safety: real, kvElem: int, available: nat, gpus: int)

  datatype Warning = ContextClamped(asked: int, used: int) | ContextReduced(asked: int, used: int) | SingleSequence

  datatype Plan = Plan(
    degree: int, context: int, weights: nat, kv: nat, required: nat,
    fits: bool, utilisation: real, warnings: seq<Warning>)

  datatype Result = Ok(plan: Plan) | Refused

  // ---- the shards of a host ----------------------------------------------

  predicate Shardable(f: Facts, n: int)
    requires n > 0
  {
    f.attentionHeads % n == 0 && (f.kvHeads <= 0 || f.kvHeads % n == 0 || n % f.kvHeads == 0)
  }

  function Pow2(k: nat): (p: nat)
    ensures p > 0
  {
    if k == 0 then 1 else 2 * Pow2(k - 1)
  }

  /** A degree an engine that splits heads would accept. */
  ghost predicate Degree(f: Facts, n: int) {
    n > 0 && if f.attentionHeads <= 0 then exists k: nat :: n == Pow2(k) else Shardable(f, n)
  }

  /** d is the greatest degree a host with that many cards allows. */
  ghost predicate IsShards(f: Facts, gpus: int, tensorParallel: bool, d: int) {
    var cards := if gpus <= 1 then 1 else gpus;
    if !tensorParallel then d == cards
    else Degree(f, d) && d <= cards && forall n :: d < n <= cards ==> !Degree(f, n)
  }

  method LargestPowerOfTwo(n: int) returns (p: int)
    requires n >= 1
    ensures exists k: nat :: p == Pow2(k)
    ensures p <= n < 2 * p
  {
    p := 1;
    ghost var k: nat := 0;
    while p * 2 <= n
      invariant p == Pow2(k) && p <= n
      decreases n - p
    {
      p := p * 2;
      k := k + 1;
    }
  }

  lemma {:induction false} PowersGrow(j: nat, k: nat)
    ensures j < k ==> 2 * Pow2(j) <= Pow2(k)
  {
    if j < k - 1 { PowersGrow(j, k - 1); }
  }

  lemma NoPowerBetween(p: int, n: int)
    requires (exists k: nat :: p == Pow2(k)) && p < n < 2 * p
    ensures !exists k: nat :: n == Pow2(k)
  {
    var j: nat :| p == Pow2(j);
    forall k: nat ensures n != Pow2(k) { PowersGrow(j, k); PowersGrow(k, j); }
  }

  method Shards(f: Facts, gpus: int, tensorParallel: bool) returns (d: int)
    ensures IsShards(f, gpus, tensorParallel, d) && d == ShardsOf(f, gpus, tensorParallel)
  {
    hide ShardsOf;
    OneIsADegree(f);
    if gpus <= 1 { return 1; }
    if !tensorParallel { return gpus; }
    if f.attentionHeads <= 0 {
      d := LargestPowerOfTwo(gpus);
      forall n | d < n <= gpus ensures !Degree(f, n) { NoPowerBetween(d, n); }
      return;
    }
    var n := gpus;
    while n > 1
      invariant 1 <= n <= gpus
      invariant forall m :: n < m <= gpus ==> !Shardable(f, m)
    {
      if Shardable(f, n) { return n; }
      n := n - 1;
    }
    return 1;
  }

  function PowerUpTo(n: int, p: int): (q: int)
    requires 1 <= p <= n && exists k: nat :: p == Pow2(k)
    ensures q <= n < 2 * q && exists k: nat :: q == Pow2(k)
    decreases n - p
  {
    PowerDoubles(p);
    if 2 * p <= n then PowerUpTo(n, 2 * p) else p
  }

  lemma PowerDoubles(p: int)
    requires exists k: nat :: p == Pow2(k)
    ensures exists k: nat :: 2 * p == Pow2(k)
  {
    var k: nat :| p == Pow2(k);
    assert 2 * p == Pow2(k + 1);
  }

  function DivisorUpTo(f: Facts, n: int): (d: int)
    requires n >= 1 && f.attentionHeads > 0
    ensures 1 <= d <= n && Degree(f, d) && forall m :: d < m <= n ==> !Degree(f, m)
    decreases n
  {
    OneIsADegree(f);
    if n == 1 || Shardable(f, n) then n else DivisorUpTo(f, n - 1)
  }

  /** The degree a host gets. */
  function ShardsOf(f: Facts, gpus: int, tensorParallel: bool): (d: int)
    ensures d >= 1 && IsShards(f, gpus, tensorParallel, d)
  {
    OneIsADegree(f);
    if gpus <= 1 then 1
    else if !tensorParallel then gpus
    else if f.attentionHeads <= 0 then
      assert 1 == Pow2(0);
      NoPowersAbove(f, gpus);
      PowerUpTo(gpus, 1)
    else DivisorUpTo(f, gpus)
  }

  lemma NoPowersAbove(f: Facts, gpus: int)
    requires gpus >= 1 && f.attentionHeads <= 0
    ensures exists k: nat :: 1 == Pow2(k)
    ensures forall n :: PowerUpTo(gpus, 1) < n <= gpus ==> !Degree(f, n)
  {
    assert 1 == Pow2(0);
    var d := PowerUpTo(gpus, 1);
    forall n | d < n <= gpus ensures !Degree(f, n) { NoPowerBetween(d, n); }
  }

  lemma OneIsADegree(f: Facts)
    ensures Degree(f, 1)
  {
    assert Pow2(0) == 1;
  }

  /** The greatest degree is one number, more cards never lower it, and a host
      with just that many cards keeps it. */
  lemma ShardsAreMonotone(f: Facts, gpus: int, more: int, tensorParallel: bool, d: int, e: int)
    requires IsShards(f, gpus, tensorParallel, d) && IsShards(f, more, tensorParallel, e)
    ensures 1 <= d
    ensures gpus <= more ==> d <= e
    ensures gpus == more ==> d == e
    ensures more == d ==> e == d
  {}

  function UsableVRAM(total: nat): nat {
    (total as real * MAX_UTILISATION).Floor
  }

  function Advertised(vramPerGpuGb: nat, shards: int): nat {
    vramPerGpuGb * (if shards < 1 then 1 else shards) * GIB
  }

  function ShardVRAM(vramPerGpuGb: nat, shards: int): nat {
    UsableVRAM(Advertised(vramPerGpuGb, shards))
  }

  // ---- the plan ----------------------------------------------------------

  function OrDefault(v: int, default: int): int {
    if v <= 0 then default else v
  }

  function Safety(r: Request): real {
    if r.safety <= 0.0 then DEFAULT_SAFETY else r.safety
  }

  predicate Sizeable(r: Request) {
    Known(r.facts) && (r.weightBytes > 0 || (r.facts.params > 0.0 && r.bits.Some?))
  }

  function Weights(r: Request): nat
    requires Sizeable(r)
  {
    if r.weightBytes > 0 then r.weightBytes
    else
      Estimate(r.facts.params, r.bits.value)
  }

  /** Weights estimated from billions of parameters and average bits each. */
  function Estimate(params: real, bits: real): nat
    requires params >= 0.0 && bits >= 0.0
  {
    NotNegative(params, bits);
    (params * 1000000000.0 * bits / 8.0).Floor
  }

  lemma NotNegative(a: real, b: real)
    requires a >= 0.0 && b >= 0.0
    ensures a * 1000000000.0 * b / 8.0 >= 0.0
  {
    assert a * 1000000000.0 >= 0.0;
  }

  function Times(a: nat, b: nat): nat {
    a * b
  }

  function KvBytes(f: Facts, context: nat, concurrency: nat, elem: nat): nat
    requires Known(f)
  {
    Times(Times(Times(Times(Times(Times(2, f.layers), f.kvHeads), f.headDim), context), concurrency), elem)
  }

  function ActivationBytes(f: Facts, context: nat, batch: nat): nat
    requires Known(f)
  {
    (Times(Times(f.hiddenSize, context), batch) as real * ACTIVATION_BYTES * ACTIVATION_FACTOR).Floor
  }

  /** One CUDA context a card, or a share of what is resident if that is more. */
  function OverheadBytes(weights: nat, kv: nat, gpus: int): nat {
    var floor := GIB * (if gpus < 1 then 1 else gpus);
    var proportional := (weights + kv) as real * OVERHEAD_FRACTION;
    if proportional < floor as real then floor else proportional.Floor
  }

  function Kv(r: Request, context: nat): nat
    requires Sizeable(r)
  {
    KvBytes(r.facts, context, OrDefault(r.concurrency, 1), OrDefault(r.kvElem, 2))
  }

  /** The VRAM a request needs at a context length. */
  function Need(r: Request, context: nat): nat
    requires Sizeable(r)
  {
    var kv := Kv(r, context);
    var bytes := Weights(r) + kv + ActivationBytes(r.facts, context, OrDefault(r.concurrency, 1))
                 + OverheadBytes(Weights(r), kv, r.gpus);
    Padded(bytes, Safety(r))
  }

  function Padded(bytes: nat, safety: real): nat
    requires safety > 0.0
  {
    PaddedNotNegative(bytes, safety);
    (bytes as real * safety).Floor
  }

  lemma PaddedNotNegative(bytes: nat, safety: real)
    requires safety > 0.0
    ensures bytes as real * safety >= 0.0
  {}

  /** The context asked for, no longer than the model's maximum. */
  function Asked(r: Request): (c: nat)
    ensures c > 0
  {
    var c := OrDefault(r.context, DEFAULT_CONTEXT);
    if r.facts.maxContext > 0 && c > r.facts.maxContext then r.facts.maxContext else c
  }

  /** c is the k-th halving of from. */
  predicate Halving(from: nat, k: nat, c: nat) {
    c == from / Pow2(k)
  }

  /** c is the longest halving of the asked context, no shorter than the least
      worth serving, whose requirement the card holds. */
  ghost predicate LongestThatFits(r: Request, from: nat, k: nat, c: nat)
    requires Sizeable(r)
  {
    && k > 0 && Halving(from, k, c) && c >= 512 && Need(r, c) <= r.available
    && forall j: nat, d: nat :: 0 < j < k && Halving(from, j, d) ==> Need(r, d) > r.available
  }

  ghost predicate NoHalvingFits(r: Request, from: nat)
    requires Sizeable(r)
  {
    forall j: nat, d: nat :: 0 < j && Halving(from, j, d) && d >= 512 ==> Need(r, d) > r.available
  }

  lemma {:induction false} HalveOnce(from: nat, k: nat)
    ensures from / Pow2(k) / 2 == from / Pow2(k + 1)
  {
    DivideTwice(from, Pow2(k), 2);
  }

  lemma {:induction false} HalvingsShrink(from: nat, j: nat, k: nat)
    requires j <= k
    ensures from / Pow2(k) <= from / Pow2(j)
  {
    hide Pow2;
    if j < k {
      HalvingsShrink(from, j, k - 1);
      HalveOnce(from, k - 1);
      HalfIsLess(from / Pow2(k - 1));
    }
  }

  lemma HalfIsLess(n: nat)
    ensures n / 2 <= n
  {}

  /** Halves the context until the requirement fits, or finds that none does. */
  method ReduceContext(r: Request, from: nat) returns (c: nat, ok: bool, ghost k: nat)
    requires Sizeable(r)
    ensures ok ==> LongestThatFits(r, from, k, c)
    ensures !ok ==> NoHalvingFits(r, from)
  {
    hide Need, Pow2;
    k := 1;
    c := from / 2;
    HalveZero(from);
    while c >= LEAST_CONTEXT
      invariant k > 0 && Halving(from, k, c)
      invariant forall j: nat, d: nat :: 0 < j < k && Halving(from, j, d) ==> Need(r, d) > r.available
      decreases c
    {
      if Need(r, c) <= r.available { return c, true, k; }
      HalveOnce(from, k);
      c := c / 2;
      k := k + 1;
    }
    forall j: nat, d: nat | 0 < j && Halving(from, j, d) && d >= 512 ensures Need(r, d) > r.available {
      if j >= k { HalvingsShrink(from, k, j); }
    }
    return 0, false, k;
  }

  lemma HalveZero(from: nat)
    ensures Halving(from, 1, from / 2)
  {
    assert Pow2(1) == 2;
  }

  /** The nearest share that may be asked of a card. */
  function Within(v: real, lo: real, hi: real): (w: real)
    ensures lo <= hi ==> lo <= w <= hi && (v <= w ==> w == v || w == lo) && (w <= v ==> w == v || w == hi)
  {
    if v < lo then lo else if v > hi then hi else v
  }

  /** What a plan for a request is, field by field. */
  ghost predicate IsPlan(r: Request, p: Plan) {
    && Sizeable(r)
    && p.degree == OrDefault(r.gpus, 1)
    && p.weights == Weights(r) && p.context > 0
    && p.kv == Kv(r, p.context) && p.required == Need(r, p.context)
    && (if r.available == 0 || Need(r, Asked(r)) <= r.available then p.context == Asked(r)
        else (exists k :: LongestThatFits(r, Asked(r), k, p.context))
             || (NoHalvingFits(r, Asked(r)) && p.context == Asked(r)))
    && (p.fits <==> r.available == 0 || p.required <= r.available)
    && p.utilisation == (if r.available == 0 then 0.90
                         else if !p.fits then 0.0
                         else Within(p.required as real / r.available as real, 0.10, 0.95))
    && (p.utilisation == 0.0 <==> !p.fits)
    && (ContextReduced(Asked(r), p.context) in p.warnings <==> p.context != Asked(r))
    && (ContextClamped(OrDefault(r.context, 4096), Asked(r)) in p.warnings <==> Asked(r) != OrDefault(r.context, 4096))
    && (SingleSequence in p.warnings <==> r.concurrency <= 1)
  }

  method MakePlan(r: Request) returns (out: Result)
    ensures out.Ok? <==> Sizeable(r)
    ensures out.Ok? ==> IsPlan(r, out.plan)
  {
    hide Need, Kv, Weights, LongestThatFits, NoHalvingFits;
    if !Known(r.facts) { return Refused; }
    if r.weightBytes == 0 && !(r.facts.params > 0.0 && r.bits.Some?) { return Refused; }
    var warnings: seq<Warning> := [];
    var context := OrDefault(r.context, DEFAULT_CONTEXT);
    if r.facts.maxContext > 0 && context > r.facts.maxContext {
      warnings := [ContextClamped(context, r.facts.maxContext)];
      context := r.facts.maxContext;
    }
    var required := Need(r, context);
    if r.available > 0 && required > r.available {
      var reduced, ok, k := ReduceContext(r, context);
      if ok {
        ReducedIsShorter(r, context, k, reduced);
        warnings := warnings + [ContextReduced(context, reduced)];
        context := reduced;
        required := Need(r, context);
      }
    }
    var fits, utilisation := true, 0.90;
    if r.available > 0 {
      fits, utilisation := required <= r.available, 0.0;
      if fits {
        utilisation := Within(required as real / r.available as real, MIN_UTILISATION, MAX_UTILISATION);
      }
    }
    if OrDefault(r.concurrency, 1) == 1 { warnings := warnings + [SingleSequence]; }
    out := Ok(Plan(OrDefault(r.gpus, 1), context, Weights(r), Kv(r, context), required, fits, utilisation, warnings));
  }

  lemma ReducedIsShorter(r: Request, from: nat, k: nat, c: nat)
    requires Sizeable(r) && LongestThatFits(r, from, k, c)
    ensures 0 < c < from && Need(r, c) <= r.available
  {
    hide Need;
    HalvingsShrink(from, 1, k);
    assert Pow2(1) == 2;
  }

  /** When a context was reduced, the plan it leads to fits. */
  lemma ReducedPlanFits(r: Request, p: Plan)
    requires IsPlan(r, p) && p.context != Asked(r)
    ensures p.fits && p.context < Asked(r) && 0.10 <= p.utilisation <= 0.95
  {
    hide Need, LongestThatFits, NoHalvingFits, Kv, Weights;
    var k :| LongestThatFits(r, Asked(r), k, p.context);
    ReducedIsShorter(r, Asked(r), k, p.context);
  }

  // ---- selection and launch ----------------------------------------------

  /** A host on offer: how many cards, and the whole gigabytes on each. */
  datatype Host = Host(gpus: int, vramPerGpuGb: nat)

  /** The sizing the survey uses for a host, before a card is known. */
  function PerOffer(base: Request, shards: int): Request {
    base.(gpus := shards, available := 0)
  }

  /** The sizing it repeats on the card actually chosen. */
  function Placed(base: Request, h: Host, shards: int): Request {
    base.(gpus := shards, available := ShardVRAM(h.vramPerGpuGb, shards))
  }

  /** A host whose usable memory, over the cards the engine uses, covers the need. */
  predicate MemoryFits(base: Request, h: Host, tensorParallel: bool) {
    var shards := ShardsOf(base.facts, h.gpus, tensorParallel);
    Sizeable(base) && Need(PerOffer(base, shards), Asked(base)) <= ShardVRAM(h.vramPerGpuGb, shards)
  }

  /** Whether the survey's filter accepts a host on memory. */
  method Fits(base: Request, h: Host, tensorParallel: bool) returns (yes: bool, shards: int)
    ensures IsShards(base.facts, h.gpus, tensorParallel, shards)
    ensures yes <==> MemoryFits(base, h, tensorParallel)
  {
    hide Need, Weights, Kv, ShardVRAM;
    shards := Shards(base.facts, h.gpus, tensorParallel);
    var need := MakePlan(PerOffer(base, shards));
    yes := need.Ok? && ShardVRAM(h.vramPerGpuGb, shards) >= need.plan.required;
  }

  /** Every host the filter accepts is launched with a plan that fits, at the
      context asked for, asking for enough of the advertised memory. */
  lemma SelectionAndLaunchAgree(base: Request, h: Host, shards: int, p: Plan)
    requires shards >= 1 && Sizeable(base)
    requires Need(PerOffer(base, shards), Asked(base)) <= ShardVRAM(h.vramPerGpuGb, shards)
    requires IsPlan(Placed(base, h, shards), p)
    ensures p.fits && p.context == Asked(base) && p.degree == shards
    ensures ContextReduced(Asked(base), p.context) !in p.warnings
    ensures 0.10 <= p.utilisation <= 0.95
    ensures p.required as real <= p.utilisation * Advertised(h.vramPerGpuGb, shards) as real
  {
    hide Need, Kv, Weights, UsableVRAM, LongestThatFits, NoHalvingFits, IsPlan;
    var r := Placed(base, h, shards);
    NeedIgnoresTarget(base, r.available, shards, Asked(base));
    PlanAsAsked(r, p);
    if r.available > 0 && p.required > 0 { ShareCovers(p.required, Advertised(h.vramPerGpuGb, shards), r.available); }
    else { NothingToCover(p.utilisation, Advertised(h.vramPerGpuGb, shards)); }
  }

  lemma NothingToCover(share: real, total: nat)
    requires share >= 0.0
    ensures 0.0 <= share * total as real
  {}

  /** Sizes the launch on the host chosen; one the filter accepts gets a plan that
      fits, at the context asked for, within the memory advertised. */
  method Place(base: Request, h: Host, tensorParallel: bool) returns (out: Result)
    ensures out.Ok? <==> Sizeable(base)
    ensures out.Ok? ==> out.plan.degree == ShardsOf(base.facts, h.gpus, tensorParallel)
    ensures MemoryFits(base, h, tensorParallel) ==> out.Ok? && Launches(base, h, out.plan)
  {
    hide Need, Weights, Kv, ShardVRAM, IsPlan, ShardsOf;
    var shards := Shards(base.facts, h.gpus, tensorParallel);
    out := MakePlan(Placed(base, h, shards));
    if out.Ok? { DegreeOfPlan(Placed(base, h, shards), out.plan); }
    if MemoryFits(base, h, tensorParallel) { SelectionAndLaunchAgree(base, h, shards, out.plan); }
  }

  lemma DegreeOfPlan(r: Request, p: Plan)
    requires IsPlan(r, p)
    ensures p.degree == OrDefault(r.gpus, 1)
  {}

  /** A plan to launch with: it fits as asked, in the memory advertised. */
  predicate Launches(base: Request, h: Host, p: Plan) {
    && p.fits && p.context == Asked(base) && ContextReduced(Asked(base), p.context) !in p.warnings
    && 0.10 <= p.utilisation <= 0.95
    && p.degree >= 1 && p.required as real <= p.utilisation * Advertised(h.vramPerGpuGb, p.degree) as real
  }

  lemma PlanAsAsked(r: Request, p: Plan)
    requires IsPlan(r, p) && Need(r, Asked(r)) <= r.available
    ensures p.fits && p.context == Asked(r) && p.required == Need(r, Asked(r)) && p.degree == OrDefault(r.gpus, 1)
    ensures p.utilisation == if r.available == 0 then 0.90
                             else Within(p.required as real / r.available as real, MIN_UTILISATION, MAX_UTILISATION)
    ensures ContextReduced(Asked(r), p.context) !in p.warnings
  {
    hide Need, Kv, Weights, LongestThatFits, NoHalvingFits;
  }

  lemma NeedIgnoresTarget(base: Request, available: nat, shards: int, context: nat)
    requires Sizeable(base)
    ensures Need(base.(gpus := shards, available := available), context) == Need(PerOffer(base, shards), context)
    ensures Asked(base.(gpus := shards, available := available)) == Asked(base) == Asked(PerOffer(base, shards))
  {
    hide Padded, OverheadBytes, ActivationBytes, KvBytes, Estimate;
  }

  lemma ShareCovers(required: nat, total: nat, usable: nat)
    requires 0 < required <= usable == UsableVRAM(total)
    ensures required as real
            <= Within(required as real / usable as real, MIN_UTILISATION, MAX_UTILISATION) * total as real
  {
    var r, u, all := required as real, usable as real, total as real;
    assert u <= all * MAX_UTILISATION;
    ShareOf(r, u);
    ClampCovers(r, u, r / u, all, MIN_UTILISATION, MAX_UTILISATION);
  }

  lemma ShareOf(r: real, u: real)
    requires u > 0.0 && r > 0.0
    ensures r / u > 0.0 && r / u * u == r
  {}

  lemma ClampCovers(r: real, u: real, share: real, all: real, lo: real, hi: real)
    requires 0.0 < r <= u && share > 0.0 && share * u == r && u <= all * hi && 0.0 < lo < hi <= 1.0
    ensures r <= Within(share, lo, hi) * all
  {
    AtMostAll(all, u, hi);
    ScaleUp(share, u, all);
    if share < lo { ScaleUp(all, share, lo); }
  }

  lemma AtMostAll(all: real, u: real, hi: real)
    requires 0.0 < u <= all * hi && 0.0 < hi <= 1.0
    ensures 0.0 <= u <= all
  {
    assert all > 0.0 by { if all <= 0.0 { ScaleUp(hi, all, 0.0); } }
    ScaleUp(all, hi, 1.0);
  }

  lemma ScaleUp(a: real, b: real, c: real)
    requires 0.0 <= a && b <= c
    ensures a * b <= a * c
  {}

  // ---- what memory a request needs ----------------------------------------

  /** Weights, the cache, activations and overhead, padded: the cache holds a key
      and a value vector for each layer, KV head, position and sequence; an
      activation is four bytes a position, unit and sequence; the overhead is a
      GiB a card, or 8% of what is resident where that is more. */
  lemma NeedIs(r: Request, context: nat)
    requires Sizeable(r)
    ensures var f, n, e := r.facts, OrDefault(r.concurrency, 1), OrDefault(r.kvElem, 2);
            var kv: nat := NotBelowZero(2 * f.layers * f.kvHeads * f.headDim * context * n * e);
            var resident := Weights(r) + kv;
            var cards := if r.gpus < 1 then 1 else r.gpus;
            var overhead := if resident as real * 0.08 < (1073741824 * cards) as real then 1073741824 * cards else (resident as real * 0.08).Floor;
            var activations := ((f.hiddenSize * context * n) as real * 2.0 * 2.0).Floor;
            Need(r, context) == ((resident + activations + overhead) as real * (if r.safety <= 0.0 then 1.10 else r.safety)).Floor
  {
    hide Weights, Kv, KvBytes, ActivationBytes, OverheadBytes, Padded;
    CacheIs(r, context);
    ActivationsAre(r.facts, context, OrDefault(r.concurrency, 1));
    OverheadIs(Weights(r), Kv(r, context), r.gpus);
    PaddedIs(Weights(r) + Kv(r, context) + ActivationBytes(r.facts, context, OrDefault(r.concurrency, 1))
             + OverheadBytes(Weights(r), Kv(r, context), r.gpus), Safety(r));
  }

  lemma ActivationsAre(f: Facts, context: nat, n: nat)
    requires Known(f)
    ensures ActivationBytes(f, context, n) == ((f.hiddenSize * context * n) as real * 2.0 * 2.0).Floor
  {}

  lemma OverheadIs(weights: nat, kv: nat, gpus: int)
    ensures var resident, cards := weights + kv, if gpus < 1 then 1 else gpus;
            OverheadBytes(weights, kv, gpus)
            == if resident as real * 0.08 < (1073741824 * cards) as real then 1073741824 * cards else (resident as real * 0.08).Floor
  {}

  lemma PaddedIs(bytes: nat, safety: real)
    requires safety > 0.0
    ensures Padded(bytes, safety) == (bytes as real * safety).Floor
  {}

  function NotBelowZero(n: int): nat {
    if n < 0 then 0 else n
  }

  lemma CacheIs(r: Request, context: nat)
    requires Sizeable(r)
    ensures var f := r.facts;
            Kv(r, context) == NotBelowZero(2 * f.layers * f.kvHeads * f.headDim * context * OrDefault(r.concurrency, 1) * OrDefault(r.kvElem, 2))
  {}

  lemma Spread(a: nat, b: nat, c: nat)
    ensures Times(a + b, c) == Times(a, c) + Times(b, c) && Times(c, a + b) == Times(c, a) + Times(c, b)
  {}

  /** Two vectors of the head's dimension for every other factor. */
  function Vectors(headDim: nat, elem: nat): nat {
    2 * headDim * elem
  }

  /** A position more caches two vectors for each layer, head and sequence; nothing
      is cached of none. */
  lemma EachPositionCaches(r: Request, context: nat)
    requires Sizeable(r)
    ensures Kv(r, 0) == 0
    ensures Kv(r, context + 1) == Kv(r, context)
            + Times(Times(Times(r.facts.layers, r.facts.kvHeads), OrDefault(r.concurrency, 1)), Vectors(r.facts.headDim, OrDefault(r.kvElem, 2)))
  {
    var f, n, e := r.facts, OrDefault(r.concurrency, 1), OrDefault(r.kvElem, 2);
    var x := Times(Times(Times(2, f.layers), f.kvHeads), f.headDim);
    Spread(context, 1, x);
    Spread(Times(x, context), x, n);
    Spread(Times(Times(x, context), n), Times(x, n), e);
    Regroup(f.layers, f.kvHeads, f.headDim, n, e);
  }

  lemma Regroup(l: nat, k: nat, h: nat, n: nat, e: nat)
    ensures Times(Times(Times(Times(Times(2, l), k), h), n), e) == Times(Times(Times(l, k), n), Vectors(h, e))
  {
    var lk := Times(l, k);
    assert 2 * l * k == 2 * lk;
    assert 2 * lk * h * n * e == (lk * n) * (2 * h * e) by { Shuffle(lk, h, n, e); }
  }

  lemma Shuffle(a: nat, h: nat, n: nat, e: nat)
    ensures 2 * a * h * n * e == (a * n) * (2 * h * e)
  {
    assert 2 * a * h * n == 2 * h * (a * n);
    assert 2 * h * (a * n) * e == (2 * h * e) * (a * n);
  }

  /** Every other factor counts as a position does: twice the layers, KV heads or
      sequences cache as much as twice the context. */
  lemma EveryFactorCounts(r: Request, context: nat)
    requires Sizeable(r) && r.concurrency > 0
    ensures Kv(r.(facts := r.facts.(layers := 2 * r.facts.layers)), context) == Kv(r, 2 * context)
    ensures Kv(r.(facts := r.facts.(kvHeads := 2 * r.facts.kvHeads)), context) == Kv(r, 2 * context)
    ensures Kv(r.(facts := r.facts.(headDim := 2 * r.facts.headDim)), context) == Kv(r, 2 * context)
    ensures Kv(r.(concurrency := 2 * r.concurrency), context) == Kv(r, 2 * context)
    ensures Kv(r.(kvElem := 2 * OrDefault(r.kvElem, 2)), context) == Kv(r, 2 * context)
  {
    var f, n, e := r.facts, OrDefault(r.concurrency, 1), OrDefault(r.kvElem, 2);
    Doubles(f.layers, f.kvHeads, f.headDim, context, n, e);
  }

  function Product(l: nat, k: nat, h: nat, c: nat, n: nat, e: nat): nat {
    Times(Times(Times(Times(Times(Times(2, l), k), h), c), n), e)
  }

  lemma Doubles(l: nat, k: nat, h: nat, c: nat, n: nat, e: nat)
    ensures Product(2 * l, k, h, c, n, e) == 2 * Product(l, k, h, c, n, e)
    ensures Product(l, 2 * k, h, c, n, e) == 2 * Product(l, k, h, c, n, e)
    ensures Product(l, k, 2 * h, c, n, e) == 2 * Product(l, k, h, c, n, e)
    ensures Product(l, k, h, 2 * c, n, e) == 2 * Product(l, k, h, c, n, e)
    ensures Product(l, k, h, c, 2 * n, e) == 2 * Product(l, k, h, c, n, e)
    ensures Product(l, k, h, c, n, 2 * e) == 2 * Product(l, k, h, c, n, e)
  {
    var a1 := Times(2, l);
    var a2 := Times(a1, k);
    var a3 := Times(a2, h);
    var a4 := Times(a3, c);
    var a5 := Times(a4, n);
    Twice(2, l);
    Twice(a1, k);
    Twice(a2, h);
    Twice(a3, c);
    Twice(a4, n);
    Twice(a5, e);
    hide Times;
  }

  lemma Twice(a: nat, b: nat)
    ensures Times(2 * a, b) == 2 * Times(a, b) && Times(a, 2 * b) == 2 * Times(a, b)
  {}

  /** An 8-billion model of 16 GB in 4096 positions takes 19.7 GB, where its 537 MB
      of cache are two vectors of 128 two-byte elements for each of 32 layers, 8
      heads and 4096 positions. */
  lemma EightBillionNeeds(r: Request)
    requires r.facts == Facts(32, 8, 128, 4096, 32, 8192, 8.03)
    requires r.context == 0 && r.weightBytes == 16000000000 && r.concurrency == 0 && r.safety == 0.0 && r.kvElem == 0 && r.gpus == 1
    ensures Sizeable(r) && Asked(r) == 4096 && Kv(r, 4096) == 536870912 && Need(r, 4096) == 19719622392
  {
    NeedIs(r, 4096);
    CacheIs(r, 4096);
  }

  /** And weights not measured are estimated: 8 billion at 4.5 bits are 4.5 GB. */
  lemma WeightsEstimated(r: Request)
    requires Sizeable(r) && r.weightBytes == 0 && r.facts.params == 8.0 && r.bits == Some(4.5)
    ensures Weights(r) == 4500000000
  {}

  /** 95% of a card is usable; a host advertises whole GiB a card, over the cards the
      engine uses. */
  lemma UsableIs(total: nat, vramPerGpuGb: nat, shards: nat)
    ensures UsableVRAM(total) as real <= 0.95 * total as real < UsableVRAM(total) as real + 1.0
    ensures shards > 0 ==> Advertised(vramPerGpuGb, shards) == vramPerGpuGb * shards * 1073741824
  {}

  /** 28 heads with 4 KV heads split four ways on eight cards, not seven; 64 with 8
      split sixteen ways, each KV head on two cards; with heads unknown six cards
      hold four; and an engine that does not split heads uses all six. */
  lemma HeadsDecide(f: Facts)
    ensures f.attentionHeads == 28 && f.kvHeads == 4 ==> IsShards(f, 8, true, 4)
    ensures f.attentionHeads == 64 && f.kvHeads == 8 ==> IsShards(f, 16, true, 16)
    ensures f.attentionHeads <= 0 ==> IsShards(f, 6, true, 4)
    ensures IsShards(f, 6, false, 6)
  {
    assert Pow2(2) == 4 by { assert Pow2(1) == 2; }
    if f.attentionHeads <= 0 {
      forall n | 4 < n <= 6 ensures !Degree(f, n) { NoPowerBetween(4, n); }
    }
  }
}
