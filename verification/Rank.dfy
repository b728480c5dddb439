/** Which offer to rent: hard filters, then the cheapest to a working endpoint. */
module Rank {
  import opened Wrappers
  import opened Order

  datatype Verification = Verified | Deverified | Other

  datatype Offer = Offer(
    id: string, provider: string, machine: string, gpuModel: string, price: real, reliability: real, netMbps: real,
    gpus: int, vramPerGpuGb: nat, interruptible: bool, certified: bool, verification: Verification)

  datatype Tristate = Forbid | Allow | Require

  datatype Criteria = Criteria(
    interruptible: Tristate, maxPrice: real, minGpus: int, maxGpus: int, vramPerGpuGb: int,
    vramTotalGb: int, certifiedOnly: bool, allowDeverified: bool)

  datatype Policy = Policy(
    reliabilityFloor: real, outlierFactor: real, minClassSample: int, coldStartBytes: nat, sessionHours: real)

  datatype Reason =
    | Eligible | Costlier | VRAM | Engine | Network | Reliability | PriceOutlier | NotVerified
    | Interruptible | MaxPrice | Hardware

  // ---- sorting -----------------------------------------------------------

  predicate Ascending(s: seq<real>) {
    forall i, j :: 0 <= i < j < |s| ==> s[i] <= s[j]
  }

  function Place(x: real, s: seq<real>): seq<real> {
    if s == [] || x <= s[0] then [x] + s else [s[0]] + Place(x, s[1..])
  }

  function Sorted(s: seq<real>): seq<real> {
    if s == [] then [] else Place(s[0], Sorted(s[1..]))
  }

  lemma {:induction false} PlaceIs(x: real, s: seq<real>)
    requires Ascending(s)
    ensures Ascending(Place(x, s)) && multiset(Place(x, s)) == multiset(s) + multiset{x}
    ensures Place(x, s)[0] == if s == [] || x <= s[0] then x else s[0]
  {
    hide Ascending;
    if s == [] || x <= s[0] {
      AscendingCons(x, s);
    } else {
      AscendingTail(s);
      PlaceIs(x, s[1..]);
      AscendingHead(s);
      AscendingCons(s[0], Place(x, s[1..]));
      HeadAndTail(s);
    }
  }

  lemma AscendingCons(x: real, s: seq<real>)
    requires Ascending(s) && (s != [] ==> x <= s[0])
    ensures Ascending([x] + s)
  {}

  lemma AscendingHead(s: seq<real>)
    requires Ascending(s)
    ensures |s| > 1 ==> s[0] <= s[1]
  {}

  lemma HeadAndTail<T>(s: seq<T>)
    requires s != []
    ensures s == [s[0]] + s[1..] && multiset(s) == multiset{s[0]} + multiset(s[1..])
  {
    assert s == [s[0]] + s[1..];
  }

  lemma {:induction false} SortedIs(s: seq<real>)
    ensures Ascending(Sorted(s)) && multiset(Sorted(s)) == multiset(s) && |Sorted(s)| == |s|
  {
    if s != [] {
      SortedIs(s[1..]);
      PlaceIs(s[0], Sorted(s[1..]));
      assert s == [s[0]] + s[1..];
      assert |Sorted(s)| == |multiset(Sorted(s))|;
    }
  }

  ghost function IndexIn<T(!new)>(s: seq<T>, x: T): (k: nat)
    requires x in multiset(s)
    ensures k < |s| && s[k] == x
  {
    var k :| 0 <= k < |s| && s[k] == x; k
  }

  function Without<T>(s: seq<T>, k: nat): seq<T>
    requires k < |s|
  {
    s[..k] + s[k + 1..]
  }

  lemma WithoutIs<T>(s: seq<T>, k: nat)
    requires k < |s|
    ensures multiset(Without(s, k)) == multiset(s) - multiset{s[k]}
  {
    assert s == s[..k] + [s[k]] + s[k + 1..];
  }

  lemma {:induction false} AscendingIsUnique(s: seq<real>, t: seq<real>)
    requires Ascending(s) && Ascending(t) && multiset(s) == multiset(t)
    ensures s == t
  {
    hide Ascending;
    SameLength(s, t);
    if s != [] {
      SameLeast(s, t);
      AscendingTail(s);
      AscendingTail(t);
      SameTails(s, t);
      AscendingIsUnique(s[1..], t[1..]);
      HeadAndTail(s);
      HeadAndTail(t);
    }
  }

  lemma SameTails(s: seq<real>, t: seq<real>)
    requires s != [] && t != [] && s[0] == t[0] && multiset(s) == multiset(t)
    ensures multiset(s[1..]) == multiset(t[1..])
  {
    hide Ascending;
    HeadAndTail(s);
    HeadAndTail(t);
    assert multiset(s[1..]) == multiset(s) - multiset{s[0]};
    assert multiset(t[1..]) == multiset(t) - multiset{t[0]};
  }

  lemma SameLength<T>(s: seq<T>, t: seq<T>)
    requires multiset(s) == multiset(t)
    ensures |s| == |t|
  {
    assert |s| == |multiset(s)| == |multiset(t)| == |t|;
  }

  lemma AscendingTail(s: seq<real>)
    requires Ascending(s) && s != []
    ensures Ascending(s[1..])
  {}

  lemma SameLeast(s: seq<real>, t: seq<real>)
    requires Ascending(s) && Ascending(t) && multiset(s) == multiset(t) && s != [] && t != []
    ensures s[0] == t[0]
  {
    assert s[0] in multiset(t) && t[0] in multiset(s);
    var j, i := IndexIn(t, s[0]), IndexIn(s, t[0]);
    assert s[0] <= s[i] && t[0] <= t[j];
  }

  // ---- medians -----------------------------------------------------------

  /** The values some offers of a market contribute, in listing order. */
  function Collect(offers: seq<Offer>, f: Offer -> Option<real>): seq<real> {
    if offers == [] then []
    else
      var front := Collect(offers[..|offers| - 1], f);
      match f(offers[|offers| - 1])
      case Some(v) => front + [v]
      case None => front
  }

  function ClassPrice(model: string): Offer -> Option<real> {
    (o: Offer) => if o.price > 0.0 && o.gpuModel == model then Some(o.price) else None
  }

  function LinkSpeed(o: Offer): Option<real> {
    if o.netMbps > 0.0 then Some(o.netMbps) else None
  }

  function Median(sorted: seq<real>): real {
    var n := |sorted|;
    if n == 0 then 0.0
    else if n % 2 == 1 then sorted[n / 2]
    else (sorted[n / 2 - 1] + sorted[n / 2]) / 2.0
  }

  function AtLeastOne(n: int): int {
    if n <= 0 then 1 else n
  }

  /** The median price of a GPU class listed often enough to have one. */
  function ClassMedian(offers: seq<Offer>, model: string, minSample: int): Option<real> {
    var prices := Collect(offers, ClassPrice(model));
    if |prices| < AtLeastOne(minSample) then None else Some(Median(Sorted(prices)))
  }

  function MedianMbps(offers: seq<Offer>): real {
    var speeds := Collect(offers, LinkSpeed);
    if speeds == [] then 0.0 else (SortedIs(speeds); Sorted(speeds)[|speeds| / 2])
  }

  /** As many of the values lie below the median as above it. */
  lemma MedianSplits(s: seq<real>)
    requires Ascending(s) && s != []
    ensures forall i :: 0 <= i <= (|s| - 1) / 2 ==> s[i] <= Median(s)
    ensures forall i :: |s| / 2 <= i < |s| ==> Median(s) <= s[i]
    ensures |s| % 2 == 1 ==> Median(s) in s
    ensures |s| % 2 == 0 ==> Median(s) - s[|s| / 2 - 1] == s[|s| / 2] - Median(s)
  {}

  /** The prices of a class are those its offers name, and it has a median once
      enough do: one of them, where no number is set. */
  lemma ClassMedianIs(offers: seq<Offer>, model: string, minSample: int)
    ensures var prices := Collect(offers, ClassPrice(model));
            && (forall v :: v in prices <==> v > 0.0 && exists o :: o in offers && o.gpuModel == model && o.price == v)
            && (ClassMedian(offers, model, minSample).Some? <==> |prices| >= minSample && prices != [])
            && (ClassMedian(offers, model, minSample).Some? ==>
                  exists s :: Ascending(s) && multiset(s) == multiset(prices) && ClassMedian(offers, model, minSample).value == Median(s))
  {
    var f, prices := ClassPrice(model), Collect(offers, ClassPrice(model));
    SortedIs(prices);
    forall v ensures v in prices <==> v > 0.0 && exists o :: o in offers && o.gpuModel == model && o.price == v {
      if v in prices { Collected(offers, f, v); }
      if o :| o in offers && o.gpuModel == model && o.price == v && v > 0.0 { CollectsAll(offers, f, o); }
    }
  }

  /** The market's link is the upper median of those its offers publish. */
  lemma MedianMbpsIs(offers: seq<Offer>)
    ensures var speeds := Collect(offers, LinkSpeed);
            && (forall v :: v in speeds <==> v > 0.0 && exists o :: o in offers && o.netMbps == v)
            && (speeds == [] ==> MedianMbps(offers) == 0.0)
            && (speeds != [] ==> MedianMbps(offers) in speeds
                                 && exists s :: Ascending(s) && multiset(s) == multiset(speeds) && s[|s| / 2] == MedianMbps(offers))
  {
    var speeds := Collect(offers, LinkSpeed);
    SortedIs(speeds);
    forall v ensures v in speeds <==> v > 0.0 && exists o :: o in offers && o.netMbps == v {
      if v in speeds { Collected(offers, LinkSpeed, v); }
      if o :| o in offers && o.netMbps == v && v > 0.0 { CollectsAll(offers, LinkSpeed, o); }
    }
    if speeds != [] {
      assert Sorted(speeds)[|speeds| / 2] in multiset(speeds);
    }
  }

  method ClassMedians(offers: seq<Offer>, minSample: int) returns (out: map<string, real>)
    ensures forall m :: m in out <==> ClassMedian(offers, m, minSample).Some?
    ensures forall m :: m in out ==> out[m] == ClassMedian(offers, m, minSample).value
  {
    var byClass: map<string, seq<real>> := map[];
    for i := 0 to |offers|
      invariant forall m :: m in byClass <==> Collect(offers[..i], ClassPrice(m)) != []
      invariant forall m :: m in byClass ==> byClass[m] == Collect(offers[..i], ClassPrice(m))
    {
      var o := offers[i];
      assert offers[..i + 1][..i] == offers[..i];
      if o.price > 0.0 {
        byClass := byClass[o.gpuModel := (if o.gpuModel in byClass then byClass[o.gpuModel] else []) + [o.price]];
      }
    }
    assert offers[..|offers|] == offers;
    out := map m | m in byClass && |byClass[m]| >= AtLeastOne(minSample) :: Median(Sorted(byClass[m]));
  }

  lemma {:induction false} CollectConcat(a: seq<Offer>, b: seq<Offer>, f: Offer -> Option<real>)
    ensures Collect(a + b, f) == Collect(a, f) + Collect(b, f)
  {
    if b == [] {
      assert a + b == a;
    } else {
      assert (a + b)[..|a + b| - 1] == a + b[..|b| - 1];
      CollectConcat(a, b[..|b| - 1], f);
    }
  }

  /** What a market contributes does not depend on its listing order. */
  lemma {:induction false} CollectPermutes(a: seq<Offer>, b: seq<Offer>, f: Offer -> Option<real>)
    requires multiset(a) == multiset(b)
    ensures multiset(Collect(a, f)) == multiset(Collect(b, f))
  {
    if a == [] {
      assert |multiset(b)| == 0;
    } else {
      hide Collect;
      var n := |a| - 1;
      assert a[n] in multiset(a);
      var k := IndexIn(b, a[n]);
      WithoutIs(a, n);
      WithoutIs(b, k);
      CollectPermutes(Without(a, n), Without(b, k), f);
      CollectWithout(a, n, f);
      CollectWithout(b, k, f);
    }
  }

  lemma CollectWithout(s: seq<Offer>, k: nat, f: Offer -> Option<real>)
    requires k < |s|
    ensures multiset(Collect(s, f)) == multiset(Collect(Without(s, k), f)) + multiset(Collect([s[k]], f))
  {
    hide Collect;
    CollectConcat(s[..k], [s[k]] + s[k + 1..], f);
    CollectConcat([s[k]], s[k + 1..], f);
    CollectConcat(s[..k], s[k + 1..], f);
    assert s == s[..k] + ([s[k]] + s[k + 1..]);
  }

  lemma SortedCollectPermutes(a: seq<Offer>, b: seq<Offer>, f: Offer -> Option<real>)
    requires multiset(a) == multiset(b)
    ensures Sorted(Collect(a, f)) == Sorted(Collect(b, f)) && |Collect(a, f)| == |Collect(b, f)|
  {
    CollectPermutes(a, b, f);
    SortedIs(Collect(a, f));
    SortedIs(Collect(b, f));
    AscendingIsUnique(Sorted(Collect(a, f)), Sorted(Collect(b, f)));
  }

  lemma MediansPermute(a: seq<Offer>, b: seq<Offer>, minSample: int)
    requires multiset(a) == multiset(b)
    ensures forall m :: ClassMedian(a, m, minSample) == ClassMedian(b, m, minSample)
    ensures MedianMbps(a) == MedianMbps(b)
  {
    forall m ensures ClassMedian(a, m, minSample) == ClassMedian(b, m, minSample) {
      SortedCollectPermutes(a, b, ClassPrice(m));
    }
    SortedCollectPermutes(a, b, LinkSpeed);
  }

  // ---- verdicts ----------------------------------------------------------

  predicate Permits(t: Tristate, has: bool) {
    match t
    case Require => has
    case Allow => true
    case Forbid => !has
  }

  /** An offer priced far enough under its class to look like bait. */
  predicate Outlier(o: Offer, p: Policy, median: Option<real>) {
    median.Some? && p.outlierFactor > 1.0 && o.price > 0.0 && o.price * p.outlierFactor < median.value
  }

  function Classify(o: Offer, c: Criteria, fits: Offer -> Reason, p: Policy, median: Option<real>): Reason {
    if !Permits(c.interruptible, o.interruptible) then Interruptible
    else if c.maxPrice > 0.0 && o.price > c.maxPrice then MaxPrice
    else if c.minGpus > 0 && o.gpus < c.minGpus then Hardware
    else if c.maxGpus > 0 && o.gpus > c.maxGpus then Hardware
    else if c.vramPerGpuGb > 0 && o.vramPerGpuGb < c.vramPerGpuGb then Hardware
    else if c.vramTotalGb > 0 && o.vramPerGpuGb * o.gpus < c.vramTotalGb then Hardware
    else if fits(o) != Eligible then fits(o)
    else if c.certifiedOnly && !o.certified && !o.verification.Verified? then NotVerified
    else if !c.allowDeverified && o.verification.Deverified? then NotVerified
    else if p.reliabilityFloor > 0.0 && o.reliability > 0.0 && o.reliability < p.reliabilityFloor then Reliability
    else if Outlier(o, p, median) then PriceOutlier
    else Eligible
  }

  function Verdict(offers: seq<Offer>, o: Offer, c: Criteria, fits: Offer -> Reason, p: Policy): Reason {
    Classify(o, c, fits, p, ClassMedian(offers, o.gpuModel, p.minClassSample))
  }

  /** An offer is eligible exactly when it passes every filter. */
  lemma EligibleIff(offers: seq<Offer>, o: Offer, c: Criteria, fits: Offer -> Reason, p: Policy)
    ensures Verdict(offers, o, c, fits, p) == Eligible <==>
              && (c.interruptible == Require ==> o.interruptible) && (c.interruptible == Forbid ==> !o.interruptible)
              && (c.maxPrice > 0.0 ==> o.price <= c.maxPrice)
              && (c.minGpus > 0 ==> o.gpus >= c.minGpus) && (c.maxGpus > 0 ==> o.gpus <= c.maxGpus)
              && (c.vramPerGpuGb > 0 ==> o.vramPerGpuGb >= c.vramPerGpuGb)
              && (c.vramTotalGb > 0 ==> o.vramPerGpuGb * o.gpus >= c.vramTotalGb)
              && fits(o) == Eligible
              && (c.certifiedOnly ==> o.certified || o.verification == Verified)
              && (!c.allowDeverified ==> o.verification != Deverified)
              && (p.reliabilityFloor > 0.0 && o.reliability > 0.0 ==> o.reliability >= p.reliabilityFloor)
              && (var m := ClassMedian(offers, o.gpuModel, p.minClassSample);
                  m.Some? && p.outlierFactor > 1.0 && o.price > 0.0 ==> o.price * p.outlierFactor >= m.value)
  {
    hide ClassMedian;
  }

  /** And the reason given for one that is not does hold of it. */
  lemma ReasonHolds(offers: seq<Offer>, o: Offer, c: Criteria, fits: Offer -> Reason, p: Policy)
    requires fits(o) == Eligible
    ensures match Verdict(offers, o, c, fits, p)
            case Interruptible => c.interruptible == if o.interruptible then Forbid else Require
            case MaxPrice => 0.0 < c.maxPrice < o.price
            case Hardware => (c.minGpus > 0 && o.gpus < c.minGpus) || 0 < c.maxGpus < o.gpus || o.vramPerGpuGb < c.vramPerGpuGb
                             || (c.vramTotalGb > 0 && o.vramPerGpuGb * o.gpus < c.vramTotalGb)
            case NotVerified => !o.verification.Verified?
            case Reliability => 0.0 < o.reliability < p.reliabilityFloor
            case PriceOutlier => var m := ClassMedian(offers, o.gpuModel, p.minClassSample); m.Some? && o.price * p.outlierFactor < m.value
            case other => other == Eligible
  {
    hide ClassMedian;
  }

  // ---- what an offer costs to a working endpoint -------------------------

  function ColdStartHours(o: Offer, bytes: nat, medianMbps: real): real {
    var mbps := if o.netMbps <= 0.0 then medianMbps else o.netMbps;
    if bytes == 0 || mbps <= 0.0 then 0.0
    else bytes as real * 8.0 / (mbps * 1000000.0) / 3600.0
  }

  function SessionCost(o: Offer, p: Policy, medianMbps: real): real {
    (ColdStartHours(o, p.coldStartBytes, medianMbps) + (if p.sessionHours <= 0.0 then 1.0 else p.sessionHours)) * o.price
  }

  /** The order offers are taken in: session cost, then price, then reliability
      the other way, then identifier. */
  predicate Before(a: Offer, b: Offer, p: Policy, mbps: real) {
    var ca, cb := SessionCost(a, p, mbps), SessionCost(b, p, mbps);
    if ca != cb then ca < cb
    else if a.price != b.price then a.price < b.price
    else if a.reliability != b.reliability then a.reliability > b.reliability
    else Less(a.id, b.id)
  }

  lemma BeforeIsTotal(a: Offer, b: Offer, p: Policy, mbps: real)
    ensures a.id != b.id ==> Before(a, b, p, mbps) || Before(b, a, p, mbps)
    ensures !(Before(a, b, p, mbps) && Before(b, a, p, mbps))
  {
    hide SessionCost, Less;
    LessIsTotal(a.id, b.id);
  }

  lemma BeforeIsTransitive(a: Offer, b: Offer, c: Offer, p: Policy, mbps: real)
    requires !Before(b, a, p, mbps) && !Before(c, b, p, mbps)
    ensures !Before(c, a, p, mbps)
  {
    hide SessionCost, Less;
    LessIsTotal(a.id, b.id);
    LessIsTotal(b.id, c.id);
    LessIsTotal(a.id, c.id);
    if Less(a.id, b.id) && Less(b.id, c.id) { LessIsTransitive(a.id, b.id, c.id); }
  }

  /** Costs no more over the session; at the same cost is priced no higher, then no
      less reliable, and then does not come later by identifier. */
  predicate NoWorse(o: Offer, x: Offer, p: Policy, mbps: real) {
    var co, cx := SessionCost(o, p, mbps), SessionCost(x, p, mbps);
    && co <= cx
    && (co == cx ==> o.price <= x.price)
    && (co == cx && o.price == x.price ==> o.reliability >= x.reliability)
    && (co == cx && o.price == x.price && o.reliability == x.reliability ==> !Less(x.id, o.id))
  }

  lemma NotBeforeIs(o: Offer, x: Offer, p: Policy, mbps: real)
    ensures !Before(x, o, p, mbps) <==> NoWorse(o, x, p, mbps)
  {
    hide SessionCost, Less;
  }

  lemma InOrderIs(cands: seq<Candidate>, p: Policy, mbps: real)
    requires InOrder(cands, p, mbps)
    ensures forall i, j :: 0 <= i < j < |cands| ==> NoWorse(cands[i].offer, cands[j].offer, p, mbps)
  {
    hide Before, NoWorse;
    forall i, j | 0 <= i < j < |cands| ensures NoWorse(cands[i].offer, cands[j].offer, p, mbps) {
      NotBeforeIs(cands[i].offer, cands[j].offer, p, mbps);
    }
  }

  // ---- what a session costs -----------------------------------------------

  /** With nothing to fetch an offer costs its price for the hours of the session,
      an hour where no length is set. */
  lemma SessionWithoutDownload(o: Offer, p: Policy, mbps: real)
    requires p.coldStartBytes == 0
    ensures p.sessionHours > 0.0 ==> SessionCost(o, p, mbps) == p.sessionHours * o.price
    ensures p.sessionHours <= 0.0 ==> SessionCost(o, p, mbps) == o.price
  {}

  /** One Mbit/s fetches 450,000,000 bytes in an hour, and the hours of the download
      are paid like those of the session. */
  lemma SessionWithDownload(o: Offer, p: Policy, mbps: real, hours: real)
    requires o.netMbps > 0.0 && p.sessionHours > 0.0
    requires p.coldStartBytes as real == hours * o.netMbps * 450000000.0
    ensures SessionCost(o, p, mbps) == (hours + p.sessionHours) * o.price
  {
    DownloadTakes(p.coldStartBytes, o.netMbps, hours);
  }

  lemma DownloadTakes(bytes: nat, mbps: real, hours: real)
    requires mbps > 0.0 && bytes as real == hours * mbps * 450000000.0
    ensures bytes as real * 8.0 / (mbps * 1000000.0) / 3600.0 == hours
  {
    var bits, rate := bytes as real * 8.0, mbps * 1000000.0;
    assert bits == (hours * 3600.0) * rate;
    assert bits / rate == hours * 3600.0;
  }

  /** An offer that publishes no link is taken to have the market's median one, and
      to fetch in no time where no offer publishes any. */
  lemma UnknownLinkIsTheMedian(o: Offer, p: Policy, mbps: real)
    requires o.netMbps <= 0.0
    ensures mbps > 0.0 ==> SessionCost(o, p, mbps) == SessionCost(o.(netMbps := mbps), p, mbps)
    ensures mbps <= 0.0 ==> SessionCost(o, p, mbps) == SessionCost(o, p.(coldStartBytes := 0), mbps)
  {}

  /** A dearer offer, more to fetch, or a slower link never costs less. */
  lemma SessionGrows(a: Offer, b: Offer, p: Policy, q: Policy, mbps: real)
    requires 0.0 <= a.price <= b.price && a.netMbps >= b.netMbps > 0.0
    requires p.coldStartBytes <= q.coldStartBytes && 0.0 < p.sessionHours <= q.sessionHours
    ensures SessionCost(a, p, mbps) <= SessionCost(b, q, mbps)
  {
    var ta := p.coldStartBytes as real / (a.netMbps * 450000000.0);
    var tb := q.coldStartBytes as real / (b.netMbps * 450000000.0);
    FasterIsSooner(p.coldStartBytes as real, q.coldStartBytes as real, a.netMbps * 450000000.0, b.netMbps * 450000000.0);
    SessionWithDownload(a, p, mbps, ta);
    SessionWithDownload(b, q, mbps, tb);
    ProductsGrow(ta + p.sessionHours, tb + q.sessionHours, a.price, b.price);
  }

  lemma FasterIsSooner(x: real, y: real, fast: real, slow: real)
    requires 0.0 <= x <= y && fast >= slow > 0.0
    ensures 0.0 <= x / fast <= y / slow
    ensures x == (x / fast) * fast && y == (y / slow) * slow
  {
    assert y / slow * fast >= y / slow * slow;
  }

  lemma ProductsGrow(a: real, b: real, x: real, y: real)
    requires 0.0 <= a <= b && 0.0 <= x <= y
    ensures a * x <= b * y
  {}

  // ---- selection ---------------------------------------------------------

  datatype Candidate = Candidate(offer: Offer, reason: Reason)

  datatype Result = Result(selected: Option<nat>, candidates: seq<Candidate>)

  function Offers(cands: seq<Candidate>): seq<Offer> {
    seq(|cands|, i requires 0 <= i < |cands| => cands[i].offer)
  }

  predicate InOrder(cands: seq<Candidate>, p: Policy, mbps: real) {
    forall i, j :: 0 <= i < j < |cands| ==> !Before(cands[j].offer, cands[i].offer, p, mbps)
  }

  // ---- ties ---------------------------------------------------------------

  predicate Tied(a: Offer, b: Offer, p: Policy, mbps: real) {
    !Before(a, b, p, mbps) && !Before(b, a, p, mbps)
  }

  /** The offers that tie with one, in listing order. */
  function TiedWith(offers: seq<Offer>, o: Offer, p: Policy, mbps: real): seq<Offer> {
    if offers == [] then []
    else
      TiedWith(offers[..|offers| - 1], o, p, mbps)
      + (if Tied(offers[|offers| - 1], o, p, mbps) then [offers[|offers| - 1]] else [])
  }

  /** Two listings that have the same offers tie in the same order. */
  ghost predicate SameTies(a: seq<Offer>, b: seq<Offer>, p: Policy, mbps: real) {
    forall o :: TiedWith(a, o, p, mbps) == TiedWith(b, o, p, mbps)
  }

  lemma TiesAreTransitive(a: Offer, b: Offer, c: Offer, p: Policy, mbps: real)
    requires Tied(a, c, p, mbps) && Tied(b, c, p, mbps)
    ensures Tied(a, b, p, mbps)
  {
    hide SessionCost, Less;
    LessIsTotal(a.id, c.id);
    LessIsTotal(b.id, c.id);
    LessIsTotal(a.id, a.id);
  }

  lemma TiedSnoc(a: seq<Offer>, x: Offer, o: Offer, p: Policy, mbps: real)
    ensures TiedWith(a + [x], o, p, mbps) == TiedWith(a, o, p, mbps) + (if Tied(x, o, p, mbps) then [x] else [])
  {
    assert (a + [x])[..|a|] == a;
  }

  lemma {:induction false} TiedConcat(a: seq<Offer>, b: seq<Offer>, o: Offer, p: Policy, mbps: real)
    ensures TiedWith(a + b, o, p, mbps) == TiedWith(a, o, p, mbps) + TiedWith(b, o, p, mbps)
  {
    hide Tied;
    if b == [] {
      assert a + b == a;
    } else {
      var front, x := b[..|b| - 1], b[|b| - 1];
      assert a + b == (a + front) + [x] && b == front + [x];
      TiedSnoc(a + front, x, o, p, mbps);
      TiedSnoc(front, x, o, p, mbps);
      TiedConcat(a, front, o, p, mbps);
    }
  }

  lemma {:induction false} NoneTied(b: seq<Offer>, o: Offer, p: Policy, mbps: real)
    requires forall x :: x in b ==> !Tied(x, o, p, mbps)
    ensures TiedWith(b, o, p, mbps) == []
  {
    hide Tied;
    if b != [] { NoneTied(b[..|b| - 1], o, p, mbps); }
  }

  /** Put before offers that all come after it, one offer upsets no tie. */
  lemma InsertedKeepsTies(front: seq<Offer>, x: Offer, after: seq<Offer>, p: Policy, mbps: real)
    requires forall y :: y in after ==> Before(x, y, p, mbps)
    ensures SameTies(front + [x] + after, front + after + [x], p, mbps)
  {
    hide Before;
    forall o ensures TiedWith(front + [x] + after, o, p, mbps) == TiedWith(front + after + [x], o, p, mbps) {
      TiedConcat(front + [x], after, o, p, mbps);
      TiedSnoc(front, x, o, p, mbps);
      TiedSnoc(front + after, x, o, p, mbps);
      TiedConcat(front, after, o, p, mbps);
      if Tied(x, o, p, mbps) {
        forall y | y in after ensures !Tied(y, o, p, mbps) {
          if Tied(y, o, p, mbps) { TiesAreTransitive(x, y, o, p, mbps); }
        }
        NoneTied(after, o, p, mbps);
      }
    }
  }

  lemma SameTiesNext(a: seq<Offer>, b: seq<Offer>, x: Offer, p: Policy, mbps: real)
    requires SameTies(a, b, p, mbps)
    ensures SameTies(a + [x], b + [x], p, mbps)
  {
    hide Tied;
    forall o ensures TiedWith(a + [x], o, p, mbps) == TiedWith(b + [x], o, p, mbps) {
      TiedSnoc(a, x, o, p, mbps);
      TiedSnoc(b, x, o, p, mbps);
    }
  }

  lemma SameTiesTransitive(a: seq<Offer>, b: seq<Offer>, c: seq<Offer>, p: Policy, mbps: real)
    requires SameTies(a, b, p, mbps) && SameTies(b, c, p, mbps)
    ensures SameTies(a, c, p, mbps)
  {
    hide TiedWith;
  }

  /** Stable insertion of one candidate into those already in order. */
  method Insert(cands: seq<Candidate>, x: Candidate, p: Policy, mbps: real) returns (out: seq<Candidate>)
    requires InOrder(cands, p, mbps)
    ensures InOrder(out, p, mbps) && multiset(out) == multiset(cands) + multiset{x}
    ensures SameTies(Offers(out), Offers(cands) + [x.offer], p, mbps)
  {
    hide Before, SameTies;
    var i := |cands|;
    while i > 0 && Before(x.offer, cands[i - 1].offer, p, mbps)
      invariant 0 <= i <= |cands|
      invariant forall j :: i <= j < |cands| ==> Before(x.offer, cands[j].offer, p, mbps)
    {
      i := i - 1;
    }
    forall j | 0 <= j < i ensures !Before(x.offer, cands[j].offer, p, mbps) {
      if j < i - 1 { BeforeIsTransitive(cands[j].offer, cands[i - 1].offer, x.offer, p, mbps); }
    }
    forall j | i <= j < |cands| ensures !Before(cands[j].offer, x.offer, p, mbps) {
      BeforeIsTotal(x.offer, cands[j].offer, p, mbps);
    }
    out := cands[..i] + [x] + cands[i..];
    assert cands == cands[..i] + cands[i..];
    InsertedKeepsTies(Offers(cands[..i]), x.offer, Offers(cands[i..]), p, mbps);
    assert Offers(out) == Offers(cands[..i]) + [x.offer] + Offers(cands[i..]);
    assert Offers(cands) == Offers(cands[..i]) + Offers(cands[i..]);
  }

  /** Whether an offer is the one a market's rules select. */
  ghost predicate Chosen(offers: seq<Offer>, c: Criteria, fits: Offer -> Reason, p: Policy, o: Offer) {
    && o in offers && Verdict(offers, o, c, fits, p) == Eligible
    && forall x :: x in offers && Verdict(offers, x, c, fits, p) == Eligible ==>
         !Before(x, o, p, MedianMbps(offers))
  }

  /** The mark a considered offer ends with. */
  function Mark(verdict: Reason, selected: bool): Reason {
    if verdict == Eligible && !selected then Costlier else verdict
  }

  method Select(offers: seq<Offer>, c: Criteria, fits: Offer -> Reason, p: Policy) returns (res: Result)
    ensures multiset(Offers(res.candidates)) == multiset(offers)
    ensures InOrder(res.candidates, p, MedianMbps(offers))
    ensures SameTies(Offers(res.candidates), offers, p, MedianMbps(offers))
    ensures res.selected.Some? ==> res.selected.value < |res.candidates|
                                   && Chosen(offers, c, fits, p, res.candidates[res.selected.value].offer)
    ensures res.selected.None? ==> forall o :: o in offers ==> Verdict(offers, o, c, fits, p) != Eligible
    ensures res.selected.Some? ==> forall x :: x in offers && Verdict(offers, x, c, fits, p) == Eligible ==>
              NoWorse(res.candidates[res.selected.value].offer, x, p, MedianMbps(offers))
    ensures forall i, j :: 0 <= i < j < |res.candidates| ==>
              NoWorse(res.candidates[i].offer, res.candidates[j].offer, p, MedianMbps(offers))
    ensures forall i :: 0 <= i < |res.candidates| ==>
              res.candidates[i].reason == Mark(Verdict(offers, res.candidates[i].offer, c, fits, p), res.selected == Some(i))
  {
    hide Before, Classify, ClassMedian, MedianMbps, SameTies, NoWorse;
    var medians := ClassMedians(offers, p.minClassSample);
    var mbps := MedianMbps(offers);
    var cands: seq<Candidate> := [];
    NoTies([], p, mbps);
    assert Offers(cands) == [] && offers[..0] == [];
    for i := 0 to |offers|
      invariant InOrder(cands, p, mbps)
      invariant SameTies(Offers(cands), offers[..i], p, mbps)
      invariant multiset(Offers(cands)) == multiset(offers[..i])
      invariant forall x :: x in cands ==> x.reason == Verdict(offers, x.offer, c, fits, p)
    {
      var o := offers[i];
      var median := if o.gpuModel in medians then Some(medians[o.gpuModel]) else None;
      var reason := Classify(o, c, fits, p, median);
      ghost var before := cands;
      cands := Insert(cands, Candidate(o, reason), p, mbps);
      OffersOfInsert(before, Candidate(o, reason), cands);
      SameTiesNext(Offers(before), offers[..i], o, p, mbps);
      SameTiesTransitive(Offers(cands), Offers(before) + [o], offers[..i] + [o], p, mbps);
      assert offers[..i + 1] == offers[..i] + [o];
      forall x | x in cands ensures x.reason == Verdict(offers, x.offer, c, fits, p) {
        assert x in multiset(cands);
      }
    }
    assert offers[..|offers|] == offers;
    var s := 0;
    while s < |cands| && cands[s].reason != Eligible
      invariant 0 <= s <= |cands|
      invariant forall j :: 0 <= j < s ==> cands[j].reason != Eligible
    {
      s := s + 1;
    }
    InOrderIs(cands, p, mbps);
    if s == |cands| {
      forall o | o in offers ensures Verdict(offers, o, c, fits, p) != Eligible { FindOffer(cands, offers, o); }
      return Result(None, cands);
    }
    FirstEligibleIsChosen(offers, c, fits, p, cands, s);
    forall x | x in offers && Verdict(offers, x, c, fits, p) == Eligible ensures NoWorse(cands[s].offer, x, p, mbps) {
      NotBeforeIs(cands[s].offer, x, p, mbps);
    }
    var marked := seq(|cands|, i requires 0 <= i < |cands| => cands[i].(reason := Mark(cands[i].reason, i == s)));
    assert Offers(marked) == Offers(cands);
    res := Result(Some(s), marked);
  }

  lemma NoTies(a: seq<Offer>, p: Policy, mbps: real)
    ensures SameTies(a, a, p, mbps)
  {}

  lemma OffersOfInsert(before: seq<Candidate>, x: Candidate, after: seq<Candidate>)
    requires multiset(after) == multiset(before) + multiset{x}
    ensures multiset(Offers(after)) == multiset(Offers(before)) + multiset{x.offer}
  {
    assert multiset(before + [x]) == multiset(after);
    OffersPermute(before + [x], after);
    assert Offers(before + [x]) == Offers(before) + [x.offer];
  }

  lemma {:induction false} OffersPermute(a: seq<Candidate>, b: seq<Candidate>)
    requires multiset(a) == multiset(b)
    ensures multiset(Offers(a)) == multiset(Offers(b))
  {
    if a == [] {
      assert |multiset(b)| == 0;
    } else {
      hide Offers;
      var n := |a| - 1;
      assert a[n] in multiset(a);
      var k := IndexIn(b, a[n]);
      WithoutIs(a, n);
      WithoutIs(b, k);
      OffersPermute(Without(a, n), Without(b, k));
      OffersWithout(a, n);
      OffersWithout(b, k);
    }
  }

  lemma OffersWithout(s: seq<Candidate>, k: nat)
    requires k < |s|
    ensures multiset(Offers(s)) == multiset(Offers(Without(s, k))) + multiset{s[k].offer}
  {
    assert Offers(s) == Offers(s[..k]) + [s[k].offer] + Offers(s[k + 1..]);
    assert Offers(Without(s, k)) == Offers(s[..k]) + Offers(s[k + 1..]);
  }

  lemma FindOffer(cands: seq<Candidate>, offers: seq<Offer>, o: Offer)
    requires multiset(Offers(cands)) == multiset(offers) && o in offers
    ensures exists i :: 0 <= i < |cands| && cands[i].offer == o
  {
    assert o in multiset(Offers(cands));
    var i :| 0 <= i < |Offers(cands)| && Offers(cands)[i] == o;
    assert cands[i].offer == o;
  }

  lemma FirstEligibleIsChosen(offers: seq<Offer>, c: Criteria, fits: Offer -> Reason, p: Policy,
                              cands: seq<Candidate>, s: nat)
    requires multiset(Offers(cands)) == multiset(offers) && InOrder(cands, p, MedianMbps(offers))
    requires forall x :: x in cands ==> x.reason == Verdict(offers, x.offer, c, fits, p)
    requires s < |cands| && cands[s].reason == Eligible
    requires forall j :: 0 <= j < s ==> cands[j].reason != Eligible
    ensures Chosen(offers, c, fits, p, cands[s].offer)
  {
    hide Before, Verdict, MedianMbps;
    var mbps := MedianMbps(offers);
    forall x | x in offers && Verdict(offers, x, c, fits, p) == Eligible
      ensures !Before(x, cands[s].offer, p, mbps)
    {
      FindOffer(cands, offers, x);
      var i :| 0 <= i < |cands| && cands[i].offer == x;
      assert cands[i] in cands && i >= s;
      BeforeIsTotal(x, x, p, mbps);
    }
    assert cands[s] in cands;
    assert Offers(cands)[s] == cands[s].offer;
    assert cands[s].offer in multiset(Offers(cands));
  }

  lemma EligibleFits(offers: seq<Offer>, o: Offer, c: Criteria, fits: Offer -> Reason, p: Policy)
    requires Verdict(offers, o, c, fits, p) == Eligible
    ensures fits(o) == Eligible
  {
    hide ClassMedian;
  }

  ghost predicate DistinctIds(offers: seq<Offer>) {
    forall a, b :: a in offers && b in offers && a.id == b.id ==> a == b
  }

  /** With distinct identifiers the rules choose at most one offer, and the
      same one however the market is listed. */
  lemma ChoiceIsUnique(offers: seq<Offer>, relisted: seq<Offer>, c: Criteria, fits: Offer -> Reason, p: Policy,
                       o: Offer, o': Offer)
    requires DistinctIds(offers) && multiset(offers) == multiset(relisted)
    requires Chosen(offers, c, fits, p, o) && Chosen(relisted, c, fits, p, o')
    ensures o == o'
  {
    hide Before, Classify, ClassMedian, MedianMbps;
    MediansPermute(offers, relisted, p.minClassSample);
    assert o in multiset(relisted) && o' in multiset(offers);
    BeforeIsTotal(o, o', p, MedianMbps(offers));
  }

  /** Whether a market yields a choice at all does not depend on its order. */
  lemma VerdictsPermute(offers: seq<Offer>, relisted: seq<Offer>, c: Criteria, fits: Offer -> Reason, p: Policy, o: Offer)
    requires multiset(offers) == multiset(relisted)
    ensures o in offers <==> o in relisted
    ensures Verdict(offers, o, c, fits, p) == Verdict(relisted, o, c, fits, p)
  {
    hide Classify, ClassMedian;
    MediansPermute(offers, relisted, p.minClassSample);
    assert o in multiset(offers) <==> o in multiset(relisted);
  }

  // ---- the outlier rule --------------------------------------------------

  lemma {:induction false} Collected(offers: seq<Offer>, f: Offer -> Option<real>, v: real)
    requires v in Collect(offers, f)
    ensures exists o :: o in offers && f(o) == Some(v)
  {
    if f(offers[|offers| - 1]) != Some(v) {
      Collected(offers[..|offers| - 1], f, v);
    }
  }

  lemma {:induction false} CollectsAll(offers: seq<Offer>, f: Offer -> Option<real>, o: Offer)
    requires o in offers && f(o).Some?
    ensures f(o).value in Collect(offers, f)
  {
    if o != offers[|offers| - 1] { CollectsAll(offers[..|offers| - 1], f, o); }
  }

  lemma MedianNotAboveTop(s: seq<real>)
    requires Ascending(s) && s != [] && s[0] > 0.0
    ensures 0.0 < Median(s) <= s[|s| - 1]
  {}

  lemma NotBait(x: Offer, p: Policy, median: Option<real>)
    requires median.Some? ==> median.value <= x.price
    ensures !Outlier(x, p, median)
  {
    if p.outlierFactor > 1.0 && x.price > 0.0 { assert x.price * p.outlierFactor >= x.price * 1.0; }
  }

  /** No class of GPU is ever excluded whole by the outlier rule. */
  lemma SomeOfEachClassSurvives(offers: seq<Offer>, o: Offer, p: Policy)
    requires o in offers
    ensures exists x :: x in offers && x.gpuModel == o.gpuModel
                        && !Outlier(x, p, ClassMedian(offers, o.gpuModel, p.minClassSample))
  {
    hide Sorted, Median, Collect;
    var f := ClassPrice(o.gpuModel);
    var prices := Collect(offers, f);
    var median := ClassMedian(offers, o.gpuModel, p.minClassSample);
    if Outlier(o, p, median) {
      SortedIs(prices);
      var s := Sorted(prices);
      var top := s[|s| - 1];
      assert top in multiset(prices) && s[0] in multiset(prices);
      Collected(offers, f, s[0]);
      MedianNotAboveTop(s);
      Collected(offers, f, top);
      var x :| x in offers && f(x) == Some(top);
      NotBait(x, p, median);
    }
  }
}
