/** What a rig spent, replayed from its journal entries.

    The replay loop keeps a running state, rates and sums; the reference is the
    plain integral of a piecewise constant rate over the intervals between
    consecutive entries. Times are nanoseconds, money is real. */
module Cost {
  import opened Lifecycle
  import opened Journal
  import opened Wrappers
  import Store

  datatype Summary = Summary(
    total: real, compute: real, storage: real, boot: real,
    ran: int, price: real, reachedReady: bool)

  const LEGACY_DISK_GB := 60.0
  const HOURS_PER_MONTH := 720.0
  const NANOS_PER_HOUR := 3600000000000.0

  function Hours(d: int): real {
    d as real / NANOS_PER_HOUR
  }

  predicate ComputeBilling(s: State) {
    s.Creating? || s.Provisioned? || s.Bootstrapping? || s.Ready? || s.Degraded? || s.Draining?
    || s.Failed? || s.Orphaned?
  }

  predicate StorageBilling(s: State) {
    !(s.Idle? || s.Searching? || s.Selected? || s.Destroyed?)
  }

  // ---- the reference: an integral over intervals -------------------------

  /** The rates in force, and whether they were written under the old rules. */
  datatype Rates = Rates(price: real, storage: real, legacy: bool)

  function Updated(r: Rates, e: Entry, billed: real): Rates {
    var legacy := !e.billedRates;
    Rates(
      if e.price <= 0.0 then r.price else if legacy && billed > 0.0 then billed else e.price,
      if e.storage <= 0.0 then r.storage
      else if legacy then e.storage * LEGACY_DISK_GB / HOURS_PER_MONTH else e.storage,
      legacy)
  }

  /** Index of the entry that ends the rig, or the length when none does. */
  function EndIndex(es: seq<Entry>): nat {
    if es == [] then 0 else if es[0].to.Destroyed? then 0 else 1 + EndIndex(es[1..])
  }

  predicate Ended(es: seq<Entry>) {
    EndIndex(es) < |es|
  }

  /** An entry after the end counts only as a second record of that end. */
  predicate Heeded(es: seq<Entry>, i: nat)
    requires i < |es|
  {
    i <= EndIndex(es) || es[i].to.Destroyed?
  }

  function RatesAfter(es: seq<Entry>, n: nat, billed: real): Rates
    requires n <= |es|
  {
    if n == 0 then Rates(0.0, 0.0, false)
    else if Heeded(es, n - 1) then Updated(RatesAfter(es, n - 1, billed), es[n - 1], billed)
    else RatesAfter(es, n - 1, billed)
  }

  datatype Charge = Charge(compute: real, storage: real) {
    function Plus(c: Charge): Charge {
      Charge(compute + c.compute, storage + c.storage)
    }
  }

  const NOTHING := Charge(0.0, 0.0)

  /** The two hourly rates a state is charged at. */
  function HourlyRate(s: State, r: Rates, billed: real): Charge {
    if r.legacy && billed == 0.0 then
      Charge(if ComputeBilling(s) then r.price else 0.0, if StorageBilling(s) then r.storage else 0.0)
    else if ComputeBilling(s) then Charge(r.price, 0.0)
    else if StorageBilling(s) then Charge(0.0, r.storage)
    else NOTHING
  }

  function Elapsed(since: int, until: int): real {
    if until < since then 0.0 else Hours(until - since)
  }

  function Over(rate: Charge, hours: real): Charge {
    Charge(hours * rate.compute, hours * rate.storage)
  }

  /** What entry i's state costs from entry i until a given moment. */
  function Interval(es: seq<Entry>, i: nat, until: int, billed: real): Charge
    requires i < |es|
  {
    Over(HourlyRate(es[i].to, RatesAfter(es, i + 1, billed), billed), Elapsed(es[i].at, until))
  }

  /** The first n intervals between consecutive entries. */
  function Intervals(es: seq<Entry>, n: nat, billed: real): Charge
    requires n == 0 || n < |es|
  {
    if n == 0 then NOTHING else Intervals(es, n - 1, billed).Plus(Interval(es, n - 1, es[n].at, billed))
  }

  /** Everything up to the rig's end, or up to now for a rig still costing. */
  function Spent(es: seq<Entry>, now: int, billed: real): Charge {
    if es == [] then NOTHING
    else if Ended(es) then Intervals(es, EndIndex(es), billed)
    else
      var past := Intervals(es, |es| - 1, billed);
      if Billable(es[|es| - 1].to) then past.Plus(Interval(es, |es| - 1, now, billed)) else past
  }

  predicate ConfirmedAbsent(es: seq<Entry>) {
    exists i :: 0 <= i < |es| && NothingCreated(es[i])
  }

  /** What a rig is costed at: nothing once a termination says nothing existed. */
  function Charged(es: seq<Entry>, now: int, billed: real): Charge {
    if ConfirmedAbsent(es) then NOTHING else Spent(es, now, billed)
  }

  /** Index of the first READY that counts, or the length when there is none. */
  function ReadyIndex(es: seq<Entry>, n: nat): nat
    requires n <= |es|
  {
    if n == 0 then |es|
    else if ReadyIndex(es, n - 1) < |es| then ReadyIndex(es, n - 1)
    else if es[n - 1].to.Ready? && n - 1 <= EndIndex(es) then n - 1 else |es|
  }

  function Boot(es: seq<Entry>, n: nat, billed: real): real
    requires n <= |es|
  {
    var i := ReadyIndex(es, n);
    if i < |es| && i < n then Intervals(es, i, billed).compute + Intervals(es, i, billed).storage else 0.0
  }

  /** How long the rig is said to have run when only n entries are read. */
  function RanAfter(es: seq<Entry>, n: nat): int
    requires n <= |es|
  {
    if n == 0 then 0
    else if es[n - 1].end.Some? && n - 1 <= EndIndex(es) then es[n - 1].at - es[0].at
    else RanAfter(es, n - 1)
  }

  function Ran(es: seq<Entry>, now: int): int {
    if es == [] then 0
    else if !Ended(es) && Billable(es[|es| - 1].to) then now - es[0].at
    else if RanAfter(es, |es|) != 0 then RanAfter(es, |es|)
    else (if Ended(es) then es[EndIndex(es)].at else es[|es| - 1].at) - es[0].at
  }

  // ---- the replay loop ---------------------------------------------------

  /** The variables the loop carries from entry to entry. */
  datatype Replay = Replay(
    compute: real, storageSpent: real, boot: real, ran: int,
    haveState: bool, state: State, since: int,
    price: real, storage: real, legacy: bool,
    firstAt: int, readyAt: int, confirmedAbsent: bool)

  const START := Replay(0.0, 0.0, 0.0, 0, false, Idle, 0, 0.0, 0.0, false, 0, 0, false)

  function Accrue(r: Replay, until: int, billed: real): Replay {
    if !r.haveState || r.since == 0 || until < r.since then r
    else
      var hours := Hours(until - r.since);
      if r.legacy && billed == 0.0 then
        r.(compute := if ComputeBilling(r.state) then r.compute + hours * r.price else r.compute,
        storageSpent := if StorageBilling(r.state) then r.storageSpent + hours * r.storage else r.storageSpent)
      else if ComputeBilling(r.state) then r.(compute := r.compute + hours * r.price)
      else if StorageBilling(r.state) then r.(storageSpent := r.storageSpent + hours * r.storage)
      else r
  }

  /** Everything but the accrual that one entry does to the loop's variables. */
  function Read(r: Replay, e: Entry, billed: real): Replay {
    var ended := r.haveState && r.state.Destroyed?;
    if ended && !e.to.Destroyed? then r
    else
      var legacy := !e.billedRates;
      var first := e.to.Ready? && r.readyAt == 0;
      r.(legacy := legacy,
      price := if e.price > 0.0 then (if legacy && billed > 0.0 then billed else e.price) else r.price,
      storage := if e.storage > 0.0
                 then (if legacy then e.storage * LEGACY_DISK_GB / HOURS_PER_MONTH else e.storage) else r.storage,
      state := e.to, haveState := true,
      since := if ended then r.since else e.at,
      readyAt := if first then e.at else r.readyAt,
      boot := if first then r.compute + r.storageSpent else r.boot,
      ran := if e.end.Some? && !ended then e.at - r.firstAt else r.ran)
  }

  /** The last entry read that still moves the rig. */
  function Last(es: seq<Entry>, k: nat): (i: nat)
    requires 0 < k <= |es|
  {
    if k - 1 <= EndIndex(es) then k - 1 else EndIndex(es)
  }

  /** What the loop's variables are after k entries. */
  ghost predicate Replayed(es: seq<Entry>, k: nat, billed: real, r: Replay)
    requires 0 < k <= |es|
  {
    && r.haveState && r.state == es[Last(es, k)].to && r.since == es[Last(es, k)].at
    && Charge(r.compute, r.storageSpent) == Intervals(es, Last(es, k), billed)
    && Rates(r.price, r.storage, r.legacy) == RatesAfter(es, k, billed)
    && r.boot == Boot(es, k, billed)
    && (r.readyAt != 0 <==> ReadyIndex(es, k) < |es|)
    && r.ran == RanAfter(es, k) && r.firstAt == es[0].at
    && (r.confirmedAbsent <==> exists i :: 0 <= i < k && NothingCreated(es[i]))
  }

  lemma EndIndexIs(es: seq<Entry>)
    ensures EndIndex(es) <= |es|
    ensures forall i :: 0 <= i < EndIndex(es) ==> !es[i].to.Destroyed?
    ensures Ended(es) ==> es[EndIndex(es)].to.Destroyed?
  {
    if es != [] {
      EndIndexIs(es[1..]);
      forall i | 0 < i < EndIndex(es) ensures !es[i].to.Destroyed? { assert es[i] == es[1..][i - 1]; }
    }
  }

  lemma {:induction false} ReadyIndexIs(es: seq<Entry>, n: nat)
    requires n <= |es|
    ensures ReadyIndex(es, n) < n || ReadyIndex(es, n) == |es|
    ensures ReadyIndex(es, n) < |es| ==> ReadyIndex(es, n) <= EndIndex(es)
  {
    if n > 0 { ReadyIndexIs(es, n - 1); }
  }

  /** The closure's accrual is one interval of the integral. */
  lemma AccrueIsInterval(r: Replay, until: int, billed: real)
    requires r.haveState && r.since > 0
    ensures var a := Accrue(r, until, billed);
            && a == r.(compute := a.compute, storageSpent := a.storageSpent)
            && Charge(a.compute, a.storageSpent) == Charge(r.compute, r.storageSpent).Plus(
                 Over(HourlyRate(r.state, Rates(r.price, r.storage, r.legacy), billed), Elapsed(r.since, until)))
  {}

  lemma OverNothing(hours: real)
    ensures Over(NOTHING, hours) == NOTHING
  {}

  /** The first entry finds nothing to accrue. */
  lemma ReadFirst(es: seq<Entry>, billed: real)
    requires es != []
    ensures var b := START.(firstAt := es[0].at, confirmedAbsent := NothingCreated(es[0]));
            Replayed(es, 1, billed, Read(Accrue(b, es[0].at, billed), es[0], billed))
  {}

  lemma AccrueReplayed(es: seq<Entry>, k: nat, billed: real, r: Replay)
    requires 0 < k < |es| && Replayed(es, k, billed, r)
    ensures var b := r.(confirmedAbsent := r.confirmedAbsent || NothingCreated(es[k]));
            var a := Accrue(b, es[k].at, billed);
            && a == b.(compute := a.compute, storageSpent := a.storageSpent)
            && Charge(a.compute, a.storageSpent) == Intervals(es, Last(es, k + 1), billed)
  {
    hide Accrue, Over, Elapsed;
    EndIndexIs(es);
    AccrueIsInterval(r.(confirmedAbsent := r.confirmedAbsent || NothingCreated(es[k])), es[k].at, billed);
    if k > EndIndex(es) {
      assert HourlyRate(es[EndIndex(es)].to, RatesAfter(es, k, billed), billed) == NOTHING;
      OverNothing(Elapsed(r.since, es[k].at));
    } else {
      assert Interval(es, k - 1, es[k].at, billed) ==
             Over(HourlyRate(r.state, Rates(r.price, r.storage, r.legacy), billed), Elapsed(r.since, es[k].at));
    }
  }

  /** Reading one more entry keeps the loop's variables on the integral. */
  lemma ReadReplayed(es: seq<Entry>, k: nat, billed: real, r: Replay)
    requires 0 < k < |es| && Replayed(es, k, billed, r)
    ensures var b := r.(confirmedAbsent := r.confirmedAbsent || NothingCreated(es[k]));
            Replayed(es, k + 1, billed, Read(Accrue(b, es[k].at, billed), es[k], billed))
  {
    hide Accrue, Over, Elapsed, Interval;
    EndIndexIs(es);
    ReadyIndexIs(es, k);
    AccrueReplayed(es, k, billed, r);
  }

  /** The replay equals the integral, field by field. */
  method CostOf(es: seq<Entry>, now: int, billed: real) returns (sum: Summary)
    ensures Charge(sum.compute, sum.storage) == Charged(es, now, billed)
    ensures sum.total == sum.compute + sum.storage
    ensures sum.boot == if ConfirmedAbsent(es) then 0.0 else Boot(es, |es|, billed)
    ensures sum.reachedReady <==> ReadyIndex(es, |es|) < |es|
    ensures sum.price == RatesAfter(es, |es|, billed).price
    ensures sum.ran == Ran(es, now)
  {
    hide Accrue, Over, Elapsed, Intervals, RanAfter;
    EndIndexIs(es);
    var r := START;
    var k := 0;
    while k < |es|
      invariant 0 <= k <= |es|
      invariant k == 0 ==> r == START
      invariant k > 0 ==> Replayed(es, k, billed, r)
    {
      var e := es[k];
      if k > 0 { ReadReplayed(es, k, billed, r); } else { ReadFirst(es, billed); }
      if r.firstAt == 0 { r := r.(firstAt := e.at); }
      if NothingCreated(e) { r := r.(confirmedAbsent := true); }
      r := Read(Accrue(r, e.at, billed), e, billed);
      k := k + 1;
    }
    if r.haveState && Billable(r.state) && !r.state.Destroyed? {
      AccrueIsInterval(r, now, billed);
      r := Accrue(r, now, billed).(ran := now - r.firstAt);
    } else if r.ran == 0 && r.firstAt != 0 && r.since != 0 {
      r := r.(ran := r.since - r.firstAt);
    }
    if r.confirmedAbsent {
      r := r.(compute := 0.0, storageSpent := 0.0, boot := 0.0);
    }
    sum := Summary(r.compute + r.storageSpent, r.compute, r.storageSpent, r.boot, r.ran, r.price, r.readyAt != 0);
  }

  /** Costing one rig out of the whole journal. */
  method CostForRig(journal: seq<Entry>, rig: string, billed: real, now: int) returns (sum: Summary)
    ensures Charge(sum.compute, sum.storage) == Charged(EntriesFor(journal, rig), now, billed)
    ensures sum.total == sum.compute + sum.storage
    ensures var es := EntriesFor(journal, rig);
            && sum.boot == (if ConfirmedAbsent(es) then 0.0 else Boot(es, |es|, billed))
            && (sum.reachedReady <==> ReadyIndex(es, |es|) < |es|)
            && sum.price == RatesAfter(es, |es|, billed).price && sum.ran == Ran(es, now)
  {
    var es := FilterEntries(journal, rig);
    sum := CostOf(es, now, billed);
  }

  // ---- what the integral promises ----------------------------------------

  /** The rig's cost still grows: it has not ended and its last state bills. */
  predicate Accruing(es: seq<Entry>) {
    es != [] && !Ended(es) && Billable(es[|es| - 1].to) && !ConfirmedAbsent(es)
  }

  lemma {:induction false} RatesNotNegative(es: seq<Entry>, n: nat, billed: real)
    requires n <= |es|
    ensures RatesAfter(es, n, billed).price >= 0.0 && RatesAfter(es, n, billed).storage >= 0.0
  {
    if n > 0 { RatesNotNegative(es, n - 1, billed); }
  }

  lemma OverGrows(rate: Charge, h1: real, h2: real)
    requires 0.0 <= h1 <= h2 && rate.compute >= 0.0 && rate.storage >= 0.0
    ensures 0.0 <= Over(rate, h1).compute <= Over(rate, h2).compute
    ensures 0.0 <= Over(rate, h1).storage <= Over(rate, h2).storage
    ensures Over(rate, h2) == Over(rate, h1).Plus(Over(rate, h2 - h1))
  {
    TimesGrows(rate.compute, h1, h2);
    TimesGrows(rate.storage, h1, h2);
  }

  lemma TimesGrows(r: real, h1: real, h2: real)
    requires 0.0 <= h1 <= h2 && r >= 0.0
    ensures 0.0 <= h1 * r <= h2 * r && h2 * r == h1 * r + (h2 - h1) * r
  {}

  lemma ElapsedSplits(a: int, b: int, c: int)
    requires a <= b <= c
    ensures Elapsed(a, c) == Elapsed(a, b) + Elapsed(b, c)
  {}

  /** A later "now" never costs less. */
  lemma CostGrowsWithNow(es: seq<Entry>, now1: int, now2: int, billed: real)
    requires now1 <= now2
    ensures Charged(es, now1, billed).compute <= Charged(es, now2, billed).compute
    ensures Charged(es, now1, billed).storage <= Charged(es, now2, billed).storage
  {
    hide Over, HourlyRate;
    if Accruing(es) {
      var i := |es| - 1;
      RatesNotNegative(es, i + 1, billed);
      RateNotNegative(es[i].to, RatesAfter(es, i + 1, billed), billed);
      OverGrows(HourlyRate(es[i].to, RatesAfter(es, i + 1, billed), billed), Elapsed(es[i].at, now1),
                Elapsed(es[i].at, now2));
    }
  }

  lemma RateNotNegative(s: State, r: Rates, billed: real)
    requires r.price >= 0.0 && r.storage >= 0.0
    ensures HourlyRate(s, r, billed).compute >= 0.0 && HourlyRate(s, r, billed).storage >= 0.0
  {}

  /** Cost moves with "now" exactly at the last state's rate while the rig is
      accruing, and not at all otherwise. */
  lemma CostIsLinearInNow(es: seq<Entry>, now1: int, now2: int, billed: real)
    requires now1 <= now2
    requires es != [] ==> es[|es| - 1].at <= now1
    ensures Charged(es, now2, billed) ==
            if Accruing(es)
            then Charged(es, now1, billed).Plus(
                   Over(HourlyRate(es[|es| - 1].to, RatesAfter(es, |es|, billed), billed), Elapsed(now1, now2)))
            else Charged(es, now1, billed)
  {
    hide Over, HourlyRate;
    if Accruing(es) {
      var i := |es| - 1;
      var rate := HourlyRate(es[i].to, RatesAfter(es, i + 1, billed), billed);
      RatesNotNegative(es, i + 1, billed);
      RateNotNegative(es[i].to, RatesAfter(es, i + 1, billed), billed);
      ElapsedSplits(es[i].at, now1, now2);
      OverGrows(rate, Elapsed(es[i].at, now1), Elapsed(es[i].at, now2));
    }
  }

  // ---- entries after the end ---------------------------------------------

  lemma {:induction false} EndIndexOfExtension(es: seq<Entry>, more: seq<Entry>)
    ensures Ended(es) ==> EndIndex(es + more) == EndIndex(es)
    ensures !Ended(es) ==> EndIndex(es + more) >= |es|
  {
    if es != [] && !es[0].to.Destroyed? {
      assert (es + more)[1..] == es[1..] + more;
      EndIndexOfExtension(es[1..], more);
    }
  }

  lemma {:induction false} RatesOfExtension(es: seq<Entry>, more: seq<Entry>, n: nat, billed: real)
    requires n <= |es|
    ensures RatesAfter(es + more, n, billed) == RatesAfter(es, n, billed)
  {
    hide Updated;
    if n > 0 {
      EndIndexIs(es);
      EndIndexOfExtension(es, more);
      RatesOfExtension(es, more, n - 1, billed);
      assert (es + more)[n - 1] == es[n - 1];
    }
  }

  lemma {:induction false} IntervalsOfExtension(es: seq<Entry>, more: seq<Entry>, n: nat, billed: real)
    requires n == 0 || n < |es|
    ensures Intervals(es + more, n, billed) == Intervals(es, n, billed)
  {
    hide Over, HourlyRate, RatesAfter;
    if n > 0 {
      IntervalsOfExtension(es, more, n - 1, billed);
      RatesOfExtension(es, more, n, billed);
      assert (es + more)[n] == es[n] && (es + more)[n - 1] == es[n - 1];
    }
  }

  /** The first end fixes the cost, whatever is journalled after it and
      whenever it is read; only evidence that nothing was created moves it. */
  lemma EndFixesCost(es: seq<Entry>, more: seq<Entry>, now1: int, now2: int, billed: real)
    requires Ended(es)
    ensures Charged(es + more, now2, billed) == if ConfirmedAbsent(es + more) then NOTHING else Spent(es, now1, billed)
  {
    EndIndexOfExtension(es, more);
    EndIndexIs(es);
    IntervalsOfExtension(es, more, EndIndex(es), billed);
  }

  // ---- entries that change nothing ---------------------------------------

  function Inserted(es: seq<Entry>, i: nat, e: Entry): seq<Entry>
    requires i < |es|
  {
    es[..i + 1] + [e] + es[i + 1..]
  }

  /** e repeats entry i: same state, same rates in force, no new evidence. */
  predicate Repeats(es: seq<Entry>, i: nat, e: Entry, billed: real)
    requires i < |es|
  {
    && e.to == es[i].to && !NothingCreated(e)
    && RatesAfter(Inserted(es, i, e), i + 2, billed) == RatesAfter(Inserted(es, i, e), i + 1, billed)
  }

  lemma {:induction false} EndIndexOfInsert(es: seq<Entry>, i: nat, e: Entry)
    requires i < |es| && e.to == es[i].to
    ensures EndIndex(Inserted(es, i, e)) == if EndIndex(es) <= i then EndIndex(es) else EndIndex(es) + 1
  {
    var es' := Inserted(es, i, e);
    EndIndexIs(es);
    if EndIndex(es) <= i {
      assert es' == es[..i + 1] + ([e] + es[i + 1..]);
      assert es == es[..i + 1] + es[i + 1..];
      EndIndexOfExtension(es[..i + 1], es[i + 1..]);
      EndIndexOfExtension(es[..i + 1], [e] + es[i + 1..]);
    } else {
      EndIndexUnique(es', EndIndex(es) + 1);
    }
  }

  lemma {:induction false} EndIndexUnique(es: seq<Entry>, k: nat)
    requires k <= |es|
    requires forall j :: 0 <= j < k ==> !es[j].to.Destroyed?
    requires k < |es| ==> es[k].to.Destroyed?
    ensures EndIndex(es) == k
  {
    if k > 0 { EndIndexUnique(es[1..], k - 1); }
  }

  lemma {:induction false} RatesOfInsert(es: seq<Entry>, i: nat, e: Entry, n: nat, billed: real)
    requires i < |es| && Repeats(es, i, e, billed) && i < n <= |es|
    ensures RatesAfter(Inserted(es, i, e), n + 1, billed) == RatesAfter(es, n, billed)
    ensures RatesAfter(Inserted(es, i, e), i + 1, billed) == RatesAfter(es, i + 1, billed)
  {
    hide Updated;
    var es' := Inserted(es, i, e);
    assert es' == es[..i + 1] + ([e] + es[i + 1..]);
    assert es == es[..i + 1] + es[i + 1..];
    RatesOfExtension(es[..i + 1], es[i + 1..], i + 1, billed);
    RatesOfExtension(es[..i + 1], [e] + es[i + 1..], i + 1, billed);
    if n > i + 1 {
      RatesOfInsert(es, i, e, n - 1, billed);
      EndIndexOfInsert(es, i, e);
      assert es'[n] == es[n - 1];
    }
  }

  /** The interval entry i opens is the two intervals it becomes. */
  lemma IntervalSplits(es: seq<Entry>, i: nat, e: Entry, until: int, billed: real)
    requires i < |es| && Repeats(es, i, e, billed) && es[i].at <= e.at <= until
    ensures Interval(es, i, until, billed) ==
            Interval(Inserted(es, i, e), i, e.at, billed).Plus(Interval(Inserted(es, i, e), i + 1, until, billed))
  {
    hide Over, HourlyRate, RatesAfter, Elapsed;
    var es' := Inserted(es, i, e);
    RatesOfInsert(es, i, e, i + 1, billed);
    assert es'[i] == es[i] && es'[i + 1] == e;
    var rate := HourlyRate(es[i].to, RatesAfter(es, i + 1, billed), billed);
    RatesNotNegative(es, i + 1, billed);
    RateNotNegative(es[i].to, RatesAfter(es, i + 1, billed), billed);
    ElapsedSplits(es[i].at, e.at, until);
    ElapsedNotNegative(es[i].at, e.at);
    ElapsedNotNegative(e.at, until);
    OverGrows(rate, Elapsed(es[i].at, e.at), Elapsed(es[i].at, until));
  }

  lemma ElapsedNotNegative(a: int, b: int)
    ensures Elapsed(a, b) >= 0.0
  {}

  lemma {:induction false} IntervalsOfInsert(es: seq<Entry>, i: nat, e: Entry, n: nat, billed: real)
    requires i < |es| && Repeats(es, i, e, billed) && i < n < |es|
    requires es[i].at <= e.at <= es[i + 1].at
    ensures Intervals(Inserted(es, i, e), n + 1, billed) == Intervals(es, n, billed)
  {
    hide Over, HourlyRate, RatesAfter, Interval;
    var es' := Inserted(es, i, e);
    if n == i + 1 {
      assert es' == es[..i + 1] + ([e] + es[i + 1..]);
      assert es == es[..i + 1] + es[i + 1..];
      IntervalsOfExtension(es[..i + 1], es[i + 1..], i, billed);
      IntervalsOfExtension(es[..i + 1], [e] + es[i + 1..], i, billed);
      IntervalSplits(es, i, e, es[i + 1].at, billed);
      assert es'[i + 1] == e && es'[i + 2] == es[i + 1];
    } else {
      IntervalsOfInsert(es, i, e, n - 1, billed);
      IntervalOfInsert(es, i, e, n - 1, es[n].at, billed);
      assert es'[n + 1] == es[n];
    }
  }

  lemma IntervalOfInsert(es: seq<Entry>, i: nat, e: Entry, k: nat, until: int, billed: real)
    requires i < |es| && Repeats(es, i, e, billed) && i < k < |es|
    ensures Interval(Inserted(es, i, e), k + 1, until, billed) == Interval(es, k, until, billed)
  {
    hide Over, HourlyRate, RatesAfter;
    RatesOfInsert(es, i, e, k + 1, billed);
    assert Inserted(es, i, e)[k + 1] == es[k];
  }

  /** Journalling the state a rig is already in, at the rates already in force,
      never changes what it is charged. */
  lemma RepeatedEntryCostsNothing(es: seq<Entry>, i: nat, e: Entry, now: int, billed: real)
    requires i < |es| && Repeats(es, i, e, billed)
    requires es[i].at <= e.at <= (if i + 1 < |es| then es[i + 1].at else now)
    ensures Charged(Inserted(es, i, e), now, billed) == Charged(es, now, billed)
  {
    hide Over, HourlyRate, RatesAfter, Interval;
    var es' := Inserted(es, i, e);
    EndIndexIs(es);
    EndIndexOfInsert(es, i, e);
    AbsenceOfInsert(es, i, e);
    var end := EndIndex(es);
    if i >= end {
      assert es' == es[..i + 1] + ([e] + es[i + 1..]);
      assert es == es[..i + 1] + es[i + 1..];
      IntervalsOfExtension(es[..i + 1], es[i + 1..], end, billed);
      IntervalsOfExtension(es[..i + 1], [e] + es[i + 1..], end, billed);
    } else if end < |es| {
      IntervalsOfInsert(es, i, e, end, billed);
    } else if i + 1 < |es| {
      IntervalsOfInsert(es, i, e, |es| - 1, billed);
      IntervalOfInsert(es, i, e, |es| - 1, now, billed);
    } else {
      assert es' == es + [e];
      IntervalsOfExtension(es, [e], i, billed);
      IntervalSplits(es, i, e, now, billed);
      if !Billable(e.to) { QuietInterval(es', i, e.at, billed); }
    }
  }

  lemma QuietInterval(es: seq<Entry>, i: nat, until: int, billed: real)
    requires i < |es| && !Billable(es[i].to)
    ensures Interval(es, i, until, billed) == NOTHING
  {
    hide RatesAfter, Elapsed;
    assert HourlyRate(es[i].to, RatesAfter(es, i + 1, billed), billed) == NOTHING;
  }

  lemma AbsenceOfInsert(es: seq<Entry>, i: nat, e: Entry)
    requires i < |es| && !NothingCreated(e)
    ensures ConfirmedAbsent(Inserted(es, i, e)) <==> ConfirmedAbsent(es)
  {
    var es' := Inserted(es, i, e);
    forall k | 0 <= k < |es| && NothingCreated(es[k]) ensures ConfirmedAbsent(es') {
      var k' := if k <= i then k else k + 1;
      assert NothingCreated(es'[k']);
    }
    forall k | 0 <= k < |es'| && NothingCreated(es'[k]) ensures ConfirmedAbsent(es) {
      var k' := if k <= i then k else k - 1;
      assert NothingCreated(es[k']);
    }
  }

  /** A rig the billable listing leaves out has stopped costing anything. */
  lemma OmittedRigsCostNothingMore(es: seq<Entry>, id: string, now: int, later: int, billed: real)
    requires !Store.Costs(es, id)
    ensures Charged(EntriesFor(es, id), now, billed) == Charged(EntriesFor(es, id), later, billed)
  {
    hide Intervals, Interval, EndIndex, ConfirmedAbsent;
    LastOfRig(es, id);
  }

  lemma {:induction false} LastOfRig(es: seq<Entry>, id: string)
    ensures var own := EntriesFor(es, id);
            Store.LastTo(es, id) == if own == [] then None else Some(own[|own| - 1].to)
  {
    if es != [] { LastOfRig(es[..|es| - 1], id); }
  }

  // ---- what each state costs ---------------------------------------------

  function HoursBetween(since: int, until: int): real {
    if until < since then 0.0 else (until - since) as real / 3600000000000.0
  }

  /** At current rates a running rig pays its price and a stopped one its storage;
      before a create and after absence it pays nothing. */
  lemma StateCosts(es: seq<Entry>, i: nat, until: int, billed: real)
    requires i < |es|
    requires var r := RatesAfter(es, i + 1, billed); !r.legacy || billed != 0.0
    ensures var r, h, s := RatesAfter(es, i + 1, billed), HoursBetween(es[i].at, until), es[i].to;
            Interval(es, i, until, billed)
            == if s in {Creating, Provisioned, Bootstrapping, Ready, Degraded, Draining, Failed, Orphaned} then Charge(h * r.price, 0.0)
               else if s == Stopped then Charge(0.0, h * r.storage)
               else Charge(0.0, 0.0)
  {
    hide RatesAfter;
  }

  /** Where only a quote under the old rules is known, a running rig pays storage on
      top of its price. */
  lemma OldStateCosts(es: seq<Entry>, i: nat, until: int)
    requires i < |es| && RatesAfter(es, i + 1, 0.0).legacy
    ensures var r, h, s := RatesAfter(es, i + 1, 0.0), HoursBetween(es[i].at, until), es[i].to;
            Interval(es, i, until, 0.0)
            == if s in {Creating, Provisioned, Bootstrapping, Ready, Degraded, Draining, Failed, Orphaned} then Charge(h * r.price, h * r.storage)
               else if s == Stopped then Charge(0.0, h * r.storage)
               else Charge(0.0, 0.0)
  {
    hide RatesAfter;
  }

  /** The price in force is the last one quoted, in an entry that counts; under the
      old rules the rate billed stands in for it, where it is known. */
  lemma {:induction false} PriceInForce(es: seq<Entry>, k: nat, n: nat, billed: real)
    requires k < n <= |es| && es[k].price > 0.0 && Counts(es, k)
    requires forall j :: k < j < n && Counts(es, j) ==> es[j].price <= 0.0
    ensures RatesAfter(es, n, billed).price == if es[k].billedRates || billed <= 0.0 then es[k].price else billed
  {
    EndIndexIs(es);
    CountsIs(es, n - 1);
    if n > k + 1 { PriceInForce(es, k, n - 1, billed); }
  }

  /** The storage rate in force is the last one quoted; under the old rules that
      was a gigabyte's for a month, on a disk of 60. */
  lemma {:induction false} StorageInForce(es: seq<Entry>, k: nat, n: nat, billed: real)
    requires k < n <= |es| && es[k].storage > 0.0 && Counts(es, k)
    requires forall j :: k < j < n && Counts(es, j) ==> es[j].storage <= 0.0
    ensures RatesAfter(es, n, billed).storage == if es[k].billedRates then es[k].storage else es[k].storage * 60.0 / 720.0
  {
    EndIndexIs(es);
    CountsIs(es, n - 1);
    if n > k + 1 { StorageInForce(es, k, n - 1, billed); }
  }

  /** The rules in force are those of the last entry that counts. */
  lemma {:induction false} RulesInForce(es: seq<Entry>, k: nat, n: nat, billed: real)
    requires k < n <= |es| && Counts(es, k) && forall j :: k < j < n ==> !Counts(es, j)
    ensures RatesAfter(es, n, billed).legacy <==> !es[k].billedRates
  {
    EndIndexIs(es);
    CountsIs(es, n - 1);
    if n > k + 1 { RulesInForce(es, k, n - 1, billed); }
  }

  /** No end came before it, or it is one itself. */
  predicate Counts(es: seq<Entry>, i: nat)
    requires i < |es|
  {
    es[i].to.Destroyed? || forall j :: 0 <= j < i ==> !es[j].to.Destroyed?
  }

  lemma CountsIs(es: seq<Entry>, i: nat)
    requires i < |es|
    ensures Heeded(es, i) <==> Counts(es, i)
  {
    EndIndexIs(es);
  }

  /** A rig got ready when some entry before any end says so; the first such counts. */
  lemma {:induction false} ReachedReadyIff(es: seq<Entry>, n: nat)
    requires n <= |es|
    ensures ReadyIndex(es, n) < |es| <==> exists i :: 0 <= i < n && es[i].to.Ready? && forall j :: 0 <= j < i ==> !es[j].to.Destroyed?
    ensures var i := ReadyIndex(es, n); i < |es| ==> i < n && es[i].to.Ready? && forall j :: 0 <= j < i ==> !es[j].to.Ready? && !es[j].to.Destroyed?
  {
    EndIndexIs(es);
    ReadyIndexIs(es, n);
    if n > 0 {
      ReachedReadyIff(es, n - 1);
      CountsIs(es, n - 1);
    }
  }

  /** Getting ready cost what had been spent by the first READY. */
  lemma BootIsSpentByReady(es: seq<Entry>, i: nat, billed: real)
    requires i < |es| && es[i].to.Ready? && forall j :: 0 <= j < i ==> !es[j].to.Ready? && !es[j].to.Destroyed?
    ensures var c := Spent(es[..i + 1], es[i].at, billed); Boot(es, |es|, billed) == c.compute + c.storage
  {
    hide HourlyRate, RatesAfter;
    ReachedReadyIff(es, |es|);
    var early := es[..i + 1];
    EndIndexIs(early);
    assert es == early + es[i + 1..];
    IntervalsOfExtension(early, es[i + 1..], i, billed);
    OverNoTime(HourlyRate(early[i].to, RatesAfter(early, i + 1, billed), billed));
  }

  lemma OverNoTime(rate: Charge)
    ensures Over(rate, 0.0) == NOTHING
  {}

  /** Where endings are recorded with the end, as every transition records them, a
      rig ran from its first entry to its end, or until now while it bills. */
  lemma RanToTheEnd(es: seq<Entry>, now: int)
    requires es != [] && forall i :: 0 <= i < |es| && es[i].end.Some? ==> es[i].to.Destroyed?
    ensures !Ended(es) && Billable(es[|es| - 1].to) ==> Ran(es, now) == now - es[0].at
    ensures !Ended(es) && !Billable(es[|es| - 1].to) ==> Ran(es, now) == es[|es| - 1].at - es[0].at
    ensures Ended(es) ==> Ran(es, now) == es[EndIndex(es)].at - es[0].at
  {
    EndIndexIs(es);
    RanIsTheEnd(es, |es|);
  }

  lemma {:induction false} RanIsTheEnd(es: seq<Entry>, n: nat)
    requires es != [] && n <= |es| && forall i :: 0 <= i < |es| && es[i].end.Some? ==> es[i].to.Destroyed?
    ensures RanAfter(es, n) == 0 || (Ended(es) && RanAfter(es, n) == es[EndIndex(es)].at - es[0].at)
  {
    EndIndexIs(es);
    if n > 0 { RanIsTheEnd(es, n - 1); }
  }

  /** 3,600,000,000,000 nanoseconds are an hour. */
  lemma AnHourIs(a: int, n: nat)
    ensures HoursBetween(a, a + n * 3600000000000) == n as real
  {
    assert n * 3600000000000 >= 0;
    assert (n * 3600000000000) as real == n as real * 3600000000000.0;
  }

  predicate ReadyThenStopped(es: seq<Entry>) {
    && |es| == 2 && es[0].to.Ready? && es[1].to.Stopped? && es[0].at == 3600000000000 && es[1].at == 7200000000000
    && forall i :: 0 <= i < 2 ==> es[i].price == 1.39 && es[i].storage == 0.02 && es[i].billedRates && es[i].end.None?
  }

  lemma ReadyCosts(es: seq<Entry>)
    requires ReadyThenStopped(es)
    ensures Interval(es, 0, es[1].at, 0.0) == Charge(1.39, 0.0)
  {
    hide RatesAfter, Interval, EndIndex, HoursBetween;
    AnHourIs(es[0].at, 1);
    PriceInForce(es, 0, 1, 0.0);
    RulesInForce(es, 0, 1, 0.0);
    StateCosts(es, 0, es[1].at, 0.0);
  }

  lemma StoppedCosts(es: seq<Entry>)
    requires ReadyThenStopped(es)
    ensures Interval(es, 1, 43200000000000, 0.0) == Charge(0.0, 0.20)
  {
    hide RatesAfter, Interval, EndIndex, HoursBetween;
    AnHourIs(es[1].at, 10);
    StorageInForce(es, 1, 2, 0.0);
    RulesInForce(es, 1, 2, 0.0);
    StateCosts(es, 1, 43200000000000, 0.0);
  }

  /** A rig of two entries pays for the first until the second, and for that until
      now. */
  lemma TwoIntervals(es: seq<Entry>, now: int, billed: real)
    requires |es| == 2 && !es[0].to.Destroyed? && !es[1].to.Destroyed? && Billable(es[1].to)
    requires es[0].end.None? && es[1].end.None?
    ensures Charged(es, now, billed) == Interval(es, 0, es[1].at, billed).Plus(Interval(es, 1, now, billed))
  {
    hide Interval;
    EndIndexUnique(es, 2);
    assert Intervals(es, 1, billed) == Intervals(es, 0, billed).Plus(Interval(es, 0, es[1].at, billed));
  }

  /** One hour ready at 1.39, and ten hours stopped at two cents. */
  lemma StoppedIsCheaper(es: seq<Entry>)
    requires ReadyThenStopped(es)
    ensures Charged(es, 43200000000000, 0.0) == Charge(1.39, 0.20)
  {
    hide Interval, Charged;
    TwoIntervals(es, 43200000000000, 0.0);
    ReadyCosts(es);
    StoppedCosts(es);
  }

  // ---- what a rig's own entries cost ---------------------------------------

  lemma OneInterval(e: Entry, now: int)
    requires !e.to.Destroyed? && Billable(e.to) && !NothingCreated(e)
    ensures Charged([e], now, 0.0) == Interval([e], 0, now, 0.0)
  {
    hide Interval;
    EndIndexUnique([e], 1);
  }

  lemma OneEntrysRates(e: Entry)
    requires e.billedRates && e.price >= 0.0 && e.storage >= 0.0
    ensures RatesAfter([e], 1, 0.0) == Rates(e.price, e.storage, false)
  {}

  /** A rig just found ready pays the rate its instance is billed at, or the quote
      it was rented at where none is known. */
  lemma EntryCostsTheRate(r: Store.Rig, at: Instant, now: int)
    requires r.inst.Some? && r.inst.value.storage >= 0.0 && at <= now && r.quote >= 0.0
    ensures Charged([Store.EntryOf(r, Ready, at)], now, 0.0)
            == Charge(HoursBetween(at, now) * (if r.inst.value.price > 0.0 then r.inst.value.price else r.quote), 0.0)
  {
    hide RatesAfter, Interval, Charged, HoursBetween;
    var e := Store.EntryOf(r, Ready, at);
    OneInterval(e, now);
    OneEntrysRates(e);
    StateCosts([e], 0, now, 0.0);
  }

  /** And a stopped one what its instance is billed for storage. */
  lemma EntryCostsStorage(r: Store.Rig, at: Instant, now: int)
    requires r.inst.Some? && r.inst.value.storage >= 0.0 && at <= now && r.quote >= 0.0
    ensures Charged([Store.EntryOf(r, Stopped, at)], now, 0.0) == Charge(0.0, HoursBetween(at, now) * r.inst.value.storage)
  {
    hide RatesAfter, Interval, Charged, HoursBetween;
    var e := Store.EntryOf(r, Stopped, at);
    OneInterval(e, now);
    OneEntrysRates(e);
    StateCosts([e], 0, now, 0.0);
  }

  /** An end recorded with the evidence that nothing was created takes back
      everything the rig was said to cost. */
  lemma NeverCreatedCostsNothing(journal: seq<Entry>, r: Store.Rig, at: Instant, now: int, billed: real)
    requires r.end.Some? && r.end.value.nothingCreated
    ensures Charged(EntriesFor(journal + [Store.EntryOf(r, Destroyed, at)], r.id), now, billed) == Charge(0.0, 0.0)
  {
    var e := Store.EntryOf(r, Destroyed, at);
    assert (journal + [e])[..|journal|] == journal;
    var own := EntriesFor(journal, r.id);
    assert EntriesFor(journal + [e], r.id) == own + [e];
    assert NothingCreated((own + [e])[|own|]);
  }

  /** Any other end leaves what had been spent by then. */
  lemma EndCostsWhatWasSpent(journal: seq<Entry>, r: Store.Rig, at: Instant, now: int, billed: real)
    requires r.end.None? || !r.end.value.nothingCreated
    requires var own := EntriesFor(journal, r.id); own != [] && !Ended(own) && !ConfirmedAbsent(own) && Billable(own[|own| - 1].to)
    ensures Charged(EntriesFor(journal + [Store.EntryOf(r, Destroyed, at)], r.id), now, billed)
            == Charged(EntriesFor(journal, r.id), at, billed)
  {
    hide Interval;
    var e, own := Store.EntryOf(r, Destroyed, at), EntriesFor(journal, r.id);
    assert (journal + [e])[..|journal|] == journal;
    assert EntriesFor(journal + [e], r.id) == own + [e];
    EndIndexIs(own);
    EndIndexUnique(own + [e], |own|);
    IntervalsOfExtension(own, [e], |own| - 1, billed);
    forall k | 0 <= k < |own + [e]| ensures !NothingCreated((own + [e])[k]) {
      if k < |own| { assert (own + [e])[k] == own[k]; }
    }
    IntervalOfExtension(own, [e], |own| - 1, at, billed);
  }

  lemma IntervalOfExtension(es: seq<Entry>, more: seq<Entry>, i: nat, until: int, billed: real)
    requires i < |es|
    ensures Interval(es + more, i, until, billed) == Interval(es, i, until, billed)
  {
    hide RatesAfter, HourlyRate;
    RatesOfExtension(es, more, i + 1, billed);
  }
}
