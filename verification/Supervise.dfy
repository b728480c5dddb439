/** Watching a serving rig: what the probes say of it, and why it should end. */
module Supervise {
  import opened Accounting
  import opened Daemon
  import opened Journal
  import opened Lifecycle
  import opened Store
  import opened Wrappers
  import Cost
  import RigId

  datatype Policy = Policy(maxUSD: real, idleTimeout: int, idleDestroys: bool, warnLead: int)

  datatype Verdict = Left | EndedElsewhere | OverBudget(now: int) | IdleTooLong(idle: int) | InstanceGone

  /** One turn of the loop: the clock, how long the operator has been idle, whether
      a probe is due, and how it would come out. */
  datatype Poll = Poll(now: Instant, idle: int, due: bool, ok: bool)

  const STRIKES := 3

  /** How many probes in a row have failed, up to the last one. */
  function Trailing(probes: seq<bool>): nat {
    if probes == [] || probes[|probes| - 1] then 0 else 1 + Trailing(probes[..|probes| - 1])
  }

  function Health(probes: seq<bool>): State {
    if Trailing(probes) >= 3 then Degraded else Ready
  }

  /** Another process has ended the rig, and the store has its record. */
  predicate Ended(w: World, id: string) {
    RigId.Valid(id) && StoredAs(w, id, Destroyed)
  }

  /** The provider answers, and does not have the rig's instance. */
  predicate KnownGone(w: World, r: Rig) {
    r.inst.Some? && w.weather.answering && r.inst.value.id !in w.instances
  }

  /** What one turn calls for, in a world where so many probes have just failed in a
      row: the first of the reasons to end that holds. */
  ghost function Calls(p: Policy, w: World, r: Rig, poll: Poll, failed: nat): Verdict {
    if Ended(w, r.id) then EndedElsewhere
    else if Overspent(w.journal, r, p, poll.now) then OverBudget(poll.now)
    else if p.idleDestroys && poll.idle >= p.idleTimeout > 0 then IdleTooLong(poll.idle)
    else if poll.due && !poll.ok && failed + 1 >= 3 && KnownGone(w, r) then InstanceGone
    else Left
  }

  /** The probes of the turns that had one due. */
  function Probed(polls: seq<Poll>): seq<bool> {
    if polls == [] then []
    else Probed(polls[..|polls| - 1]) + (if polls[|polls| - 1].due then [polls[|polls| - 1].ok] else [])
  }

  lemma ProbedNext(polls: seq<Poll>, n: nat)
    requires n < |polls|
    ensures Probed(polls[..n + 1]) == if polls[n].due then Probed(polls[..n]) + [polls[n].ok] else Probed(polls[..n])
  {
    assert polls[..n + 1][..n] == polls[..n];
  }

  /** Turn by turn nothing called for an end, each in the world it was taken in. */
  ghost predicate NothingCalled(p: Policy, at: seq<World>, r: Rig, polls: seq<Poll>, n: nat) {
    n <= |at| && n <= |polls| && forall k :: 0 <= k < n ==> Calls(p, at[k], r, polls[k], Trailing(Probed(polls[..k]))).Left?
  }

  lemma NothingCalledNext(p: Policy, at: seq<World>, w: World, r: Rig, polls: seq<Poll>, n: nat)
    requires NothingCalled(p, at, r, polls, n) && n == |at| < |polls|
    ensures NothingCalled(p, at + [w], r, polls, n)
    ensures Calls(p, w, r, polls[n], Trailing(Probed(polls[..n]))).Left? ==> NothingCalled(p, at + [w], r, polls, n + 1)
  {
    hide Calls, Trailing, Probed;
  }

  /** The rig's state in memory followed its probes, poll by poll. */
  predicate Followed(probes: seq<bool>, states: seq<State>) {
    |states| <= |probes| + 1 && forall k :: 0 <= k < |states| ==> states[k] == Health(probes[..k])
  }

  lemma NextProbe(probes: seq<bool>, ok: bool)
    ensures Trailing(probes + [ok]) == if ok then 0 else 1 + Trailing(probes)
  {
    assert (probes + [ok])[..|probes|] == probes;
  }

  lemma FollowedNext(probes: seq<bool>, states: seq<State>, ok: bool, s: State)
    requires Followed(probes, states) && |states| == |probes| + 1
    ensures Followed(probes + [ok], states)
    ensures s == Health(probes + [ok]) ==> Followed(probes + [ok], states + [s])
  {
    hide Health;
    var probes' := probes + [ok];
    assert probes'[..|probes'|] == probes';
    forall k | 0 <= k < |states| ensures states[k] == Health(probes'[..k]) { assert probes'[..k] == probes[..k]; }
  }

  /** A rig another process ended; the copy takes on its record, with a reason if
      it lacked one. */
  method IsEndedElsewhere(d: Daemon, c: Copy) returns (ended: bool)
    requires d.Valid() && Truthful(d.Now(), c.rig)
    modifies c
    ensures Truthful(d.Now(), c.rig) && c.rig.id == old(c.rig.id)
    ensures ended <==> Ended(d.Now(), c.rig.id)
    ensures ended ==> c.rig.state.Destroyed? && c.rig.end.Some? && Over(d.Now(), c.rig.id)
    ensures ended ==> d.store.snaps[c.rig.id] == Good(c.rig)
                      || (d.store.snaps[c.rig.id] == Good(c.rig.(end := None)) && c.rig.end == Some(Ending("ended by another process", false)))
    ensures !ended ==> c.rig == old(c.rig)
  {
    hide Truthful, Gone, Over, Inv, IsRun;
    LaterItself(d.Now());
    ended := d.AdoptEnding(c);
    if ended {
      EndedIsOver(d.Now(), d.Now(), c.rig);
      if c.rig.end.None? {
        WithEnd(d.Now(), c.rig, Ending("ended by another process", false));
        c.rig := c.rig.(end := Some(Ending("ended by another process", false)));
      }
    }
  }

  /** Only a clean "not found" says an instance is gone. */
  method IsInstanceGone(d: Daemon, c: Copy) returns (gone: bool)
    requires d.Valid() && Truthful(d.Now(), c.rig)
    ensures gone ==> Gone(d.Now(), c.rig.id)
    ensures gone <==> KnownGone(d.Now(), c.rig)
  {
    hide Truthful, Gone, Inv, IsRun;
    if c.rig.inst.None? { return false; }
    var found, answered := d.provider.Get(c.rig.inst.value.id);
    MadeIsIssued(d.Now(), c.rig);
    gone := answered && found.None?;
  }

  /** One health check's outcome: the third failure in a row degrades the rig, and
      the first success after one restores it. `kept` is whether the store took
      every move so far. */
  method AfterProbe(d: Daemon, c: Copy, ok: bool, failures: nat, now: Instant, kept: bool)
      returns (failures': nat, gone: bool, kept': bool)
    requires d.Valid() && Truthful(d.Now(), c.rig)
    requires kept ==> c.rig.state == if failures >= STRIKES then Degraded else Ready
    modifies d`history, d.store`journal, d.store`snaps, c
    ensures d.Valid() && old(d.history) <= d.history && Later(old(d.Now()), d.Now())
    ensures Truthful(d.Now(), c.rig) && c.rig.id == old(c.rig.id)
    ensures c.rig.inst == old(c.rig.inst) && c.rig.quote == old(c.rig.quote)
    ensures gone <==> !ok && failures + 1 >= 3 && KnownGone(old(d.Now()), old(c.rig))
    ensures gone ==> d.history == old(d.history) && c.rig == old(c.rig)
    ensures !gone && !ok && failures + 1 == 3 ==> Stored(old(d.history), d.history, c.rig.id, Degraded) || Shows(d.Now(), Refusing(c.rig.id))
    ensures ok && failures > 0 && old(c.rig.state.Degraded?) ==>
              Stored(old(d.history), d.history, c.rig.id, Ready) || Shows(d.Now(), Refusing(c.rig.id))
    ensures !kept' ==> !kept || Shows(d.Now(), Refusing(c.rig.id))
    ensures failures' == if ok then 0 else failures + 1
    ensures gone ==> !ok && failures' >= STRIKES && Gone(d.Now(), c.rig.id) && kept' == kept
    ensures kept' && !gone ==> c.rig.state == if failures' >= STRIKES then Degraded else Ready
    ensures kept' ==> kept
  {
    hide Truthful, Gone, Inv, IsRun, Later, Shows, Stored;
    LaterItself(d.Now());
    kept', gone := kept, false;
    if !ok {
      failures' := failures + 1;
      if failures' >= STRIKES {
        gone := IsInstanceGone(d, c);
        if gone { return; }
      }
      if failures' == STRIKES {
        MayBill(d.Now(), c.rig, Degraded);
        var err := d.Move(c, Degraded, now);
        kept' := kept && (err.None? || err == Some(NotSaved));
      }
    } else {
      failures' := 0;
      if failures > 0 && c.rig.state.Degraded? {
        MayBill(d.Now(), c.rig, Ready);
        var err := d.Move(c, Ready, now);
        kept' := kept && (err.None? || err == Some(NotSaved));
      }
    }
  }

  // ---- warnings -----------------------------------------------------------

  /** One look at the idle clock, and whether it was warned of. */
  datatype Look = Look(idle: int, said: bool)

  /** One look at the budget: what is spent, the lead a warning gets, and whether
      it was given. */
  datatype Count = Count(spent: real, lead: real, said: bool)

  /** Neither over the window nor, where that would destroy the rig, about to be. */
  predicate InUse(p: Policy, idle: int) {
    idle < p.idleTimeout && !(p.idleDestroys && idle + p.warnLead >= p.idleTimeout)
  }

  predicate Near(p: Policy, c: Count) {
    p.maxUSD - c.spent <= c.lead
  }

  /** The first look of an idle stretch. */
  predicate Starts(p: Policy, looks: seq<Look>, k: nat)
    requires k < |looks|
  {
    !InUse(p, looks[k].idle) && (k > 0 ==> InUse(p, looks[k - 1].idle))
  }

  /** Each idle stretch is warned of once, when it is first seen. */
  predicate OncePerStretch(p: Policy, looks: seq<Look>) {
    forall k :: 0 <= k < |looks| ==> looks[k].said == Starts(p, looks, k)
  }

  /** The ceiling is warned of once, when it first comes near. */
  predicate OnceNear(p: Policy, counts: seq<Count>) {
    forall k :: 0 <= k < |counts| ==>
      (counts[k].said <==> Near(p, counts[k]) && forall j :: 0 <= j < k ==> !Near(p, counts[j]))
  }

  predicate WarnedIdle(p: Policy, looks: seq<Look>) {
    looks != [] && !InUse(p, looks[|looks| - 1].idle)
  }

  predicate WarnedSpend(p: Policy, counts: seq<Count>) {
    exists j :: 0 <= j < |counts| && Near(p, counts[j])
  }

  method CheckIdle(p: Policy, idle: int, warned: bool) returns (over: bool, warned': bool, said: bool)
    ensures over <==> idle >= p.idleTimeout && p.idleDestroys
    ensures !over ==> (warned' <==> !InUse(p, idle)) && (said <==> !InUse(p, idle) && !warned)
  {
    over, warned', said := false, warned, false;
    if idle >= p.idleTimeout && p.idleDestroys {
      over := true;
    } else if idle >= p.idleTimeout {
      if !warned { warned', said := true, true; }
    } else if idle + p.warnLead >= p.idleTimeout && p.idleDestroys {
      if !warned { warned', said := true, true; }
    } else {
      warned' := false;
    }
  }

  method CheckBudget(journal: seq<Entry>, r: Rig, p: Policy, now: int, warned: bool)
      returns (over: bool, warned': bool, count: Count)
    ensures count.spent == Accrued(journal, r, now) && count.lead == r.quote * Cost.Hours(p.warnLead)
    ensures over <==> count.spent >= p.maxUSD
    ensures warned' == (warned || (!over && Near(p, count))) && count.said == (!over && Near(p, count) && !warned)
  {
    hide Accrued;
    var spent := AccruedCost(journal, r, now);
    over, warned', count := false, warned, Count(spent, r.quote * Cost.Hours(p.warnLead), false);
    if spent >= p.maxUSD {
      over := true;
    } else if !warned && p.maxUSD - spent <= count.lead {
      warned', count := true, count.(said := true);
    }
  }

  lemma LookNext(p: Policy, looks: seq<Look>, look: Look)
    requires OncePerStretch(p, looks) && (look.said <==> !InUse(p, look.idle) && !WarnedIdle(p, looks))
    ensures OncePerStretch(p, looks + [look]) && (WarnedIdle(p, looks + [look]) <==> !InUse(p, look.idle))
  {
    hide InUse;
    var next := looks + [look];
    forall k | 0 <= k < |next| ensures next[k].said == Starts(p, next, k) {
      if k < |looks| { assert looks[k].said == Starts(p, looks, k); }
    }
  }

  lemma CountNext(p: Policy, counts: seq<Count>, count: Count)
    requires OnceNear(p, counts) && (count.said <==> Near(p, count) && !WarnedSpend(p, counts))
    ensures OnceNear(p, counts + [count]) && (WarnedSpend(p, counts + [count]) <==> WarnedSpend(p, counts) || Near(p, count))
  {
    var next := counts + [count];
    assert next[|counts|] == count;
    forall k | 0 <= k < |counts| ensures next[k] == counts[k] {}
    if j :| 0 <= j < |counts| && Near(p, counts[j]) { assert Near(p, next[j]); }
  }

  predicate NextCount(counts: seq<Count>, counts': seq<Count>, spent: real, lead: real) {
    |counts'| == |counts| + 1 && counts'[..|counts|] == counts && counts'[|counts|].spent == spent && counts'[|counts|].lead == lead
  }

  /** The budget before the idle window: a rig can breach a ceiling while busy. */
  method CheckDeadlines(journal: seq<Entry>, r: Rig, p: Policy, now: int, idle: int,
                        looks: seq<Look>, counts: seq<Count>, warnedIdle: bool, warnedSpend: bool)
      returns (passed: Option<Verdict>, looks': seq<Look>, counts': seq<Count>, warnedIdle': bool, warnedSpend': bool)
    requires OncePerStretch(p, looks) && warnedIdle == WarnedIdle(p, looks)
    requires OnceNear(p, counts) && warnedSpend == WarnedSpend(p, counts)
    ensures OncePerStretch(p, looks') && OnceNear(p, counts')
    ensures passed.None? ==> warnedIdle' == WarnedIdle(p, looks') && warnedSpend' == WarnedSpend(p, counts')
    ensures passed.None? && p.idleTimeout <= 0 ==> looks' == looks
    ensures p.maxUSD <= 0.0 ==> counts' == counts
    ensures passed.Some? ==> looks' == looks
    ensures passed.Some? && counts' != counts ==> NextCount(counts, counts', Accrued(journal, r, now), r.quote * Cost.Hours(p.warnLead))
    ensures passed.None? && p.maxUSD > 0.0 ==> NextCount(counts, counts', Accrued(journal, r, now), r.quote * Cost.Hours(p.warnLead))
    ensures passed.None? && p.idleTimeout > 0 ==> |looks'| == |looks| + 1 && looks'[..|looks|] == looks && looks'[|looks|].idle == idle
    ensures passed.None? || passed == Some(OverBudget(now)) || passed == Some(IdleTooLong(idle))
    ensures passed == Some(OverBudget(now)) <==> Overspent(journal, r, p, now)
    ensures passed == Some(IdleTooLong(idle)) <==> !Overspent(journal, r, p, now) && idle >= p.idleTimeout > 0 && p.idleDestroys
  {
    hide OncePerStretch, OnceNear, WarnedIdle, WarnedSpend, InUse, Near, Accrued, Cost.Hours;
    passed, looks', counts', warnedIdle', warnedSpend' := None, looks, counts, warnedIdle, warnedSpend;
    if p.maxUSD > 0.0 {
      var over, warned, count := CheckBudget(journal, r, p, now, warnedSpend);
      if over {
        passed := Some(OverBudget(now));
        return;
      }
      CountNext(p, counts, count);
      warnedSpend', counts' := warned, counts + [count];
    }
    if p.idleTimeout > 0 {
      var over, warned, said := CheckIdle(p, idle, warnedIdle);
      if over {
        passed := Some(IdleTooLong(idle));
        return;
      }
      LookNext(p, looks, Look(idle, said));
      warnedIdle', looks' := warned, looks + [Look(idle, said)];
    }
  }

  lemma NothingSaid(p: Policy)
    ensures OncePerStretch(p, []) && OnceNear(p, []) && !WarnedIdle(p, []) && !WarnedSpend(p, [])
  {}

  // ---- the loop -----------------------------------------------------------

  /** What the loop carries from one turn to the next: failures in a row, what was
      said so far, and whether the store took every move. */
  datatype Watch = Watch(failures: nat, kept: bool, looks: seq<Look>, counts: seq<Count>, warnedIdle: bool, warnedSpend: bool)

  ghost predicate Saying(p: Policy, w: Watch) {
    && OncePerStretch(p, w.looks) && w.warnedIdle == WarnedIdle(p, w.looks)
    && OnceNear(p, w.counts) && w.warnedSpend == WarnedSpend(p, w.counts)
  }

  /** One turn, in the world `at`: what it calls for, and what is carried on. */
  method Turn(d: Daemon, c: Copy, policy: Policy, poll: Poll, was: Watch) returns (verdict: Verdict, next: Watch, ghost at: World)
    requires d.Valid() && Truthful(d.Now(), c.rig) && Saying(policy, was)
    requires was.kept ==> c.rig.state == if was.failures >= STRIKES then Degraded else Ready
    modifies d`history, d.store, d.provider, c
    ensures d.Valid() && old(d.history) <= d.history && Later(old(d.Now()), d.Now())
    ensures Truthful(d.Now(), c.rig) && c.rig.id == old(c.rig.id)
    ensures at in d.history && verdict == Calls(policy, at, old(c.rig), poll, was.failures)
    ensures verdict.EndedElsewhere? ==> c.rig.state.Destroyed? && Over(d.Now(), c.rig.id)
    ensures verdict.InstanceGone? ==> Gone(d.Now(), c.rig.id)
    ensures !next.kept ==> !was.kept || Seen(old(d.history), d.history, Refusing(c.rig.id))
    ensures OncePerStretch(policy, next.looks) && OnceNear(policy, next.counts)
    ensures NextLook(policy, poll, was.looks, next.looks, !verdict.Left?)
    ensures NextSpent(policy, at, old(c.rig), poll, was.counts, next.counts, !verdict.Left?)
    ensures verdict.Left? ==> Saying(policy, next) && c.rig.inst == old(c.rig.inst) && c.rig.quote == old(c.rig.quote)
    ensures verdict.Left? ==> next.failures == if !poll.due then was.failures else if poll.ok then 0 else was.failures + 1
    ensures verdict.Left? && next.kept ==> was.kept && c.rig.state == if next.failures >= STRIKES then Degraded else Ready
    ensures !verdict.Left? ==> next.kept == was.kept
  {
    hide Truthful, Gone, Over, Inv, IsRun, Later, Accrued, Daemon.Valid, Seen, Shows, Ended, KnownGone;
    hide OncePerStretch, OnceNear, WarnedIdle, WarnedSpend, InUse, Near, Cost.Hours;
    ghost var w, r := d.Now(), c.rig;
    d.Pause(c);
    at := d.Now();
    ghost var h := d.history;
    d.NowIsLast();
    CallsIs(policy, at, r, poll, was.failures, c.rig);
    next := was;
    var ended := IsEndedElsewhere(d, c);
    if ended { return EndedElsewhere, next, at; }
    var passed, looks, counts, warnedIdle, warnedSpend :=
      CheckDeadlines(d.store.journal, c.rig, policy, poll.now, poll.idle, was.looks, was.counts, was.warnedIdle, was.warnedSpend);
    next := was.(looks := looks, counts := counts, warnedIdle := warnedIdle, warnedSpend := warnedSpend);
    if passed.Some? { return passed.value, next, at; }
    if !poll.due { return Left, next, at; }
    var failures, gone, kept := AfterProbe(d, c, poll.ok, was.failures, poll.now, was.kept);
    LaterIsTransitive(w, at, d.Now());
    if gone { return InstanceGone, next, at; }
    if was.kept && !kept { d.Sees(old(d.history), Refusing(r.id)); }
    next := next.(failures := failures, kept := kept);
    verdict := Left;
  }

  /** With a window, a turn looks at its idle time; one that ends the watch may not
      come to that. */
  predicate NextLook(p: Policy, poll: Poll, looks: seq<Look>, looks': seq<Look>, last: bool) {
    || (looks' == looks && (last || p.idleTimeout <= 0))
    || (p.idleTimeout > 0 && |looks'| == |looks| + 1 && looks'[..|looks|] == looks && looks'[|looks|].idle == poll.idle)
  }

  /** With a ceiling, it counts what the journal says has been spent. */
  ghost predicate NextSpent(p: Policy, at: World, r: Rig, poll: Poll, counts: seq<Count>, counts': seq<Count>, last: bool) {
    || (counts' == counts && (last || p.maxUSD <= 0.0))
    || (p.maxUSD > 0.0 && NextCount(counts, counts', Accrued(at.journal, r, poll.now), r.quote * Cost.Hours(p.warnLead)))
  }

  /** Watches until something says the rig should end, or the operator leaves, as
      many turns later as `polls` says. It destroys nothing. While the store takes
      its moves, the rig reads DEGRADED exactly while three or more probes in a row
      have failed. `at` is the world each turn was taken in. */
  method Supervise(d: Daemon, c: Copy, policy: Policy, polls: seq<Poll>)
      returns (verdict: Verdict, ghost at: seq<World>, ghost states: seq<State>, watch: Watch)
    requires d.Valid() && Truthful(d.Now(), c.rig) && c.rig.state.Ready?
    modifies d`history, d.store, d.provider, c
    ensures d.Valid() && old(d.history) <= d.history && Later(old(d.Now()), d.Now())
    ensures Truthful(d.Now(), c.rig) && c.rig.id == old(c.rig.id)
    ensures Among(at, d.history)
    ensures verdict.Left? ==> |at| == |polls| && NothingCalled(policy, at, old(c.rig), polls, |polls|)
    ensures !verdict.Left? ==> 0 < |at| <= |polls| && NothingCalled(policy, at, old(c.rig), polls, |at| - 1)
    ensures !verdict.Left? ==> verdict == Calls(policy, at[|at| - 1], old(c.rig), polls[|at| - 1], Trailing(Probed(polls[..|at| - 1])))
    ensures var n := if verdict.Left? then |at| else |at| - 1;
            && (watch.kept ==> Followed(Probed(polls[..n]), states) && |states| == |Probed(polls[..n])| + 1)
            && Looked(policy, polls, n, |at|, watch.looks) && Counted(policy, at, old(c.rig), polls, n, |at|, watch.counts)
    ensures !watch.kept ==> Seen(old(d.history), d.history, Refusing(c.rig.id))
    ensures verdict.EndedElsewhere? ==> c.rig.state.Destroyed? && Over(d.Now(), c.rig.id)
    ensures verdict.InstanceGone? ==> Gone(d.Now(), c.rig.id)
    ensures OncePerStretch(policy, watch.looks) && OnceNear(policy, watch.counts)
  {
    hide Truthful, Gone, Over, Inv, IsRun, Later, Trailing, Health, Followed, Daemon.Valid, Seen, Shows, Calls;
    hide OncePerStretch, OnceNear, Saying, Probed, NothingCalled, Looked, Counted, Among, NextLook, NextSpent;
    ghost var w, r, h0 := d.Now(), c.rig, d.history;
    LaterItself(w);
    at, states, watch := [], [c.rig.state], Watch(0, true, [], [], false, false);
    StartsFollowed(c.rig.state, policy, polls, r, h0);
    for i := 0 to |polls|
      invariant d.Valid() && h0 <= d.history && Later(w, d.Now())
      invariant Truthful(d.Now(), c.rig) && c.rig.id == r.id && c.rig.inst == r.inst && c.rig.quote == r.quote
      invariant watch.failures == Trailing(Probed(polls[..i])) && |states| == |Probed(polls[..i])| + 1
      invariant watch.kept ==> Followed(Probed(polls[..i]), states) && c.rig.state == if watch.failures >= STRIKES then Degraded else Ready
      invariant !watch.kept ==> Seen(h0, d.history, Refusing(r.id))
      invariant Saying(policy, watch) && OncePerStretch(policy, watch.looks) && OnceNear(policy, watch.counts)
      invariant |at| == i && NothingCalled(policy, at, r, polls, i) && Among(at, d.history)
      invariant Looked(policy, polls, i, i, watch.looks) && Counted(policy, at, r, polls, i, i, watch.counts)
    {
      ghost var w1, h1, before, seen := d.Now(), d.history, watch, at;
      CallsAlike(policy, r, c.rig);
      var turn;
      ghost var now;
      turn, watch, now := Turn(d, c, policy, polls[i], watch);
      at := at + [now];
      LaterIsTransitive(w, w1, d.Now());
      AmongNext(seen, now, h1, d.history);
      StillSeenThen(h0, h0, h1, d.history, Refusing(r.id));
      StillSeenThen(h0, h1, d.history, d.history, Refusing(r.id));
      NothingCalledNext(policy, seen, now, r, polls, i);
      LookedNext(policy, polls, i, before.looks, watch.looks, !turn.Left?);
      CountedNext(policy, seen, now, r, polls, i, before.counts, watch.counts, !turn.Left?);
      if !turn.Left? { return turn, at, states, watch; }
      ProbedNext(polls, i);
      if polls[i].due {
        NextProbe(Probed(polls[..i]), polls[i].ok);
        HealthIs(Probed(polls[..i + 1]));
        if before.kept { FollowedNext(Probed(polls[..i]), states, polls[i].ok, c.rig.state); }
        states := states + [c.rig.state];
      }
    }
    verdict := Left;
  }

  /** The looks were at the idle times of the turns, if there is a window at all. */
  predicate Looked(p: Policy, polls: seq<Poll>, least: nat, most: nat, looks: seq<Look>) {
    if p.idleTimeout <= 0 then looks == []
    else least <= |looks| <= most && |looks| <= |polls| && forall k :: 0 <= k < |looks| ==> looks[k].idle == polls[k].idle
  }

  /** The counts were of what the journal said at each turn, if there is a ceiling. */
  ghost predicate Counted(p: Policy, at: seq<World>, r: Rig, polls: seq<Poll>, least: nat, most: nat, counts: seq<Count>) {
    if p.maxUSD <= 0.0 then counts == []
    else least <= |counts| <= most && |counts| <= |polls| && |counts| <= |at|
         && forall k :: 0 <= k < |counts| ==> Spent(counts[k], at[k], r, polls[k], p)
  }

  ghost predicate Spent(count: Count, w: World, r: Rig, poll: Poll, p: Policy) {
    count.spent == Accrued(w.journal, r, poll.now) && count.lead == r.quote * Cost.Hours(p.warnLead)
  }

  predicate Among(at: seq<World>, h: seq<World>) {
    forall k :: 0 <= k < |at| ==> at[k] in h
  }

  lemma AmongNext(at: seq<World>, w: World, h: seq<World>, h': seq<World>)
    requires Among(at, h) && h <= h' && w in h'
    ensures Among(at + [w], h')
  {}

  lemma StartsFollowed(s: State, p: Policy, polls: seq<Poll>, r: Rig, h: seq<World>)
    requires s.Ready?
    ensures Probed(polls[..0]) == [] && Followed(Probed(polls[..0]), [s]) && Trailing(Probed(polls[..0])) == 0
    ensures Among([], h) && NothingCalled(p, [], r, polls, 0) && Looked(p, polls, 0, 0, []) && Counted(p, [], r, polls, 0, 0, [])
    ensures Saying(p, Watch(0, true, [], [], false, false)) && OncePerStretch(p, []) && OnceNear(p, [])
  {
    NothingSaid(p);
  }

  lemma LookedNext(p: Policy, polls: seq<Poll>, n: nat, looks: seq<Look>, looks': seq<Look>, last: bool)
    requires n < |polls| && Looked(p, polls, n, n, looks) && NextLook(p, polls[n], looks, looks', last)
    ensures Looked(p, polls, if last then n else n + 1, n + 1, looks')
  {
    if p.idleTimeout > 0 {
      forall k | 0 <= k < |looks'| ensures looks'[k].idle == polls[k].idle {
        if k < n { assert looks'[k] == looks'[..n][k]; }
      }
    }
  }

  lemma CountedNext(p: Policy, at: seq<World>, w: World, r: Rig, polls: seq<Poll>, n: nat, counts: seq<Count>, counts': seq<Count>, last: bool)
    requires n == |at| < |polls| && Counted(p, at, r, polls, n, n, counts) && NextSpent(p, w, r, polls[n], counts, counts', last)
    ensures Counted(p, at + [w], r, polls, if last then n else n + 1, n + 1, counts')
  {
    hide Accrued, Cost.Hours;
    if p.maxUSD > 0.0 {
      forall k | 0 <= k < |counts'| ensures Spent(counts'[k], (at + [w])[k], r, polls[k], p) {
        if k < n { assert counts'[k] == counts'[..n][k]; }
      }
    }
  }

  /** What a rig has cost does not depend on the state its copy says it is in. */
  lemma AccruedOf(journal: seq<Entry>, r: Rig, r': Rig, now: int)
    requires r.id == r'.id && r.inst == r'.inst
    ensures Accrued(journal, r, now) == Accrued(journal, r', now)
  {
    hide Cost.Charged;
  }

  /** The turn called for what was passed, or for a probe. */
  lemma CallsIs(p: Policy, w: World, r: Rig, poll: Poll, failed: nat, c: Rig)
    requires r.id == c.id && r.inst == c.inst
    ensures Calls(p, w, r, poll, failed) == Calls(p, w, c, poll, failed)
    ensures Accrued(w.journal, r, poll.now) == Accrued(w.journal, c, poll.now)
    ensures Overspent(w.journal, r, p, poll.now) == Overspent(w.journal, c, p, poll.now)
    ensures KnownGone(w, r) == KnownGone(w, c)
  {
    hide Accrued;
    AccruedOf(w.journal, r, c, poll.now);
  }

  lemma CallsAlike(p: Policy, r: Rig, c: Rig)
    requires r.id == c.id && r.inst == c.inst && r.quote == c.quote
    ensures forall w, poll, failed :: Calls(p, w, r, poll, failed) == Calls(p, w, c, poll, failed)
    ensures forall w, poll, counts, counts', last ::
              NextSpent(p, w, r, poll, counts, counts', last) == NextSpent(p, w, c, poll, counts, counts', last)
  {
    forall w, poll, failed ensures Calls(p, w, r, poll, failed) == Calls(p, w, c, poll, failed) {
      CallsIs(p, w, r, poll, failed, c);
    }
    forall w: World, poll: Poll, counts, counts', last
      ensures NextSpent(p, w, r, poll, counts, counts', last) == NextSpent(p, w, c, poll, counts, counts', last)
    {
      AccruedOf(w.journal, r, c, poll.now);
    }
  }

  lemma HealthIs(probes: seq<bool>)
    ensures Health(probes) == if Trailing(probes) >= STRIKES then Degraded else Ready
  {}

  /** What the journal says the rig has cost: storage it accrued while stopped
      counts as much as what it ran. */
  ghost function Accrued(journal: seq<Entry>, r: Rig, now: int): real {
    var billed := if r.inst.Some? then r.inst.value.price else 0.0;
    var charged := Cost.Charged(EntriesFor(journal, r.id), now, billed);
    charged.compute + charged.storage
  }

  ghost predicate Overspent(journal: seq<Entry>, r: Rig, p: Policy, now: int) {
    p.maxUSD > 0.0 && Accrued(journal, r, now) >= p.maxUSD
  }

  method AccruedCost(journal: seq<Entry>, r: Rig, now: int) returns (total: real)
    ensures total == Accrued(journal, r, now)
  {
    hide Cost.Charged;
    var sum := Cost.CostForRig(journal, r.id, if r.inst.Some? then r.inst.value.price else 0.0, now);
    total := sum.total;
  }
}
