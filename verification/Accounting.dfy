/** Who may be billing, as steps over a journal, snapshots and a provider.

    Any number of processes and the provider take steps in any order, and a
    process may die between any two of its own. What a create may still do is
    part of the world, though no process can see it. */
module Accounting {
  import opened Journal
  import opened Lifecycle
  import opened Store
  import opened Wrappers
  import RigId

  /** The one create of a rig: to be sent, sent and unanswered for, or settled
      with the instance it made, if it made one. */
  datatype Create = ToBeSent | InDoubt | Settled(made: Option<string>)

  /** What the surroundings allow at the moment: whether the provider answers and
      a destroy does more than stop, whether hosts do what they are asked, whether
      anyone still waits, and what is wrong with the disk. */
  datatype Weather = Weather(answering: bool, destroys: bool, hostWorks: bool, waiting: bool, fault: Fault)

  datatype World = World(
    journal: seq<Entry>,
    snaps: map<string, Snapshot>,
    instances: map<string, Instance>,
    creates: map<string, Create>,
    issued: set<string>, // every instance ID the provider ever gave out
    early: set<string>,  // rigs ended on an empty listing before their create had settled
    weather: Weather)

  predicate SettledIn(w: World, rig: string) {
    rig in w.creates && w.creates[rig].Settled?
  }

  /** The provider holds nothing for the rig, and nothing is to come. */
  predicate Gone(w: World, rig: string) {
    SettledIn(w, rig) && (w.creates[rig].made.Some? ==> w.creates[rig].made.value !in w.instances)
  }

  /** Gone, or ended before anyone could know. */
  predicate Over(w: World, rig: string) {
    Gone(w, rig) || rig in w.early
  }

  /** What a copy of a rig says is true: its instance is the one its create made,
      and one that says DESTROYED speaks of a rig that is over. */
  predicate Truthful(w: World, r: Rig) {
    && r.id in w.creates
    && (r.inst.Some? ==> w.creates[r.id] == Settled(Some(r.inst.value.id)))
    && (r.state.Destroyed? ==> Over(w, r.id))
  }

  predicate MayAppend(w: World, rig: string, to: State) {
    rig in w.creates && (Billable(to) || (to.Destroyed? && Over(w, rig)))
  }

  // ---- steps -------------------------------------------------------------

  datatype Event =
    | Append(entry: Entry)
    | EndEarly(entry: Entry)          // a teardown that saw an empty listing too soon
    | Snap(rig: Rig)
    | SpoilSnapshot(id: string)       // a snapshot that can no longer be read
    | Mint(id: string)
    | Send(id: string)                // the spend
    | MakeNothing(id: string)         // a create refused, or never to be sent
    | Land(id: string, inst: Instance)
    | Foreign(inst: Instance)         // the operator's own, or another machine's
    | Alter(inst: Instance)           // stopped, started again, billed at another rate
    | Vanish(x: string)
    | Change(weather: Weather)
    | Nothing

  function Do(w: World, ev: Event): World {
    match ev
    case Append(e) => w.(journal := w.journal + [e])
    case EndEarly(e) => w.(journal := w.journal + [e], early := w.early + {e.rig})
    case Snap(r) => w.(snaps := w.snaps[r.id := Good(r)])
    case SpoilSnapshot(id) => w.(snaps := w.snaps[id := Unreadable])
    case Mint(id) => w.(creates := w.creates[id := ToBeSent])
    case Send(id) => w.(creates := w.creates[id := InDoubt])
    case MakeNothing(id) => w.(creates := w.creates[id := Settled(None)])
    case Land(id, i) => w.(creates := w.creates[id := Settled(Some(i.id))],
                           instances := w.instances[i.id := i], issued := w.issued + {i.id})
    case Foreign(i) => w.(instances := w.instances[i.id := i], issued := w.issued + {i.id})
    case Alter(i) => w.(instances := w.instances[i.id := i])
    case Vanish(x) => w.(instances := w.instances - {x})
    case Change(weather) => w.(weather := weather)
    case Nothing => w
  }

  /** What processes and the provider may do. A process appends DESTROYED only
      for a rig that is over, or ends it early while its create has not settled;
      it saves only true copies, and sends a create only once the journal has the
      rig as costing money, or had until it was ended early. The provider never
      gives an ID twice and answers one create with one instance. */
  predicate May(w: World, ev: Event) {
    match ev
    case Append(e) => MayAppend(w, e.rig, e.to)
    case EndEarly(e) => e.to.Destroyed? && e.rig in w.creates && !SettledIn(w, e.rig)
    case Snap(r) => Truthful(w, r)
    case SpoilSnapshot(id) => true
    case Mint(id) => id !in w.creates && forall x :: x in w.instances ==> w.instances[x].tag != Some(id)
    case Send(id) => id in w.creates && w.creates[id].ToBeSent? && (Costs(w.journal, id) || id in w.early)
    case MakeNothing(id) => id in w.creates && !w.creates[id].Settled?
    case Land(id, i) => id in w.creates && w.creates[id].InDoubt? && i.id !in w.issued && i.tag == Some(id)
    case Foreign(i) => i.id !in w.issued && (i.tag.Some? ==> i.tag.value !in w.creates)
    case Alter(i) => i.id in w.instances && w.instances[i.id].tag == i.tag
    case Vanish(x) => true
    case Change(weather) => true
    case Nothing => true
  }

  // ---- what a run shows --------------------------------------------------

  /** Something that may be so at one moment of a run. */
  datatype Sight =
    | Refusing(id: string)              // the store would not write the rig
    | Faulty(id: string)                // nor would it even the end of one not yet ended
    | Claimed(id: string)               // malformed, or in use
    | Silent                            // the provider does not answer
    | Stubborn                          // a destroy only stops
    | Leaving                           // whoever waited no longer does
    | Balking                           // a host does not do what it is asked
    | Holding(x: string)
    | Missing(x: string)
    | Unlisted(id: string)              // no instance carries the rig's label
    | Labelled(id: string, x: string)   // this one does
    | Recorded(id: string)              // the rig has no snapshot, or one that would not be written

  predicate Shows(w: World, s: Sight) {
    match s
    case Refusing(id) => WontWrite(Disk(w.journal, w.snaps), w.weather.fault, id)
    case Faulty(id) => w.weather.fault != NoFault || !RigId.Valid(id)
    case Claimed(id) => !RigId.Valid(id) || id in w.creates || exists x :: x in w.instances && w.instances[x].tag == Some(id)
    case Silent => !w.weather.answering
    case Stubborn => !w.weather.destroys
    case Leaving => !w.weather.waiting
    case Balking => !w.weather.hostWorks
    case Holding(x) => x in w.instances
    case Missing(x) => x !in w.instances
    case Unlisted(id) => forall x :: x in w.instances ==> w.instances[x].tag != Some(id)
    case Labelled(id, x) => x in w.instances && w.instances[x].tag == Some(id)
    case Recorded(id) => id !in w.snaps || WontWrite(Disk(w.journal, w.snaps), w.weather.fault, id)
  }

  /** It was so at some moment from the end of one history to the end of a later. */
  predicate Seen(was: seq<World>, h: seq<World>, s: Sight) {
    exists k :: 0 <= k < |h| && |was| <= k + 1 && Shows(h[k], s)
  }

  lemma StillSeenThen(was0: seq<World>, was: seq<World>, h: seq<World>, h': seq<World>, s: Sight)
    requires was0 <= was && h <= h'
    ensures Seen(was, h, s) ==> Seen(was0, h', s)
  {
    hide Shows;
    if Seen(was, h, s) {
      var k :| 0 <= k < |h| && |was| <= k + 1 && Shows(h[k], s);
      assert h'[k] == h[k];
    }
  }

  lemma SeenNow(was: seq<World>, h: seq<World>, s: Sight)
    requires was <= h && h != [] && Shows(h[|h| - 1], s)
    ensures Seen(was, h, s)
  {}

  ghost predicate Step(w: World, w': World) {
    exists ev :: May(w, ev) && w' == Do(w, ev)
  }

  ghost predicate IsRun(h: seq<World>) {
    forall i :: 0 <= i < |h| - 1 ==> Step(h[i], h[i + 1])
  }

  /** Before anything was ever rented. */
  predicate Initial(w: World) {
    w.journal == [] && w.snaps == map[] && w.creates == map[] && w.early == {}
    && forall x :: x in w.instances ==> x in w.issued && w.instances[x].id == x
  }

  // ---- what every step keeps ---------------------------------------------

  predicate EntriesTruthful(w: World) {
    forall i :: 0 <= i < |w.journal| ==> MayAppend(w, w.journal[i].rig, w.journal[i].to)
  }

  predicate SnapshotsTruthful(w: World) {
    forall id :: id in w.snaps && w.snaps[id].Good? ==> w.snaps[id].rig.id == id && Truthful(w, w.snaps[id].rig)
  }

  /** An instance labelled for a rig of this store. */
  predicate Ours(w: World, x: string)
    requires x in w.instances
  {
    w.instances[x].tag.Some? && w.instances[x].tag.value in w.creates
  }

  predicate InstancesKnown(w: World) {
    && (forall x :: x in w.instances ==> w.instances[x].id == x && x in w.issued)
    && (forall x :: x in w.instances && Ours(w, x) ==> w.creates[w.instances[x].tag.value] == Settled(Some(x)))
  }

  predicate CreatesJournalled(w: World) {
    && (forall id :: id in w.creates && Spent(w, id) ==> LastTo(w.journal, id).Some?)
    && (forall id :: id in w.early ==> LastTo(w.journal, id).Some?)
  }

  /** The create was sent, and did not come to nothing. */
  predicate Spent(w: World, id: string)
    requires id in w.creates
  {
    w.creates[id].InDoubt? || (w.creates[id].Settled? && w.creates[id].made.Some?)
  }

  predicate MadeIssued(w: World) {
    forall id :: id in w.creates && w.creates[id].Settled? && w.creates[id].made.Some? ==> Made(w, id, w.creates[id].made.value)
  }

  predicate Made(w: World, id: string, x: string) {
    x in w.issued && (x in w.instances ==> w.instances[x].tag == Some(id))
  }

  predicate Inv(w: World) {
    EntriesTruthful(w) && SnapshotsTruthful(w) && InstancesKnown(w) && CreatesJournalled(w) && MadeIssued(w)
  }

  /** What time does not undo: a settled create stays as it settled and is not
      ended early after, an ID given out is never given again nor its label
      changed, and the journal only grows. */
  predicate Later(w: World, w': World) {
    && |w.journal| <= |w'.journal| && w'.journal[..|w.journal|] == w.journal
    && (forall id :: id in w.creates ==> id in w'.creates && (w.creates[id].Settled? ==> w'.creates[id] == w.creates[id]))
    && w.issued <= w'.issued && w.early <= w'.early
    && (forall id :: SettledIn(w, id) && id !in w.early ==> id !in w'.early)
    && (forall x :: x in w.issued && x in w'.instances ==> x in w.instances && w'.instances[x].tag == w.instances[x].tag)
  }

  lemma LaterIsTransitive(a: World, b: World, c: World)
    requires Later(a, b) && Later(b, c)
    ensures Later(a, c)
  {
    assert c.journal[..|a.journal|] == c.journal[..|b.journal|][..|a.journal|];
  }

  lemma DoIsLater(w: World, ev: Event)
    requires May(w, ev) && InstancesKnown(w)
    ensures Later(w, Do(w, ev))
  {
    if ev.EndEarly? { assert (w.journal + [ev.entry])[..|w.journal|] == w.journal; }
  }

  lemma GoneForGood(w: World, w': World, rig: string)
    requires Gone(w, rig) && Inv(w) && Later(w, w')
    ensures Gone(w', rig)
  {
    hide EntriesTruthful, SnapshotsTruthful, InstancesKnown, CreatesJournalled;
  }

  /** A rig whose create had settled before it was ended is gone, or will not be
      said to be over. */
  lemma OverIsGone(w: World, w': World, rig: string)
    requires SettledIn(w, rig) && rig !in w.early && Later(w, w') && Over(w', rig)
    ensures Gone(w', rig)
  {
    hide Gone;
  }

  lemma StillTruthful(w: World, w': World, r: Rig)
    requires Truthful(w, r) && Inv(w) && Later(w, w')
    ensures Truthful(w', r)
  {
    hide EntriesTruthful, SnapshotsTruthful, InstancesKnown, CreatesJournalled;
  }

  lemma StillAppendable(w: World, w': World, rig: string, to: State)
    requires MayAppend(w, rig, to) && Inv(w) && Later(w, w')
    ensures MayAppend(w', rig, to)
  {
    hide EntriesTruthful, SnapshotsTruthful, InstancesKnown, CreatesJournalled;
  }

  lemma EntriesStayTruthful(w: World, ev: Event)
    requires Inv(w) && May(w, ev) && Later(w, Do(w, ev))
    ensures EntriesTruthful(Do(w, ev))
  {
    hide MayAppend, Later;
    var w' := Do(w, ev);
    forall i | 0 <= i < |w'.journal| ensures MayAppend(w', w'.journal[i].rig, w'.journal[i].to) {
      if ev.EndEarly? && i == |w.journal| { EarlyMayAppend(w, ev.entry); }
      else { StillAppendable(w, w', w'.journal[i].rig, w'.journal[i].to); }
    }
  }

  lemma EarlyMayAppend(w: World, e: Entry)
    requires May(w, EndEarly(e))
    ensures MayAppend(Do(w, EndEarly(e)), e.rig, e.to)
  {}

  lemma SnapshotsStayTruthful(w: World, ev: Event)
    requires Inv(w) && May(w, ev) && Later(w, Do(w, ev))
    ensures SnapshotsTruthful(Do(w, ev))
  {
    hide Truthful, EntriesTruthful, InstancesKnown, CreatesJournalled, MadeIssued, Later;
    var w' := Do(w, ev);
    forall id | id in w'.snaps && w'.snaps[id].Good? ensures w'.snaps[id].rig.id == id && Truthful(w', w'.snaps[id].rig) {
      StillTruthful(w, w', w'.snaps[id].rig);
    }
  }

  lemma InstancesStayKnown(w: World, ev: Event)
    requires Inv(w) && May(w, ev)
    ensures InstancesKnown(Do(w, ev))
  {
    hide EntriesTruthful, SnapshotsTruthful, CreatesJournalled, Truthful, MayAppend;
  }

  lemma CreatesStayJournalled(w: World, ev: Event)
    requires Inv(w) && May(w, ev)
    ensures CreatesJournalled(Do(w, ev))
  {
    hide EntriesTruthful, SnapshotsTruthful, InstancesKnown, Truthful, MayAppend, LastTo;
    if ev.Append? || ev.EndEarly? {
      var w' := Do(w, ev);
      assert w'.journal == w.journal + [ev.entry] && w'.creates == w.creates;
      forall id | id in w'.creates && Spent(w', id) ensures LastTo(w'.journal, id).Some? {
        assert Spent(w, id);
        LastToNext(w.journal, ev.entry, id);
      }
      forall id | id in w'.early ensures LastTo(w'.journal, id).Some? { LastToNext(w.journal, ev.entry, id); }
    }
  }

  lemma MadeStaysIssued(w: World, ev: Event)
    requires Inv(w) && May(w, ev)
    ensures MadeIssued(Do(w, ev))
  {
    hide EntriesTruthful, SnapshotsTruthful, CreatesJournalled, Truthful, MayAppend;
  }

  lemma StepKeepsInv(w: World, w': World)
    requires Inv(w) && Step(w, w')
    ensures Inv(w') && Later(w, w')
  {
    hide May, Do, EntriesTruthful, SnapshotsTruthful, InstancesKnown, CreatesJournalled, MadeIssued, Later;
    var ev :| May(w, ev) && w' == Do(w, ev);
    DoIsLater(w, ev);
    EntriesStayTruthful(w, ev);
    SnapshotsStayTruthful(w, ev);
    InstancesStayKnown(w, ev);
    CreatesStayJournalled(w, ev);
    MadeStaysIssued(w, ev);
  }

  // ---- the money ---------------------------------------------------------

  /** Nothing bills unseen: every instance of a rig of this store, and every
      create that may yet make one, belongs to a rig the billable listing names;
      and whatever says DESTROYED says it of a rig the provider holds nothing for.
      The rigs ended early are the only exception. */
  predicate Accounted(w: World) {
    && (forall x :: x in w.instances && Ours(w, x) && w.instances[x].tag.value !in w.early
          ==> Costs(w.journal, w.instances[x].tag.value))
    && (forall id :: id in w.creates && w.creates[id].InDoubt? && id !in w.early ==> Costs(w.journal, id))
    && (forall i :: 0 <= i < |w.journal| && w.journal[i].to.Destroyed? ==> Over(w, w.journal[i].rig))
    && (forall id :: id in w.snaps && w.snaps[id].Good? && w.snaps[id].rig.state.Destroyed? ==> Over(w, id))
  }

  lemma {:induction false} LastEntryIs(es: seq<Entry>, id: string)
    requires LastTo(es, id).Some?
    ensures exists i :: 0 <= i < |es| && es[i].rig == id && Some(es[i].to) == LastTo(es, id)
  {
    if es[|es| - 1].rig != id {
      LastEntryIs(es[..|es| - 1], id);
      var i :| 0 <= i < |es| - 1 && es[..|es| - 1][i].rig == id && Some(es[..|es| - 1][i].to) == LastTo(es, id);
      assert es[i].rig == id;
    }
  }

  lemma NotGoneCosts(w: World, id: string)
    requires Inv(w) && LastTo(w.journal, id).Some? && !Over(w, id)
    ensures Costs(w.journal, id)
  {
    hide LastTo, SnapshotsTruthful, InstancesKnown, CreatesJournalled, MadeIssued, Over;
    LastEntryIs(w.journal, id);
    var i :| 0 <= i < |w.journal| && w.journal[i].rig == id && Some(w.journal[i].to) == LastTo(w.journal, id);
    assert MayAppend(w, w.journal[i].rig, w.journal[i].to);
  }

  lemma InvIsAccounted(w: World)
    requires Inv(w)
    ensures Accounted(w)
  {
    hide LastTo, Costs;
    forall x | x in w.instances && Ours(w, x) && w.instances[x].tag.value !in w.early
      ensures Costs(w.journal, w.instances[x].tag.value)
    {
      assert Spent(w, w.instances[x].tag.value);
      NotGoneCosts(w, w.instances[x].tag.value);
    }
    forall id | id in w.creates && w.creates[id].InDoubt? && id !in w.early ensures Costs(w.journal, id) {
      assert Spent(w, id);
      NotGoneCosts(w, id);
    }
    forall i | 0 <= i < |w.journal| && w.journal[i].to.Destroyed? ensures Over(w, w.journal[i].rig) {
      assert MayAppend(w, w.journal[i].rig, w.journal[i].to);
    }
  }

  /** Recording an end is sound exactly when the rig is gone. */
  lemma EndIsSoundIffGone(w: World, e: Entry)
    requires Inv(w) && e.to.Destroyed? && e.rig in w.creates && e.rig !in w.early
    ensures Accounted(w.(journal := w.journal + [e])) <==> Gone(w, e.rig)
  {
    var w' := w.(journal := w.journal + [e]);
    if Gone(w, e.rig) {
      assert w' == Do(w, Append(e));
      StepKeepsInv(w, w');
      InvIsAccounted(w');
    } else {
      assert w'.journal[|w.journal|] == e;
    }
  }

  /** Why early rigs are an exception: ended on an empty listing while its create is
      in doubt, a rig leaves the billable listing, and the instance that lands then
      bills unseen. */
  lemma EndedWhileInDoubt(w: World, e: Entry, i: Instance)
    requires Inv(w) && e.to.Destroyed? && e.rig in w.creates && w.creates[e.rig].InDoubt?
    requires i.id !in w.issued && i.tag == Some(e.rig)
    ensures forall x :: x in w.instances ==> w.instances[x].tag != Some(e.rig)
    ensures May(w, EndEarly(e))
    ensures var closed := Do(w, EndEarly(e));
            May(closed, Land(e.rig, i)) && !Costs(closed.journal, e.rig)
            && var landed := Do(closed, Land(e.rig, i)); Ours(landed, i.id) && !Costs(landed.journal, e.rig)
  {
    hide EntriesTruthful, SnapshotsTruthful, CreatesJournalled, MadeIssued, LastTo;
    LastToNext(w.journal, e, e.rig);
  }

  /** Every world of every run, wherever a process died, accounts for the money;
      and one rig never has two instances. */
  lemma {:induction false} RunsAreAccounted(h: seq<World>)
    requires h != [] && Inv(h[0]) && IsRun(h)
    ensures forall i :: 0 <= i < |h| ==> Inv(h[i]) && Accounted(h[i]) && Later(h[0], h[i]) && OneInstanceEach(h[i])
  {
    hide Step, Inv, Accounted, Later, OneInstanceEach;
    var n := |h| - 1;
    if n == 0 {
      InvIsAccounted(h[0]);
      OneEach(h[0]);
      LaterItself(h[0]);
    } else {
      var before := h[..n];
      forall i | 0 <= i < n - 1 ensures Step(before[i], before[i + 1]) { assert Step(h[i], h[i + 1]); }
      RunsAreAccounted(before);
      forall i | 0 <= i < n ensures Inv(h[i]) && Accounted(h[i]) && Later(h[0], h[i]) && OneInstanceEach(h[i]) {
        assert before[i] == h[i];
      }
      assert Step(h[n - 1], h[n - 1 + 1]);
      StepKeepsInv(h[n - 1], h[n]);
      InvIsAccounted(h[n]);
      LaterIsTransitive(h[0], h[n - 1], h[n]);
      OneEach(h[n]);
    }
  }

  /** In a run, a rig becomes an exception only by a step that ends it while its
      create has not settled: with no such step there is none, and every instance
      and every create in doubt is billed. */
  lemma {:induction false} EarlyOnlyByEndingTooSoon(h: seq<World>, id: string)
    requires h != [] && IsRun(h) && id !in h[0].early && id in h[|h| - 1].early
    ensures exists k :: 0 <= k < |h| - 1 && EndsTooSoon(h[k], h[k + 1], id)
  {
    hide Step, EndsTooSoon;
    var n := |h| - 1;
    var before := h[..n];
    forall i | 0 <= i < n - 1 ensures Step(before[i], before[i + 1]) { assert Step(h[i], h[i + 1]); }
    if id in h[n - 1].early {
      EarlyOnlyByEndingTooSoon(before, id);
      var k :| 0 <= k < n - 1 && EndsTooSoon(before[k], before[k + 1], id);
      assert EndsTooSoon(h[k], h[k + 1], id);
    } else {
      assert Step(h[n - 1], h[n - 1 + 1]);
      NewlyEarly(h[n - 1], h[n - 1 + 1], id);
    }
  }

  /** The step from one world to the next journals the rig's end before its create
      has settled. */
  ghost predicate EndsTooSoon(w: World, w': World, id: string) {
    id in w.creates && !SettledIn(w, id)
    && exists e: Entry :: w' == Do(w, EndEarly(e)) && e.rig == id && e.to.Destroyed?
  }

  lemma NewlyEarly(w: World, w': World, id: string)
    requires Step(w, w') && id !in w.early && id in w'.early
    ensures EndsTooSoon(w, w', id)
  {
    hide MayAppend, Truthful, Costs;
    var ev :| May(w, ev) && w' == Do(w, ev);
    assert ev.EndEarly? && w' == Do(w, EndEarly(ev.entry));
  }

  lemma LaterItself(w: World)
    ensures Later(w, w)
  {
    assert w.journal[..|w.journal|] == w.journal;
  }

  predicate OneInstanceEach(w: World) {
    forall x, y :: x in w.instances && y in w.instances && Ours(w, x) && w.instances[x].tag == w.instances[y].tag ==> x == y
  }

  lemma OneEach(w: World)
    requires Inv(w)
    ensures OneInstanceEach(w)
  {}

  lemma InitialIsInv(w: World)
    requires Initial(w)
    ensures Inv(w)
  {}

  /** A settled create whose rig no listed instance carries made nothing that is
      still there. */
  lemma NotListedIsGone(w: World, rig: string)
    requires Inv(w) && SettledIn(w, rig)
    requires forall x :: x in w.instances ==> w.instances[x].tag != Some(rig)
    ensures Gone(w, rig)
  {
    hide EntriesTruthful, SnapshotsTruthful, InstancesKnown, CreatesJournalled;
  }

  /** What a listing shows under a rig's label is what its create made. */
  lemma ListedIsMade(w: World, x: string, rig: string)
    requires Inv(w) && rig in w.creates && x in w.instances && w.instances[x].tag == Some(rig)
    ensures w.creates[rig] == Settled(Some(x)) && w.instances[x].id == x && x in w.issued
  {
    hide EntriesTruthful, SnapshotsTruthful, MadeIssued, CreatesJournalled;
  }

  lemma MadeIsIssued(w: World, r: Rig)
    requires Inv(w) && Truthful(w, r) && r.inst.Some?
    ensures SettledIn(w, r.id) && r.inst.value.id in w.issued
    ensures r.inst.value.id !in w.instances ==> Gone(w, r.id)
  {
    hide EntriesTruthful, SnapshotsTruthful, InstancesKnown, CreatesJournalled;
  }

  lemma {:induction false} StillSeen(es: seq<Entry>, n: nat, id: string)
    requires n <= |es| && LastTo(es[..n], id).Some?
    ensures LastTo(es, id).Some?
  {
    if n < |es| {
      assert es[..|es| - 1][..n] == es[..n];
      StillSeen(es[..|es| - 1], n, id);
    } else {
      assert es[..n] == es;
    }
  }

  /** A rig whose create is still to be sent, once journalled, is never left off
      the billable listing, unless it was ended early. */
  lemma UnsentStillCosts(w: World, w': World, id: string)
    requires Inv(w') && Later(w, w') && LastTo(w.journal, id).Some?
    requires id in w'.creates && w'.creates[id].ToBeSent?
    ensures Costs(w'.journal, id) || id in w'.early
  {
    hide Inv, Costs, LastTo;
    StillSeen(w'.journal, |w.journal|, id);
    if id !in w'.early { NotGoneCosts(w', id); }
  }

  lemma Extend(h: seq<World>, w: World)
    requires h != [] && IsRun(h) && Step(h[|h| - 1], w)
    ensures IsRun(h + [w])
  {
    hide Step;
    var h' := h + [w];
    forall i | 0 <= i < |h'| - 1 ensures Step(h'[i], h'[i + 1]) {
      if i < |h| - 1 { assert Step(h[i], h[i + 1]); }
    }
  }
}
