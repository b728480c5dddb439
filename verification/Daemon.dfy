/** The operations that rent, tear down, adopt and sweep, each written out as
    the steps it takes on the store and the provider, with anything allowed to
    happen in between. */
module Daemon {
  import opened Accounting
  import opened Journal
  import opened Lifecycle
  import opened Provider
  import opened Store
  import opened Wrappers
  import RigId

  datatype Fail =
    | StoreFailed(error: Error)
    | CreateFailed(cause: CreateError)
    | Unanswered | Unconfirmed | Cancelled
    | NotHere | AlreadyOver | NeverProvisioned | FoundGone | FoundStopped | NotReached
    | NotOver | HadInstance | HeldElsewhere

  function Failing(err: Option<Error>): Option<Fail> {
    if err.Some? then Some(StoreFailed(err.value)) else None
  }

  /** A labelled instance local state does not account for. */
  datatype Orphan = Orphan(inst: Instance, rig: string, known: bool)

  /** A create sent for a rig, and the instance or the error it was answered with. */
  datatype Rental = Rental(rig: string, made: Option<string>, error: Option<CreateError>)

  predicate BilledAt(r: Rig, price: real, storage: real) {
    r.inst.Some? && r.inst.value.price == price && r.inst.value.storage == storage
  }

  function IdOf(inst: Option<Instance>): Option<string> {
    if inst.Some? then Some(inst.value.id) else None
  }

  /** What became of a create that returned no instance. */
  datatype Resolution = Closed | TornDown | Unchecked | LeftInDoubt

  function WeatherOf(fault: Fault, b: Behaviour): Weather {
    Weather(!b.unreachable, !b.destroyOnlyStops, b.hostWorks, b.waiting, fault)
  }

  class Daemon {
    const store: Store
    const provider: Provider
    ghost var history: seq<World> // every world so far: a crash keeps some initial run of it
    ghost var asked: seq<string>  // the destroys this process sent
    ghost var rented: seq<Rental> // the creates it sent, and what each was answered

    constructor (s: Store, p: Provider)
      requires s.journal == [] && s.snaps == map[] && p.instances == map[] && p.creates == map[] && p.early == {}
      ensures store == s && provider == p && Valid() && Initial(history[0]) && asked == [] && rented == []
    {
      store, provider := s, p;
      var w := World(s.journal, s.snaps, p.instances, p.creates, p.issued, p.early, WeatherOf(s.fault, p.behaviour));
      history, asked, rented := [w], [], [];
      InitialIsInv(w);
    }

    ghost function Now(): World
      reads store, provider
    {
      World(store.journal, store.snaps, provider.instances, provider.creates, provider.issued, provider.early,
            WeatherOf(store.fault, provider.behaviour))
    }

    ghost predicate Valid()
      reads this, store, provider
    {
      history != [] && Inv(history[0]) && history[|history| - 1] == Now() && IsRun(history) && Inv(Now())
    }

    /** Wherever in its work a process died, the world it left accounts for every
        instance and every create still in doubt. */
    lemma EveryWorldIsAccounted()
      requires Valid()
      ensures forall i :: 0 <= i < |history| ==> Accounted(history[i]) && OneInstanceEach(history[i])
    {
      hide Inv, IsRun, Accounted, OneInstanceEach;
      RunsAreAccounted(history);
    }

    /** Only a teardown that read an empty listing before the create had settled can
        lose a rig. */
    lemma LostOnlyIfEndedTooSoon(id: string)
      requires Valid() && id in provider.early && id !in history[0].early
      ensures exists k :: 0 <= k < |history| - 1 && EndsTooSoon(history[k], history[k + 1], id)
    {
      hide Inv, IsRun;
      EarlyOnlyByEndingTooSoon(history, id);
    }

    lemma Sees(was: seq<World>, s: Sight)
      requires Valid() && was <= history && Shows(Now(), s)
      ensures Seen(was, history, s)
    {
      hide Inv, IsRun, Shows;
      SeenNow(was, history, s);
    }

    lemma Balks(was: seq<World>)
      requires Valid() && was <= history && !provider.behaviour.hostWorks
      ensures Seen(was, history, Balking)
    {
      hide Inv, IsRun;
      assert Shows(Now(), Balking);
    }

    /** What asking after an instance shows. */
    lemma AskedAfter(was: seq<World>, x: string)
      requires Valid() && was <= history
      ensures Seen(was, history, if provider.behaviour.unreachable then Silent
                                 else if x in provider.instances then Holding(x) else Missing(x))
    {
      hide Inv, IsRun;
      assert Shows(Now(), if provider.behaviour.unreachable then Silent
                          else if x in provider.instances then Holding(x) else Missing(x));
    }

    /** The instance of a true copy is as the provider has it, or the rig is gone. */
    lemma WhatIsThere(r: Rig)
      requires Valid() && Truthful(Now(), r) && r.inst.Some?
      ensures var x := r.inst.value.id;
              if x in provider.instances
              then provider.instances[x].id == x && Truthful(Now(), r.(inst := Some(provider.instances[x])))
              else Gone(Now(), r.id)
    {
      hide Inv, IsRun;
      MadeIsIssued(Now(), r);
      if r.inst.value.id in provider.instances { InstanceIdIsKey(Now(), r.inst.value.id); }
    }

    lemma KnowsInv()
      requires Valid()
      ensures Inv(Now()) && Now().creates == provider.creates
    {}

    lemma NowIsLast()
      requires Valid()
      ensures Now() in history
    {
      hide Inv, IsRun;
    }

    lemma KnowsLater(w: World, w': World, r: Rig)
      requires Inv(w) && Truthful(w, r) && Later(w, w')
      ensures Truthful(w', r)
    {
      hide Inv, Later, Truthful;
      StillTruthful(w, w', r);
    }

    lemma IsIssued(r: Rig)
      requires Valid() && Truthful(Now(), r) && r.inst.Some?
      ensures Inv(Now()) && r.inst.value.id in provider.issued && SettledIn(Now(), r.id)
    {
      hide Inv, IsRun;
      MadeIsIssued(Now(), r);
    }

    lemma FoundIsTrue(r: Rig, i: Instance)
      requires Valid() && Truthful(Now(), r) && (r.id in provider.creates ==> provider.creates[r.id] == Settled(Some(i.id)))
      ensures Truthful(Now(), r.(inst := Some(i)))
    {
      hide Inv, IsRun;
    }

    lemma EndedOrRefusing(was: seq<World>, r: Rig)
      requires Valid() && was <= history && !r.state.Destroyed? && (AlreadyEnded(r) || store.fault.AppendFails?)
      ensures Seen(was, history, Refusing(r.id))
    {
      hide Inv, IsRun;
      assert Shows(Now(), Refusing(r.id));
    }

    lemma Lingers(was: seq<World>)
      requires Valid() && was <= history && !Destroys()
      ensures Seen(was, history, Silent) || Seen(was, history, Stubborn)
    {
      hide Inv, IsRun;
      assert Shows(Now(), Silent) || Shows(Now(), Stubborn);
    }

    ghost method Note(w: World, ev: Event)
      requires history != [] && Inv(history[0]) && history[|history| - 1] == w && IsRun(history) && Inv(w)
      requires May(w, ev) && Now() == Do(w, ev)
      modifies this`history
      ensures Valid() && history == old(history) + [Now()] && Later(w, Now())
    {
      hide May, Do, Inv, IsRun, Later;
      assert Step(w, Now());
      StepKeepsInv(w, Now());
      Extend(history, Now());
      history := history + [Now()];
    }

    ghost method NoteTwo(w: World, first: Event, second: Event)
      requires history != [] && Inv(history[0]) && history[|history| - 1] == w && IsRun(history) && Inv(w)
      requires May(w, first) && May(Do(w, first), second) && Now() == Do(Do(w, first), second)
      modifies this`history
      ensures Valid() && old(history) <= history && |old(history)| < |history| && Later(w, Now())
    {
      hide May, Do, Inv, IsRun, Later;
      var between := Do(w, first);
      assert Step(w, between) && Step(between, Now());
      StepKeepsInv(w, between);
      StepKeepsInv(between, Now());
      LaterIsTransitive(w, between, Now());
      Extend(history, between);
      Extend(history + [between], Now());
      history := history + [between] + [Now()];
    }

    /** Other processes and the provider, for as long as they like: nothing is
        known of what they did but that each step was allowed. The create this
        process has yet to send is its own. */
    method Interfere(mine: Option<string>)
      requires Valid()
      modifies this`history, store, provider
      ensures Valid() && old(history) <= history && Later(old(Now()), Now())
      ensures mine.Some? && mine.value in old(provider.creates) && old(provider.creates)[mine.value].ToBeSent?
              ==> provider.creates[mine.value] == ToBeSent
    {
      LaterItself(Now());
    }

    // ---- one step at a time ----------------------------------------------

    method Intend(c: Copy, to: State, now: Instant) returns (err: Option<Error>)
      requires Valid() && MayAppend(Now(), c.rig.id, to)
      modifies this`history, store`journal
      ensures Valid() && old(history) <= history && Later(old(Now()), Now())
      ensures err == if store.fault.AppendFails? then Some(NotJournalled) else None
      ensures err.Some? ==> Shows(Now(), Refusing(c.rig.id))
      ensures err.None? ==> store.journal == old(store.journal) + [EntryOf(c.rig, to, now)]
      ensures err.None? ==> LastTo(store.journal, c.rig.id) == Some(to) && Journalled(old(history), history, c.rig.id, to)
    {
      hide Inv, Later, IsRun, MayAppend, Journalled;
      ghost var w := Now();
      var e := EntryOf(c.rig, to, now);
      err := store.RecordIntent(c, to, now, store.fault);
      LastToNext(w.journal, e, c.rig.id);
      if store.journal == w.journal { Note(w, Nothing); } else { Note(w, Append(e)); }
      if err.None? { JustJournalled(old(history), history, c.rig.id, to); }
    }

    /** A transition got as far as it did; `r` is the copy it left. */
    ghost method NoteMove(w: World, r: Rig, e: Entry, first: Event)
      requires history != [] && Inv(history[0]) && history[|history| - 1] == w && IsRun(history) && Inv(w)
      requires first == Append(e) || first == EndEarly(e)
      requires May(w, first) && (store.journal == w.journal ==> Truthful(w, r)) && Truthful(Do(w, first), r)
      requires if store.journal == w.journal then store.snaps == w.snaps
               else store.journal == w.journal + [e] && (store.snaps == w.snaps || store.snaps == w.snaps[r.id := Good(r)])
      requires Now() == w.(journal := store.journal, snaps := store.snaps, early := provider.early)
      requires provider.early == if store.journal != w.journal && first.EndEarly? then w.early + {e.rig} else w.early
      modifies this`history
      ensures Valid() && old(history) <= history && |old(history)| < |history| && Later(w, Now()) && Truthful(Now(), r)
    {
      hide Inv, Later, IsRun, Truthful, May;
      if store.journal == w.journal {
        NothingIsAllowed(w);
        Note(w, Nothing);
      } else if store.snaps == w.snaps {
        Note(w, first);
      } else {
        SavedIsTruthful(Do(w, first), r);
        NoteTwo(w, first, Snap(r));
      }
    }

    method Move(c: Copy, to: State, now: Instant) returns (err: Option<Error>)
      requires Valid() && MayAppend(Now(), c.rig.id, to) && Truthful(Now(), c.rig)
      modifies this`history, store`journal, store`snaps, c
      ensures Valid() && old(history) <= history && Later(old(Now()), Now())
      ensures Truthful(Now(), c.rig) && c.rig.id == old(c.rig.id) && c.rig.inst == old(c.rig.inst)
      ensures err.None? ==> Journalled(old(history), history, c.rig.id, to) && Stored(old(history), history, c.rig.id, to)
      ensures err.None? ==> store.snaps == old(store.snaps)[c.rig.id := Good(c.rig)]
      ensures err.Some? ==> Shows(Now(), Refusing(c.rig.id))
      ensures !WontWrite(old(store.OnDisk()), store.fault, c.rig.id) ==> err.None?
      ensures err.Some? && to.Destroyed? && old(c.rig.state.Destroyed?) ==> Shows(Now(), Faulty(c.rig.id))
      ensures c.rig == if err.None? || err == Some(NotSaved) then Moved(old(c.rig), to, now) else old(c.rig)
    {
      hide Inv, Later, IsRun, Journalled, Stored, After, LastTo, WontWrite, Shows, Truthful, May, StoredAs, DestroyedIn;
      hide RigId.Valid, MayAppend;
      ghost var w, was := Now(), c.rig;
      ghost var e := EntryOf(c.rig, to, now);
      MovedIsTruthful(w, was, to, now, e);
      err := store.Transition(c, to, now, store.fault);
      NoteMove(w, c.rig, e, Append(e));
      assert store.OnDisk() == Disk(Now().journal, Now().snaps);
      WhyRefused(Now(), store.fault, was.id);
      LastToNext(w.journal, e, was.id);
      if err.None? {
        JustJournalled(old(history), history, c.rig.id, to);
        IsStored(Now(), c.rig);
        JustStored(old(history), history, c.rig.id, to);
      }
    }

    /** A transition to DESTROYED got as far as it did; `r` is the copy it left. */
    ghost method NoteEnd(w: World, was: Rig, r: Rig, now: Instant)
      requires history != [] && Inv(history[0]) && history[|history| - 1] == w && IsRun(history) && Inv(w)
      requires Truthful(w, was) && (SettledIn(w, was.id) ==> Over(w, was.id))
      requires r == was || r == Moved(was, Destroyed, now)
      requires Now() == w.(journal := store.journal, snaps := store.snaps)
      requires if store.journal == w.journal then store.snaps == w.snaps && r == was
               else store.journal == w.journal + [EntryOf(was, Destroyed, now)]
                    && (store.snaps == w.snaps || store.snaps == w.snaps[r.id := Good(r)])
      modifies this`history, provider`early
      ensures Valid() && old(history) <= history && |old(history)| < |history| && Later(w, Now()) && Truthful(Now(), r)
      ensures Over(w, was.id) ==> provider.early == old(provider.early)
    {
      hide Inv, Later, IsRun, Truthful, Gone, May, Over, SettledIn, MayAppend, EntryOf;
      ghost var e := EntryOf(was, Destroyed, now);
      ghost var first := if Over(w, was.id) then Append(e) else EndEarly(e);
      EndIsAllowed(w, was, now, e);
      if store.journal != w.journal && !Over(w, was.id) { provider.early := provider.early + {was.id}; }
      NoteMove(w, r, e, first);
    }

    /** Journals the end and saves it. A rig that is not over, because its create has
        not settled, is ended early. */
    method End(c: Copy, now: Instant) returns (err: Option<Error>)
      requires Valid() && Truthful(Now(), c.rig)
      requires SettledIn(Now(), c.rig.id) ==> Over(Now(), c.rig.id)
      modifies this`history, store`journal, store`snaps, c, provider`early
      ensures Valid() && old(history) <= history && Later(old(Now()), Now())
      ensures Truthful(Now(), c.rig) && c.rig.id == old(c.rig.id) && c.rig.inst == old(c.rig.inst)
      ensures err.Some? ==> Shows(Now(), Refusing(c.rig.id))
      ensures err == Some(AlreadyDestroyed) ==> |old(history)| < |history| && store.snaps == old(store.snaps)
      ensures err == Some(AlreadyDestroyed) ==> RigId.Valid(c.rig.id) && StoredAs(Now(), c.rig.id, Destroyed)
      ensures err.Some? && err != Some(AlreadyDestroyed) ==> Shows(Now(), Faulty(c.rig.id))
      ensures err.None? ==> Journalled(old(history), history, c.rig.id, Destroyed) && Stored(old(history), history, c.rig.id, Destroyed)
      ensures c.rig == if err.None? || err == Some(NotSaved) then Moved(old(c.rig), Destroyed, now) else old(c.rig)
      ensures old(Over(Now(), c.rig.id)) ==> provider.early == old(provider.early)
    {
      hide Inv, Later, IsRun, Journalled, Stored, After, LastTo, Truthful, Gone, Over, SettledIn;
      hide WontWrite, Shows, DestroyedIn, StoredAs, RigId.Valid;
      ghost var w, was := Now(), c.rig;
      err := store.Transition(c, Destroyed, now, store.fault);
      NoteEnd(w, was, c.rig, now);
      LastToNext(w.journal, EntryOf(was, Destroyed, now), was.id);
      WhyRefused(Now(), store.fault, c.rig.id);
      if err.None? {
        IsStored(Now(), c.rig);
        JustJournalled(old(history), history, c.rig.id, Destroyed);
        JustStored(old(history), history, c.rig.id, Destroyed);
      }
    }

    method Load(id: string) returns (found: Option<Rig>, err: Option<Error>)
      requires Valid()
      ensures found.Some? ==> Truthful(Now(), found.value) && found.value.id == id
      ensures err == (if !RigId.Valid(id) then Some(MalformedId)
                      else if id in store.snaps && store.snaps[id].Unreadable? then Some(CannotRead) else None)
      ensures found.Some? <==> err.None? && id in store.snaps
      ensures found.Some? ==> store.snaps[id] == Good(found.value)
    {
      hide Truthful, IsRun;
      found, err := store.Load(id);
    }

    method SaveCopy(c: Copy) returns (err: Option<Error>)
      requires Valid() && Truthful(Now(), c.rig)
      modifies this`history, store`snaps
      ensures Valid() && old(history) <= history && Later(old(Now()), Now()) && Truthful(Now(), c.rig)
      ensures err.None? ==> Stored(old(history), history, c.rig.id, c.rig.state)
      ensures err.None? ==> store.snaps == old(store.snaps)[c.rig.id := Good(c.rig)]
      ensures err.Some? ==> Shows(Now(), Refusing(c.rig.id))
    {
      hide Inv, Later, IsRun, Truthful, Stored, WontWrite;
      ghost var w := Now();
      err := store.Save(c, store.fault);
      if store.snaps == w.snaps { Note(w, Nothing); } else { Note(w, Snap(c.rig)); }
      StillTruthful(w, Now(), c.rig);
      if err.None? { JustStored(old(history), history, c.rig.id, c.rig.state); }
    }

    /** Anything may happen; what a true copy says stays true. */
    method Pause(c: Copy)
      requires Valid() && Truthful(Now(), c.rig)
      modifies this`history, store, provider
      ensures Valid() && old(history) <= history && Later(old(Now()), Now()) && Truthful(Now(), c.rig)
    {
      hide Inv, Later, IsRun, Truthful;
      ghost var w := Now();
      Interfere(None);
      StillTruthful(w, Now(), c.rig);
    }

    /** Whether anything carries the rig's label, and whether that was answered. */
    method InstanceForRig(rig: string) returns (found: Option<Instance>, checked: bool)
      requires Valid()
      ensures (found.Some? ==> checked) && (checked <==> !provider.behaviour.unreachable)
      ensures found.Some? ==> Shows(Now(), Labelled(rig, found.value.id)) && provider.instances[found.value.id] == found.value
      ensures found.None? ==> Shows(Now(), if checked then Unlisted(rig) else Silent)
      ensures found.Some? && rig in provider.creates ==> provider.creates[rig] == Settled(Some(found.value.id))
      ensures checked && found.None? ==> forall x :: x in provider.instances ==> provider.instances[x].tag != Some(rig)
      ensures checked && found.None? && SettledIn(Now(), rig) ==> Gone(Now(), rig)
    {
      hide Inv, IsRun, Gone;
      var live, answered := provider.List();
      if !answered { return None, false; }
      checked := true;
      InstanceIdsAreKeys(Now());
      for i := 0 to |live|
        invariant forall j :: 0 <= j < i ==> live[j].tag != Some(rig)
      {
        if live[i].tag == Some(rig) {
          assert live[i] in live;
          ghost var x :| x in provider.instances && provider.instances[x] == live[i];
          if rig in provider.creates { ListedIsMade(Now(), x, rig); }
          return Some(live[i]), true;
        }
      }
      forall x | x in provider.instances ensures provider.instances[x].tag != Some(rig) {
        assert provider.instances[x] in live;
      }
      found := None;
      if SettledIn(Now(), rig) { NotListedIsGone(Now(), rig); }
    }

    /** The provider answers, and a destroy does more than stop. */
    predicate Destroys()
      reads provider
    {
      !provider.behaviour.unreachable && !provider.behaviour.destroyOnlyStops
    }

    method AskDestroy(id: string) returns (accepted: bool)
      requires Valid() && id in provider.issued
      modifies this`history, this`asked, provider`instances
      ensures Valid() && old(history) <= history && Later(old(Now()), Now())
      ensures asked == old(asked) + [id]
      ensures Destroys() ==> id !in provider.instances
    {
      hide Inv, IsRun, Later;
      ghost var w := Now();
      asked := asked + [id];
      accepted := provider.Destroy(id);
      if provider.instances == w.instances {
        Note(w, Nothing);
      } else if id in provider.instances {
        InstanceIdIsKey(w, id);
        Note(w, Alter(provider.instances[id]));
      } else {
        Note(w, Vanish(id));
      }
    }

    /** Asks until the provider says the instance is not there, or time is up. A
        query that fails says nothing. */
    method ConfirmAbsent(id: string) returns (confirmed: bool, cancelled: bool)
      requires Valid() && id in provider.issued
      modifies this`history, store, provider
      ensures Valid() && old(history) <= history && Later(old(Now()), Now())
      ensures confirmed ==> !cancelled && id in provider.issued && id !in provider.instances
      ensures !confirmed ==> old(Shows(Now(), Holding(id)) || Shows(Now(), Silent))
      ensures cancelled ==> Shows(Now(), Leaving)
      ensures !confirmed && !cancelled ==> old(provider.behaviour.waiting)
    {
      hide Inv, IsRun;
      ghost var w := Now();
      LaterItself(w);
      var polls :| 1 <= polls;
      for i := 0 to polls
        invariant Valid() && old(history) <= history && Later(w, Now())
        invariant if i == 0 then Now() == w else Shows(w, Holding(id)) || Shows(w, Silent)
        invariant i > 0 ==> w.weather.waiting
      {
        var found, answered := provider.Get(id);
        if answered && found.None? { return true, false; }
        if !provider.behaviour.waiting { return false, true; }
        ghost var before := Now();
        Interfere(None);
        LaterIsTransitive(w, before, Now());
      }
      return false, false;
    }

    // ---- teardown ---------------------------------------------------------

    method AdoptEnding(c: Copy) returns (adopted: bool)
      requires Valid() && Truthful(Now(), c.rig)
      modifies c
      ensures Truthful(Now(), c.rig) && c.rig.id == old(c.rig.id)
      ensures adopted <==> RigId.Valid(c.rig.id) && StoredAs(Now(), c.rig.id, Destroyed)
      ensures adopted ==> c.rig.state.Destroyed? && store.snaps[c.rig.id] == Good(c.rig)
      ensures !adopted ==> c.rig == old(c.rig)
    {
      hide IsRun, Truthful;
      var stored, err := Load(c.rig.id);
      if err.Some? || stored.None? || !stored.value.state.Destroyed? { return false; }
      c.rig := stored.value;
      adopted := true;
    }

    method RecordEnd(c: Copy, now: Instant) returns (err: Option<Fail>)
      requires Valid() && Truthful(Now(), c.rig) && (SettledIn(Now(), c.rig.id) ==> Over(Now(), c.rig.id))
      modifies this`history, store`journal, store`snaps, c, provider`early
      ensures Valid() && old(history) <= history && Later(old(Now()), Now())
      ensures Truthful(Now(), c.rig) && c.rig.id == old(c.rig.id)
      ensures err.None? ==> c.rig.state.Destroyed? && Stored([], history, c.rig.id, Destroyed)
      ensures err.None? ==> c.rig == Moved(old(c.rig), Destroyed, now) || EndedMeanwhile(old(history), history, c.rig)
      ensures err.Some? ==> c.rig.state == old(c.rig).state || c.rig.state.Destroyed?
      ensures err.Some? ==> err.value.StoreFailed? && Shows(Now(), Faulty(c.rig.id))
    {
      hide IsRun, Truthful, Gone, Over, Later, Inv, Stored, Journalled, WontWrite;
      var failed := End(c, now);
      if failed.None? { StillStored([], old(history), history, history, c.rig.id, Destroyed); }
      if failed == Some(AlreadyDestroyed) {
        var adopted := AdoptEnding(c);
        if adopted {
          JustStored([], history, c.rig.id, Destroyed);
          assert EndedMeanwhile(old(history), history, c.rig) by { assert history[|old(history)| - 1] == old(Now()); }
          return None;
        }
      }
      err := Failing(failed);
    }

    /** The copy says so, or the store does. */
    predicate AlreadyEnded(r: Rig)
      reads store, provider
    {
      r.state.Destroyed? || (RigId.Valid(r.id) && r.id in store.snaps && store.snaps[r.id].Good? && store.snaps[r.id].rig.state.Destroyed?)
    }

    /** Tears a rig down. It says so only of a rig the provider holds nothing for,
        and a rig already over is left as it is. */
    method Down(c: Copy, reason: Option<Ending>, now: Instant) returns (err: Option<Fail>)
      requires Valid() && Truthful(Now(), c.rig)
      modifies this, store, provider, c
      ensures Valid() && old(history) <= history && Later(old(Now()), Now())
      ensures Truthful(Now(), c.rig) && c.rig.id == old(c.rig.id)
      ensures err.None? ==> c.rig.state.Destroyed? && Over(Now(), c.rig.id)
      ensures err.None? && old(SettledIn(Now(), c.rig.id)) && c.rig.id !in old(provider.early) ==> Gone(Now(), c.rig.id)
      ensures err.None? && !old(c.rig.state.Destroyed?) ==> Stored([], history, c.rig.id, Destroyed)
      ensures asked != old(asked) ==> Journalled(old(history), history, c.rig.id, Draining)
      ensures err == Some(Unanswered) ==> provider.behaviour.unreachable
      ensures old(c.rig.state.Destroyed?) ==> err.None? && c.rig == old(c.rig) && history == old(history) && asked == old(asked)
      ensures old(asked) <= asked && |asked| <= |old(asked)| + 1
      ensures old(AlreadyEnded(c.rig)) ==> err.None? && history == old(history) && asked == old(asked)
      ensures old(!AlreadyEnded(c.rig) && store.fault.AppendFails?) ==> err == Some(StoreFailed(NotJournalled)) && asked == old(asked)
      ensures old(!AlreadyEnded(c.rig) && !store.fault.AppendFails?) ==>
                TornDownAsTold(c.rig.id, old(c.rig.inst), old(history), history, old(asked), asked, err)
      ensures old(!AlreadyEnded(c.rig)) && err.None? ==>
                EndedAs(Draining, old(c.rig).history, c.rig,
                        EndFor(if reason.Some? then reason.value else Ending("requested from the CLI", false), old(asked), asked),
                        now, old(history), history)
      ensures old(!AlreadyEnded(c.rig) && !store.fault.AppendFails?) && err.Some? ==>
                c.rig.state.Draining? || (c.rig.state.Destroyed? && err.value.StoreFailed?)
      ensures rented == old(rented)
    {
      hide IsRun, Truthful, Gone, Over, Later, Inv, Stored, Journalled, EndedAs, TornDownAsTold;
      ghost var w := Now();
      LaterItself(w);
      if c.rig.state.Destroyed? {
        EndedIsOver(w, Now(), c.rig);
        return None;
      }
      var adopted := AdoptEnding(c);
      if adopted {
        EndedIsOver(w, Now(), c.rig);
        JustStored([], history, c.rig.id, Destroyed);
        return None;
      }
      var term := if reason.Some? then reason.value else Ending("requested from the CLI", false);
      MayBill(Now(), c.rig, Draining);
      var failed := Intend(c, Draining, now);
      StillTruthful(w, Now(), c.rig);
      if failed.Some? { return Some(StoreFailed(failed.value)); }
      MayBill(Now(), c.rig, Draining);
      c.rig := c.rig.(state := Draining);
      ghost var drained, intended := Now(), history;
      err := Dismantle(c, term, now);
      LaterIsTransitive(w, drained, Now());
      TornDownSince(c.rig.id, old(c.rig.inst), old(history), intended, history, old(asked), asked, err);
      if err.None? { EndedIsOver(w, Now(), c.rig); }
      StillJournalled(old(history), old(history), intended, history, c.rig.id, Draining);
    }

    /** The rest of a teardown, once the journal says it is under way. */
    method Dismantle(c: Copy, term: Ending, now: Instant) returns (err: Option<Fail>)
      requires Valid() && Truthful(Now(), c.rig)
      modifies this, store, provider, c
      ensures Valid() && old(history) <= history && Later(old(Now()), Now())
      ensures Truthful(Now(), c.rig) && c.rig.id == old(c.rig.id)
      ensures err.None? ==> c.rig.state.Destroyed?
      ensures err.None? ==> Stored([], history, c.rig.id, Destroyed)
      ensures err == Some(Unanswered) ==> provider.behaviour.unreachable
      ensures old(asked) <= asked && |asked| <= |old(asked)| + 1
      ensures TornDownAsTold(c.rig.id, old(c.rig.inst), old(history), history, old(asked), asked, err)
      ensures err.None? ==>
                EndedAs(old(c.rig).state, old(c.rig).history, c.rig, EndFor(term, old(asked), asked), now, old(history), history)
      ensures err.Some? ==> c.rig.state == old(c.rig).state || (c.rig.state.Destroyed? && err.value.StoreFailed?)
      ensures rented == old(rented)
    {
      hide IsRun, Truthful, Gone, Over, Later, Inv, Stored, EndedMeanwhile, Shows;
      ghost var w := Now();
      Pause(c);
      ghost var paused, h := Now(), history;
      if c.rig.inst.None? {
        var found, checked := InstanceForRig(c.rig.id);
        TruthfulIsKnown(Now(), c.rig);
        if found.Some? {
          WithInstance(Now(), c.rig, found.value);
          c.rig := c.rig.(inst := found);
        } else if !checked {
          return Some(Unanswered);
        } else {
          if SettledIn(Now(), c.rig.id) { GoneIsOver(Now(), c.rig.id); }
          WithEnd(Now(), c.rig, term.(nothingCreated := true));
          c.rig := c.rig.(end := Some(term.(nothingCreated := true)));
          err := RecordEnd(c, now);
          LaterIsTransitive(w, paused, Now());
          SeenSince(old(history), h, history);
          return;
        }
      }
      err := DestroyAndConfirm(c, term, now);
      LaterIsTransitive(w, paused, Now());
      SeenSince(old(history), h, history);
    }

    method DestroyAndConfirm(c: Copy, term: Ending, now: Instant) returns (err: Option<Fail>)
      requires Valid() && Truthful(Now(), c.rig) && c.rig.inst.Some?
      modifies this, store, provider, c
      ensures Valid() && old(history) <= history && Later(old(Now()), Now())
      ensures Truthful(Now(), c.rig) && c.rig.id == old(c.rig.id)
      ensures err.None? ==> c.rig.state.Destroyed? && Gone(Now(), c.rig.id)
      ensures err.None? ==> Stored([], history, c.rig.id, Destroyed)
      ensures err != Some(Unanswered)
      ensures asked == old(asked) + [old(c.rig.inst.value.id)]
      ensures Excused(c.rig.id, old(c.rig.inst.value.id), old(history), history, err)
      ensures old(Destroys()) ==> Gone(Now(), c.rig.id)
      ensures err.None? ==> EndedAs(old(c.rig).state, old(c.rig).history, c.rig, term, now, old(history), history)
      ensures err.Some? ==> c.rig.state == old(c.rig).state || (c.rig.state.Destroyed? && err.value.StoreFailed?)
      ensures rented == old(rented)
    {
      hide IsRun, Truthful, Gone, Over, Later, Inv, Stored, EndedMeanwhile, Shows, Seen, Now, Valid;
      ghost var w, rig := Now(), c.rig.id;
      IsIssued(c.rig);
      var confirmed, cancelled := Remove(c.rig.inst.value.id);
      ghost var w1, h1 := Now(), history;
      KnowsInv();
      KnowsLater(w, w1, c.rig);
      WhatIsThere(c.rig);
      if cancelled { return Some(Cancelled); }
      if !confirmed { return Some(Unconfirmed); }
      WithEnd(w1, c.rig, term);
      c.rig := c.rig.(end := Some(term));
      GoneIsOver(w1, rig);
      err := RecordEnd(c, now);
      LaterIsTransitive(w, w1, Now());
      GoneForGood(w1, Now(), rig);
      if err.Some? { Sees(old(history), Faulty(rig)); }
      SeenSince(old(history), h1, history);
    }

    /** Asks for a destroy, and then until the instance is gone. */
    method Remove(id: string) returns (confirmed: bool, cancelled: bool)
      requires Valid() && id in provider.issued
      modifies this`history, this`asked, store, provider
      ensures Valid() && old(history) <= history && Later(old(Now()), Now())
      ensures asked == old(asked) + [id]
      ensures confirmed || old(Destroys()) ==> id !in provider.instances
      ensures confirmed ==> !cancelled
      ensures cancelled ==> Seen(old(history), history, Leaving)
      ensures !confirmed ==> Seen(old(history), history, Silent)
                             || (Seen(old(history), history, Stubborn) && Seen(old(history), history, Holding(id)))
    {
      hide IsRun, Later, Inv, Shows, Seen;
      ghost var w := Now();
      if !Destroys() { Lingers(history); }
      var accepted := AskDestroy(id);
      ghost var w1 := Now();
      StillIssued(w, w1, id);
      Interfere(None);
      ghost var w2, h2 := Now(), history;
      LaterIsTransitive(w, w1, w2);
      StillIssued(w, w2, id);
      confirmed, cancelled := ConfirmAbsent(id);
      if cancelled { Sees(old(history), Leaving); }
      ghost var w3 := Now();
      LaterIsTransitive(w, w2, w3);
      LaterIsTransitive(w1, w2, w3);
      if old(Destroys()) { StillAbsent(w1, w2, {id}); StillAbsent(w1, w3, {id}); }
      if !confirmed { WhyNotConfirmed(old(history), h2, history, id, old(Destroys())); }
    }

    // ---- bring-up ---------------------------------------------------------

    /** Whether an ID drawn at random is malformed or in use already, which for 80
        random bits is taken never to happen; a draw may fail all the same. */
    method Taken(id: string) returns (taken: bool)
      ensures taken <==> Shows(Now(), Claimed(id))
      ensures taken <==> !RigId.Valid(id) || id in provider.creates || exists x :: x in provider.instances && provider.instances[x].tag == Some(id)
    {
      taken := !RigId.Valid(id) || id in provider.creates || exists x :: x in provider.instances && provider.instances[x].tag == Some(id);
    }

    method MintFor(id: string)
      requires Valid() && id !in provider.creates
      requires forall x :: x in provider.instances ==> provider.instances[x].tag != Some(id)
      modifies this`history, provider`creates
      ensures Valid() && old(history) <= history && Later(old(Now()), Now())
      ensures id in provider.creates && provider.creates[id].ToBeSent?
    {
      hide Inv, IsRun, Later;
      ghost var w := Now();
      provider.creates := provider.creates[id := ToBeSent];
      Note(w, Mint(id));
    }

    /** This process will not send the create after all, or dies before it does. */
    method Abandon(id: string)
      requires Valid() && id in provider.creates && provider.creates[id].ToBeSent?
      modifies this`history, provider`creates
      ensures Valid() && old(history) <= history && Later(old(Now()), Now())
      ensures id in provider.creates && provider.creates[id] == Settled(None)
    {
      hide Inv, IsRun, Later;
      ghost var w := Now();
      provider.creates := provider.creates[id := Settled(None)];
      Note(w, MakeNothing(id));
    }

    /** The spend. */
    method Rent(id: string, price: real, storage: real) returns (inst: Option<Instance>, error: Option<CreateError>)
      requires Valid() && id in provider.creates && provider.creates[id].ToBeSent?
      requires Costs(store.journal, id) || id in provider.early
      modifies this`history, this`rented, provider
      ensures Valid() && old(history) <= history && Later(old(Now()), Now())
      ensures rented == old(rented) + [Rental(id, IdOf(inst), error)]
      ensures inst.Some? <==> error.None?
      ensures inst.Some? ==> inst.value == Instance(inst.value.id, Some(id), true, price, storage)
      ensures id in provider.creates
      ensures inst.Some? ==> provider.creates[id] == Settled(Some(inst.value.id))
      ensures error == Some(NotSent) ==> provider.creates[id] == Settled(None)
      ensures error != Some(UnknownOutcome) ==> SettledIn(Now(), id)
    {
      hide Inv, IsRun, Later, Costs;
      ghost var w := Now();
      inst, error := provider.Create(id, price, storage);
      rented := rented + [Rental(id, IdOf(inst), error)];
      ghost var made := provider.creates[id];
      if made.InDoubt? {
        Note(w, Send(id));
      } else if made.made.Some? {
        ghost var i := Instance(made.made.value, Some(id), true, price, storage);
        assert provider.creates == w.creates[id := InDoubt][id := made];
        NoteTwo(w, Send(id), Land(id, i));
      } else {
        Note(w, MakeNothing(id));
      }
    }

    /** Nothing was ever created: the rig ends with the evidence that says so. */
    method CloseNeverCreated(c: Copy, now: Instant) returns (err: Option<Error>)
      requires Valid() && Truthful(Now(), c.rig) && Gone(Now(), c.rig.id)
      modifies this`history, store`journal, store`snaps, c
      ensures Valid() && old(history) <= history && Later(old(Now()), Now())
      ensures Truthful(Now(), c.rig) && c.rig.id == old(c.rig.id) && c.rig.inst == old(c.rig.inst)
      ensures err.None? ==> c.rig.state.Destroyed? && Stored(old(history), history, c.rig.id, Destroyed)
      ensures err.Some? ==> Shows(Now(), Refusing(c.rig.id))
      ensures c.rig.state == old(c.rig.state) || c.rig.state.Destroyed?
      ensures c.rig.end.Some? && c.rig.end.value.nothingCreated
    {
      hide IsRun, Truthful, Gone, Later, Inv, Stored, Journalled, Shows;
      var end := Ending("create failed before an instance existed", true);
      WithEnd(Now(), c.rig, end);
      c.rig := c.rig.(end := Some(end));
      GoneMayEnd(Now(), c.rig);
      err := Move(c, Destroyed, now);
    }

    /** Closes out a create that returned no instance, on evidence: at once when it
        was never sent, by teardown when the label turns up, on an empty listing
        when the create has settled. One whose outcome is unknown stays FAILED, and
        so does one the provider, out of reach, says nothing of. */
    method ResolveFailedCreate(c: Copy, cause: CreateError, now: Instant) returns (how: Resolution)
      requires Valid() && Truthful(Now(), c.rig) && c.rig.inst.None? && c.rig.state.Creating?
      requires cause != UnknownOutcome ==> SettledIn(Now(), c.rig.id)
      requires cause.NotSent? ==> provider.creates[c.rig.id] == Settled(None)
      modifies this, store, provider, c
      ensures Valid() && old(history) <= history && Later(old(Now()), Now())
      ensures Truthful(Now(), c.rig) && c.rig.id == old(c.rig.id)
      ensures cause.NotSent? ==> how.Closed?
      ensures how.Closed? ==> !cause.UnknownOutcome? && c.rig.end.Some? && c.rig.end.value.nothingCreated
      ensures how.Unchecked? ==> provider.behaviour.unreachable
      ensures how.LeftInDoubt? ==> cause.UnknownOutcome?
      ensures !how.TornDown? ==> asked == old(asked) && c.rig.inst.None?
      ensures how.Unchecked? || how.LeftInDoubt? ==> c.rig.state.Failed? || c.rig.state == old(c.rig.state)
      ensures Marked(c.rig.id, old(history), history)
      ensures Resolved(how, c.rig, cause, old(history), history, old(asked), asked)
      ensures old(asked) <= asked
      ensures rented == old(rented)
    {
      hide IsRun, Truthful, Gone, Later, Inv, Stored, Journalled, Shows, Seen, Resolved, Valid, Now;
      ghost var w, was := Now(), history;
      MayBill(w, c.rig, State.Failed);
      NeverMadeIsGone(w, c.rig);
      KnowsInv();
      var warned := Move(c, State.Failed, now);
      ghost var w1, h1, id := Now(), history, c.rig.id;
      GoneForGoodIf(w, w1, id);
      StillSettled(w, w1, id);
      if warned.Some? { Sees(was, Refusing(id)); }
      how := ResolveOnEvidence(c, cause, now);
      LaterIsTransitive(w, w1, Now());
      StillMarked(id, was, h1, history);
      StillResolved(how, c.rig, cause, was, h1, history, old(asked), asked);
    }

    /** What becomes of a create without an instance, once it is marked FAILED. */
    method ResolveOnEvidence(c: Copy, cause: CreateError, now: Instant) returns (how: Resolution)
      requires Valid() && Truthful(Now(), c.rig) && c.rig.inst.None? && !c.rig.state.Destroyed?
      requires cause != UnknownOutcome ==> SettledIn(Now(), c.rig.id)
      requires cause.NotSent? ==> Gone(Now(), c.rig.id)
      modifies this, store, provider, c
      ensures Valid() && old(history) <= history && Later(old(Now()), Now())
      ensures Truthful(Now(), c.rig) && c.rig.id == old(c.rig.id)
      ensures cause.NotSent? ==> how.Closed?
      ensures how.Closed? ==> !cause.UnknownOutcome? && c.rig.end.Some? && c.rig.end.value.nothingCreated
      ensures how.Unchecked? ==> provider.behaviour.unreachable
      ensures how.LeftInDoubt? ==> cause.UnknownOutcome?
      ensures !how.TornDown? ==> asked == old(asked) && c.rig.inst.None?
      ensures how.Unchecked? || how.LeftInDoubt? ==> c.rig.state == old(c.rig.state)
      ensures Resolved(how, c.rig, cause, old(history), history, old(asked), asked)
      ensures old(asked) <= asked
      ensures rented == old(rented)
    {
      hide IsRun, Truthful, Gone, Later, Inv, Stored, Journalled, TornDownAsTold, EndedMeanwhile, EndedAs, Shows, Seen, Valid, Now;
      ghost var w, was, id := Now(), history, c.rig.id;
      if cause.NotSent? {
        var warned := CloseNeverCreated(c, now);
        if warned.Some? { Sees(was, Refusing(id)); }
        return Closed;
      }
      Pause(c);
      StillSettled(w, Now(), id);
      ghost var w2, h2 := Now(), history;
      var found, checked := InstanceForRig(c.rig.id);
      Sees(was, if found.Some? then Labelled(id, found.value.id) else if checked then Unlisted(id) else Silent);
      if !checked { return Unchecked; }
      if found.Some? {
        FoundIsTrue(c.rig, found.value);
        c.rig := c.rig.(inst := found);
        ghost var ends, before := !AlreadyEnded(c.rig) && !store.fault.AppendFails?, c.rig.history;
        if !ends { EndedOrRefusing(was, c.rig); }
        var unconfirmed := Down(c, Some(Ending("bring-up failed", false)), now);
        LaterIsTransitive(w, w2, Now());
        StillSeenThen(was, was, h2, history, Labelled(id, found.value.id));
        StillSeenThen(was, was, h2, history, Refusing(id));
        TornDownAsks(id, found.value, h2, history, old(asked), asked, unconfirmed);
        if ends {
          TornDownEnds(id, found.value, c.rig, before, Ending("bring-up failed", false), now, was, h2, history,
                       old(asked), asked, unconfirmed);
        }
        return TornDown;
      }
      if cause.UnknownOutcome? { return LeftInDoubt; }
      var warned := CloseNeverCreated(c, now);
      LaterIsTransitive(w, w2, Now());
      if warned.Some? { Sees(was, Refusing(id)); }
      StillSeenThen(was, was, h2, history, Unlisted(id));
      how := Closed;
    }

    /** Mints a rig, saves it and journals the intent. What fails here leaves a rig
        whose create is never sent. */
    method Prepare(id: string, price: real, now: Instant) returns (c: Copy, failed: Option<Error>)
      requires Valid() && RigId.Valid(id) && id !in provider.creates
      requires forall x :: x in provider.instances ==> provider.instances[x].tag != Some(id)
      modifies this`history, store, provider
      ensures Valid() && old(history) <= history && Later(old(Now()), Now())
      ensures fresh(c) && Truthful(Now(), c.rig) && c.rig.id == id && c.rig.inst.None? && c.rig.quote == price
      ensures failed.Some? ==> Seen(old(history), history, Refusing(id))
      ensures id in provider.creates
      ensures failed.Some? ==> provider.creates[id] == Settled(None)
      ensures failed.None? ==> provider.creates[id].ToBeSent? && LastTo(store.journal, id).Some? && c.rig.state.Creating?
      ensures failed.None? ==> Stored(old(history), history, id, Selected) && Journalled(old(history), history, id, Creating)
    {
      hide IsRun, Truthful, Gone, Later, Inv, Stored, Journalled, LastTo, Shows, Seen;
      ghost var w := Now();
      MintFor(id);
      ghost var minted, h1 := Now(), history;
      c := new Copy(Rig(id, Selected, price, None, None, []));
      NewIsTruthful(minted, c.rig);
      failed := SaveCopy(c);
      ghost var saved, h2 := Now(), history;
      LaterIsTransitive(w, minted, saved);
      if failed.Some? {
        Abandon(id);
        StillSeenAt(old(history), h2, history, Refusing(id));
        LaterIsTransitive(w, saved, Now());
        StillTruthful(saved, Now(), c.rig);
        return;
      }
      failed := IntendToCreate(c, now);
      LaterIsTransitive(w, saved, Now());
      StillStored(old(history), h1, h2, history, id, Selected);
      StillSeenThen(old(history), h2, history, history, Refusing(id));
      if failed.None? { StillJournalled(old(history), h2, history, history, id, Creating); }
    }

    /** The intent of a saved rig, without which its create is never sent. */
    method IntendToCreate(c: Copy, now: Instant) returns (failed: Option<Error>)
      requires Valid() && Truthful(Now(), c.rig) && c.rig.inst.None?
      requires c.rig.id in provider.creates && provider.creates[c.rig.id].ToBeSent?
      modifies this`history, store, provider, c
      ensures Valid() && old(history) <= history && Later(old(Now()), Now())
      ensures Truthful(Now(), c.rig) && c.rig == if failed.None? then old(c.rig).(state := Creating) else old(c.rig)
      ensures failed.Some? ==> Seen(old(history), history, Refusing(c.rig.id))
      ensures c.rig.id in provider.creates && provider.creates[c.rig.id] == if failed.Some? then Settled(None) else ToBeSent
      ensures failed.None? ==> LastTo(store.journal, c.rig.id).Some? && Journalled(old(history), history, c.rig.id, Creating)
    {
      hide IsRun, Truthful, Later, Inv, Journalled, LastTo, Shows, Seen;
      ghost var w := Now();
      Interfere(Some(c.rig.id));
      ghost var w1, h1 := Now(), history;
      StillTruthful(w, w1, c.rig);
      MayBill(w1, c.rig, Creating);
      failed := Intend(c, Creating, now);
      ghost var w2, h2 := Now(), history;
      LaterIsTransitive(w, w1, w2);
      StillTruthful(w1, w2, c.rig);
      if failed.Some? {
        Abandon(c.rig.id);
        StillSeenAt(old(history), h2, history, Refusing(c.rig.id));
        LaterIsTransitive(w, w2, Now());
        StillTruthful(w2, Now(), c.rig);
        return;
      }
      StillJournalled(old(history), h1, history, history, c.rig.id, Creating);
      MayBill(w2, c.rig, Creating);
      c.rig := c.rig.(state := Creating);
    }

    /** Mints a rig, journals the intent, and only then spends. It leaves a create
        in doubt only when told its outcome is unknown. */
    method Up(id: string, price: real, storage: real, now: Instant) returns (c: Copy, err: Option<Fail>)
      requires Valid() && RigId.Valid(id) && id !in provider.creates
      requires forall x :: x in provider.instances ==> provider.instances[x].tag != Some(id)
      modifies this, store, provider
      ensures Valid() && old(history) <= history && Later(old(Now()), Now())
      ensures fresh(c) && Truthful(Now(), c.rig) && c.rig.id == id
      ensures err.None? ==> c.rig.inst.Some? && c.rig.state.Provisioned? && Stored(old(history), history, id, Provisioned)
      ensures err.None? || err.value.CreateFailed? ==>
                Stored(old(history), history, id, Selected) && Journalled(old(history), history, id, Creating)
      ensures SettledIn(Now(), id) || err == Some(CreateFailed(UnknownOutcome))
      ensures err.Some? && !err.value.CreateFailed? && c.rig.inst.None? ==> id in provider.creates && provider.creates[id] == Settled(None)
      ensures if rented == old(rented) then err.Some? && err.value.StoreFailed? && Seen(old(history), history, Refusing(id)) && c.rig.inst.None?
              else |rented| == |old(rented)| + 1 && old(rented) <= rented && rented[|old(rented)|].rig == id
                   && CameOf(rented[|old(rented)|], err, c.rig, old(history), history, old(asked), asked)
                   && (rented[|old(rented)|].error.None? ==> c.rig.quote == price && BilledAt(c.rig, price, storage))
      ensures old(asked) <= asked
    {
      hide IsRun, Truthful, Gone, Later, Inv, Stored, Journalled, LastTo, Seen, CameOf;
      ghost var w := Now();
      var failed;
      c, failed := Prepare(id, price, now);
      if failed.Some? { return c, Some(StoreFailed(failed.value)); }
      ghost var prepared, h := Now(), history;
      err := Spend(c, price, storage, now);
      LaterIsTransitive(w, prepared, Now());
      StillStored(old(history), old(history), h, history, id, Selected);
      StillJournalled(old(history), old(history), h, history, id, Creating);
      if err.None? { StillStored(old(history), h, history, history, id, Provisioned); }
      StillCameOf(rented[|rented| - 1], err, c.rig, old(history), h, history, old(asked), asked);
    }

    /** From the journalled intent on: the create, and what becomes of it. */
    method Spend(c: Copy, price: real, storage: real, now: Instant) returns (err: Option<Fail>)
      requires Valid() && Truthful(Now(), c.rig) && c.rig.inst.None? && c.rig.state.Creating?
      requires LastTo(store.journal, c.rig.id).Some?
      requires c.rig.id in provider.creates && provider.creates[c.rig.id].ToBeSent?
      modifies this, store, provider, c
      ensures Valid() && old(history) <= history && Later(old(Now()), Now())
      ensures Truthful(Now(), c.rig) && c.rig.id == old(c.rig.id)
      ensures err.None? ==> c.rig.inst.Some? && c.rig.state.Provisioned? && Stored(old(history), history, c.rig.id, Provisioned)
      ensures err.Some? && !err.value.CreateFailed? ==> c.rig.inst.Some?
      ensures SettledIn(Now(), c.rig.id) || err == Some(CreateFailed(UnknownOutcome))
      ensures |rented| == |old(rented)| + 1 && old(rented) <= rented && rented[|old(rented)|].rig == c.rig.id
      ensures CameOf(rented[|old(rented)|], err, c.rig, old(history), history, old(asked), asked)
      ensures old(asked) <= asked
      ensures rented[|old(rented)|].error.None? ==> c.rig.quote == old(c.rig).quote && BilledAt(c.rig, price, storage)
    {
      hide IsRun, Truthful, Gone, Later, Inv, Costs, LastTo, Stored, Journalled, Resolved, Shows, Seen;
      ghost var w := Now();
      var id := c.rig.id;
      Interfere(Some(id));
      ghost var w1 := Now();
      StillTruthful(w, w1, c.rig);
      StillKnown(w, w1, id);
      UnsentStillCosts(w, w1, id);
      var inst, error := Rent(id, price, storage);
      ghost var w2, h2 := Now(), history;
      LaterIsTransitive(w, w1, w2);
      StillTruthful(w1, w2, c.rig);
      if error.Some? {
        var how := ResolveFailedCreate(c, error.value, now);
        LaterIsTransitive(w, w2, Now());
        StillSettled(w2, Now(), id);
        assert CameOf(Rental(id, None, error), Some(CreateFailed(error.value)), c.rig, h2, history, old(asked), asked);
        StillCameOf(Rental(id, None, error), Some(CreateFailed(error.value)), c.rig, old(history), h2, history, old(asked), asked);
        return Some(CreateFailed(error.value));
      }
      WithInstance(w2, c.rig, inst.value);
      c.rig := c.rig.(inst := inst);
      err := RecordRented(c, now);
      LaterIsTransitive(w, w2, Now());
      if err.None? { StillStored(old(history), h2, history, history, id, Provisioned); }
      StillSeenThen(old(history), h2, history, history, Refusing(id));
    }

    /** The create returned an instance. */
    method RecordRented(c: Copy, now: Instant) returns (err: Option<Fail>)
      requires Valid() && Truthful(Now(), c.rig) && c.rig.inst.Some?
      modifies this`history, store, provider, c
      ensures Valid() && old(history) <= history && Later(old(Now()), Now())
      ensures Truthful(Now(), c.rig) && c.rig.id == old(c.rig.id) && c.rig.inst == old(c.rig.inst) && SettledIn(Now(), c.rig.id)
      ensures err.None? ==> c.rig.state.Provisioned? && Stored(old(history), history, c.rig.id, Provisioned)
      ensures c.rig.state.Provisioned? || c.rig.state == old(c.rig.state)
      ensures c.rig.quote == old(c.rig).quote
      ensures err.Some? ==> err.value.StoreFailed? && Seen(old(history), history, Refusing(c.rig.id))
    {
      hide IsRun, Truthful, Later, Inv, Stored, Journalled, Shows, Seen, Valid, Now;
      ghost var w := Now();
      Pause(c);
      ghost var w1, h := Now(), history;
      MayBill(w1, c.rig, Provisioned);
      var failed := Move(c, Provisioned, now);
      LaterIsTransitive(w, w1, Now());
      IsIssued(c.rig);
      MadeIsIssued(Now(), c.rig);
      if failed.None? { StillStored(old(history), h, history, history, c.rig.id, Provisioned); }
      else { Sees(old(history), Refusing(c.rig.id)); }
      err := Failing(failed);
    }

    /** Asks after the instance until the provider reports it ready to reach, or the
        wait is given up. What it last reported replaces what the copy had. */
    method WaitForEndpoint(c: Copy) returns (ready: bool)
      requires Valid() && Truthful(Now(), c.rig) && c.rig.inst.Some?
      modifies this`history, store, provider, c
      ensures Valid() && old(history) <= history && Later(old(Now()), Now())
      ensures Truthful(Now(), c.rig) && c.rig.inst.Some?
      ensures c.rig == old(c.rig).(inst := c.rig.inst) && c.rig.inst.value.id == old(c.rig).inst.value.id
      ensures ready ==> c.rig.inst.value.id in provider.instances && provider.instances[c.rig.inst.value.id] == c.rig.inst.value
      ensures !ready ==> c.rig == old(c.rig)
      ensures !ready ==> Shows(old(Now()), Silent) || Shows(old(Now()), Balking) || Seen(old(history), history, Missing(c.rig.inst.value.id))
    {
      hide IsRun, Truthful, Later, Inv;
      ghost var w := Now();
      LaterItself(w);
      var polls :| 1 <= polls;
      for i := 0 to polls
        invariant Valid() && old(history) <= history && Later(w, Now())
        invariant Truthful(Now(), c.rig) && c.rig == old(c.rig)
        invariant if i == 0 then Now() == w else Shows(w, Silent) || Shows(w, Balking)
      {
        var inst, answered := provider.Get(c.rig.inst.value.id);
        if answered && inst.None? {
          SeenNow(old(history), history, Missing(c.rig.inst.value.id));
          return false;
        }
        if answered && provider.behaviour.hostWorks {
          InstanceIdIsKey(Now(), c.rig.inst.value.id);
          InstanceRefreshed(Now(), c.rig, inst.value);
          c.rig := c.rig.(inst := inst);
          return true;
        }
        ghost var before := Now();
        Pause(c);
        LaterIsTransitive(w, before, Now());
      }
      ready := false;
    }

    /** Brings a provisioned rig up to READY: its endpoint and then its host key are
        saved, and a rig ended meanwhile is let be. Everything on the host may fail. */
    method Boot(c: Copy, now: Instant) returns (err: Option<Fail>)
      requires Valid() && Truthful(Now(), c.rig) && c.rig.inst.Some?
      modifies this`history, store, provider, c
      ensures Valid() && old(history) <= history && Later(old(Now()), Now())
      ensures Truthful(Now(), c.rig) && c.rig.id == old(c.rig.id) && c.rig.inst.Some?
      ensures c.rig.inst.value.id == old(c.rig).inst.value.id
      ensures err.None? ==> c.rig.state.Ready?
      ensures err.None? ==> Stored(old(history), history, c.rig.id, Bootstrapping) && Stored(old(history), history, c.rig.id, Ready)
      ensures BootExcused(c.rig.id, c.rig.inst.value.id, old(history), history, err)
      ensures c.rig.state in {old(c.rig.state), Bootstrapping, Ready}
    {
      hide IsRun, Truthful, Gone, Later, Inv, Stored, Journalled, Shows, Seen;
      ghost var w := Now();
      Pause(c);
      ghost var w0, h0 := Now(), history;
      LaterIsTransitive(w, w, w0);
      var reached := WaitForEndpoint(c);
      ghost var w1 := Now();
      LaterIsTransitive(w, w0, w1);
      SeenSince(old(history), h0, history);
      if !reached {
        NotReachedIs(old(history), h0, history, c.rig.inst.value.id);
        return Some(NotReached);
      }
      var failed := SaveCopy(c);
      LaterIsTransitive(w, w1, Now());
      if failed.Some? { SeenNow(old(history), history, Refusing(c.rig.id)); }
      if failed == Some(AlreadyDestroyed) { return Some(AlreadyOver); }
      ghost var w2, h := Now(), history;
      err := BootPinned(c, now);
      LaterIsTransitive(w, w2, Now());
      SeenSince(old(history), h, history);
      if err.None? {
        StillStored(old(history), h, history, history, c.rig.id, Bootstrapping);
        StillStored(old(history), h, history, history, c.rig.id, Ready);
      }
    }

    /** The rest of a boot, once the endpoint is known. */
    method BootPinned(c: Copy, now: Instant) returns (err: Option<Fail>)
      requires Valid() && Truthful(Now(), c.rig) && c.rig.inst.Some?
      modifies this`history, store, provider, c
      ensures Valid() && old(history) <= history && Later(old(Now()), Now())
      ensures Truthful(Now(), c.rig) && c.rig.id == old(c.rig.id) && c.rig.inst == old(c.rig.inst)
      ensures err.None? ==> c.rig.state.Ready?
      ensures err.None? ==> Stored(old(history), history, c.rig.id, Bootstrapping) && Stored(old(history), history, c.rig.id, Ready)
      ensures BootExcused(c.rig.id, c.rig.inst.value.id, old(history), history, err)
      ensures c.rig.state in {old(c.rig.state), Bootstrapping, Ready}
    {
      hide IsRun, Truthful, Gone, Later, Inv, Stored, Journalled, Seen, Shows, Valid, Now;
      ghost var w, was := Now(), history;
      Pause(c);
      ghost var w1 := Now();
      if !provider.behaviour.hostWorks { Balks(was); return Some(NotReached); }
      var failed := SaveCopy(c);
      if failed.Some? { Sees(was, Refusing(c.rig.id)); }
      ghost var w2 := Now();
      LaterIsTransitive(w, w1, w2);
      if failed == Some(AlreadyDestroyed) { return Some(AlreadyOver); }
      Pause(c);
      ghost var w3, h3 := Now(), history;
      LaterIsTransitive(w, w2, w3);
      if !provider.behaviour.hostWorks { Balks(was); return Some(NotReached); }
      MayBill(w3, c.rig, Bootstrapping);
      failed := Move(c, Bootstrapping, now);
      ghost var w4, h4 := Now(), history;
      LaterIsTransitive(w, w3, w4);
      if failed.Some? { Sees(was, Refusing(c.rig.id)); return Failing(failed); }
      Pause(c);
      ghost var w5, h5 := Now(), history;
      LaterIsTransitive(w, w4, w5);
      if !provider.behaviour.hostWorks { Balks(was); return Some(NotReached); }
      MayBill(w5, c.rig, Ready);
      failed := Move(c, Ready, now);
      LaterIsTransitive(w, w5, Now());
      StillStored(old(history), h3, h4, history, c.rig.id, Bootstrapping);
      if failed.None? { StillStored(old(history), h5, history, history, c.rig.id, Ready); }
      else { Sees(was, Refusing(c.rig.id)); }
      err := Failing(failed);
    }

    // ---- adoption ---------------------------------------------------------

    /** The stored copy of a rig to take up again. The ID is one that a listing of
        the store showed, or else one no store would hold. */
    method ToAdopt(id: string) returns (c: Option<Copy>, err: Option<Fail>)
      requires Valid() && (!RigId.Valid(id) || id in store.snaps)
      ensures c.Some? <==> err.None?
      ensures !RigId.Valid(id) ==> err == Some(StoreFailed(MalformedId))
      ensures err != Some(FoundGone)
      ensures RigId.Valid(id) && store.snaps[id].Unreadable? ==> err == Some(StoreFailed(CannotRead))
      ensures RigId.Valid(id) && store.snaps[id].Good? && store.snaps[id].rig.state.Destroyed? ==> err == Some(AlreadyOver)
      ensures RigId.Valid(id) && store.snaps[id].Good? && !store.snaps[id].rig.state.Destroyed? ==>
                if store.snaps[id].rig.inst.None? then err == Some(NeverProvisioned) else c.Some?
      ensures c.Some? ==> fresh(c.value) && Truthful(Now(), c.value.rig) && c.value.rig.id == id && c.value.rig.inst.Some?
      ensures c.Some? ==> id in store.snaps && store.snaps[id] == Good(c.value.rig) && !c.value.rig.state.Destroyed?
    {
      hide IsRun, Truthful;
      var found, failed := Load(id);
      if failed.Some? { return None, Some(StoreFailed(failed.value)); }
      if found.value.state.Destroyed? { return None, Some(AlreadyOver); }
      if found.value.inst.None? { return None, Some(NeverProvisioned); }
      var copy := new Copy(found.value);
      return Some(copy), None;
    }

    /** Takes up a rig whose process died. The provider is asked first: a rig found
        gone is ended there and then, one found stopped is reported and still
        billed. The rest of the reconnection may fail at any point, before or after
        there is something to close. */
    method Adopt(c: Copy, now: Instant) returns (built: bool, err: Option<Fail>)
      requires Valid() && Truthful(Now(), c.rig) && c.rig.inst.Some?
      modifies this`history, store, provider, c
      ensures Valid() && old(history) <= history && Later(old(Now()), Now())
      ensures Truthful(Now(), c.rig) && c.rig.id == old(c.rig.id) && c.rig.inst.Some?
      ensures c.rig.inst.value.id == old(c.rig).inst.value.id
      ensures err.None? ==> built && c.rig.state.Ready? && Stored(old(history), history, c.rig.id, Ready)
      ensures err == Some(FoundGone) ==> !built && Gone(Now(), c.rig.id)
      ensures err == Some(FoundStopped) ==> !built && !c.rig.inst.value.running
      ensures err == Some(FoundStopped) ==> Stored(old(history), history, c.rig.id, Stopped) || Seen(old(history), history, Refusing(c.rig.id))
      ensures err == Some(FoundGone) ==> Stored(old(history), history, c.rig.id, Destroyed) || Seen(old(history), history, Refusing(c.rig.id))
      ensures err == Some(FoundGone) ==> c.rig.end == Some(Ending("the provider no longer has the instance", false))
      ensures !(err == Some(Unanswered) || err == Some(FoundGone) || err == Some(FoundStopped)) ==> c.rig.inst.value.running
      ensures AdoptExcused(c.rig.id, c.rig.inst.value.id, old(history), history, err)
    {
      hide IsRun, Truthful, Gone, Later, Inv, Stored, Journalled, Seen, Shows, Valid, Now;
      ghost var w, was := Now(), history;
      Pause(c);
      ghost var w1, h1 := Now(), history;
      WhatIsThere(c.rig);
      var inst, answered := provider.Get(c.rig.inst.value.id);
      AskedAfter(was, c.rig.inst.value.id);
      if !answered { return false, Some(Unanswered); }
      if inst.None? {
        RecordFoundGone(c, now);
        LaterIsTransitive(w, w1, Now());
        SeenSince(was, h1, history);
        if Stored(h1, history, c.rig.id, Destroyed) { StillStored(was, h1, history, history, c.rig.id, Destroyed); }
        StillSeenThen(was, was, h1, history, Missing(c.rig.inst.value.id));
        return false, Some(FoundGone);
      }
      c.rig := c.rig.(inst := inst);
      if !inst.value.running {
        MayBill(w1, c.rig, Stopped);
        var warned := Move(c, Stopped, now);
        LaterIsTransitive(w, w1, Now());
        StillSeenThen(was, was, h1, history, Holding(c.rig.inst.value.id));
        if warned.Some? { Sees(was, Refusing(c.rig.id)); } else { StillStored(was, h1, history, history, c.rig.id, Stopped); }
        return false, Some(FoundStopped);
      }
      built, err := Reconnect(c, now);
      LaterIsTransitive(w, w1, Now());
      SeenSince(was, h1, history);
      StillSeenThen(was, was, h1, history, Holding(c.rig.inst.value.id));
      if err.None? { StillStored(was, h1, history, history, c.rig.id, Ready); }
    }

    /** The provider has said it does not hold the rig's instance. */
    method RecordFoundGone(c: Copy, now: Instant)
      requires Valid() && Truthful(Now(), c.rig) && c.rig.inst.Some? && Gone(Now(), c.rig.id)
      modifies this`history, store`journal, store`snaps, c
      ensures Valid() && old(history) <= history && Later(old(Now()), Now())
      ensures Truthful(Now(), c.rig) && c.rig.id == old(c.rig.id) && c.rig.inst == old(c.rig.inst) && Gone(Now(), c.rig.id)
      ensures Stored(old(history), history, c.rig.id, Destroyed) || Seen(old(history), history, Refusing(c.rig.id))
      ensures c.rig.end == Some(Ending("the provider no longer has the instance", false))
    {
      hide IsRun, Truthful, Gone, Later, Inv, Stored, Journalled, Seen, Shows, Valid;
      KnowsInv();
      ghost var w := Now();
      var end := Ending("the provider no longer has the instance", false);
      WithEnd(w, c.rig, end);
      c.rig := c.rig.(end := Some(end));
      GoneMayEnd(w, c.rig);
      var warned := Move(c, Destroyed, now);
      GoneForGood(w, Now(), c.rig.id);
      if warned.Some? { Sees(old(history), Refusing(c.rig.id)); }
    }

    /** The rest of an adoption, of an instance found running. */
    method Reconnect(c: Copy, now: Instant) returns (built: bool, err: Option<Fail>)
      requires Valid() && Truthful(Now(), c.rig)
      modifies this`history, store, provider, c
      ensures Valid() && old(history) <= history && Later(old(Now()), Now())
      ensures Truthful(Now(), c.rig) && c.rig.id == old(c.rig.id) && c.rig.inst == old(c.rig.inst)
      ensures err.None? ==> built && c.rig.state.Ready? && Stored(old(history), history, c.rig.id, Ready)
      ensures err.None? || err == Some(NotReached) || err.value.StoreFailed?
      ensures err == Some(NotReached) ==> Seen(old(history), history, Balking)
      ensures err.Some? && err.value.StoreFailed? ==> built && Seen(old(history), history, Refusing(c.rig.id))
    {
      hide IsRun, Truthful, Gone, Later, Inv, Stored, Journalled, Seen, Shows, Valid, Now;
      ghost var w, was := Now(), history;
      var warned := SaveCopy(c);
      ghost var w1 := Now();
      Pause(c);
      ghost var w2 := Now();
      LaterIsTransitive(w, w1, w2);
      built := provider.behaviour.hostWorks;
      if !built { Balks(was); return false, Some(NotReached); }
      Pause(c);
      ghost var w3, h := Now(), history;
      LaterIsTransitive(w, w2, w3);
      if !provider.behaviour.hostWorks { Balks(was); return true, Some(NotReached); }
      MayBill(w3, c.rig, Ready);
      var failed := Move(c, Ready, now);
      LaterIsTransitive(w, w3, Now());
      if failed.None? { StillStored(was, h, history, history, c.rig.id, Ready); } else { Sees(was, Refusing(c.rig.id)); }
      err := Failing(failed);
    }

    // ---- orphans ----------------------------------------------------------

    /** The snapshots by rig; none when they cannot all be read. */
    method KnownRigs() returns (known: map<string, Rig>)
      requires Valid()
      ensures forall r :: r in known ==> r in store.snaps && store.snaps[r] == Good(known[r])
      ensures forall r :: r in known <==> IsKnown(Now(), r)
    {
      hide IsRun;
      SnapshotsAreKeyed(Now());
      hide Inv;
      known := map[];
      var rigs, err := store.List();
      if err.Some? { return; }
      for i := 0 to |rigs|
        invariant forall r :: r in known ==> r in store.snaps && store.snaps[r] == Good(known[r])
        invariant forall r :: r in known <==> exists j :: 0 <= j < i && rigs[j].id == r
      {
        assert rigs[i] in rigs;
        known := known[rigs[i].id := rigs[i]];
      }
      forall r | IsKnown(Now(), r) ensures r in known {
        assert store.snaps[r].rig in rigs;
      }
      assert Readable(Now());
    }

    /** Every labelled instance the provider lists, but for those of rigs in a
        state that expects one; no other. */
    method Orphans() returns (out: seq<Orphan>, answered: bool, ghost listed: World, ghost read: World)
      requires Valid()
      modifies this`history, store, provider
      ensures Valid() && old(history) <= history && Later(old(Now()), Now())
      ensures listed in history && read in history && Later(listed, read) && Later(read, Now()) && Inv(listed) && Inv(read)
      ensures forall o :: o in out ==> Unaccounted(o, listed, read) && (o.known <==> IsKnown(read, o.rig))
      ensures forall i, j :: 0 <= i < j < |out| ==> out[i].inst.id != out[j].inst.id
      ensures answered ==> ReportsRest(out, listed, read)
      ensures answered <==> old(!provider.behaviour.unreachable)
      ensures !answered ==> out == []
      ensures asked == old(asked) && rented == old(rented) && listed == old(Now())
    {
      hide IsRun, Later, Inv;
      ghost var w := Now();
      LaterItself(w);
      out, listed, read := [], w, w;
      var live: seq<Instance>;
      live, answered := provider.List();
      if !answered { return; }
      InstanceIdsAreKeys(w);
      assert forall i :: 0 <= i < |live| ==> live[i] in live;
      Interfere(None);
      read := Now();
      LaterItself(read);
      var known := KnownRigs();
      out := Classify(live, known);
      forall o | o in out ensures Unaccounted(o, listed, read) && (o.known <==> IsKnown(read, o.rig)) {
        assert o.inst in live;
        assert o.inst.id in listed.instances && listed.instances[o.inst.id] == o.inst;
      }
      forall x | x in listed.instances && listed.instances[x].tag.Some?
        ensures Reported(out, listed.instances[x]) <==> !MayHave(read, listed.instances[x].tag.value)
      {
        assert listed.instances[x] in live;
      }
    }

    /** Removes one resource and proves it is gone. One this provider does not hold
        is not destroyed, however absent it looks. */
    method DestroyOrphan(id: string) returns (err: Option<Fail>)
      requires Valid()
      modifies this, store, provider
      ensures Valid() && old(history) <= history && Later(old(Now()), Now())
      ensures err.None? ==> id in old(provider.instances) && id in provider.issued && id !in provider.instances
      ensures asked == if old(provider.behaviour.unreachable) || id !in old(provider.instances) then old(asked) else old(asked) + [id]
      ensures err == Some(Unanswered) <==> old(provider.behaviour.unreachable)
      ensures err == Some(NotHere) <==> old(!provider.behaviour.unreachable) && id !in old(provider.instances)
      ensures err.Some? ==> err.value in {Unanswered, NotHere, Unconfirmed, Cancelled}
      ensures err == Some(Cancelled) ==> Seen(old(history), history, Leaving)
      ensures old(Destroys()) && id in old(provider.instances) ==> err.None?
      ensures rented == old(rented)
    {
      hide IsRun, Later, Inv;
      ghost var w := Now();
      LaterItself(w);
      var inst, answered := provider.Get(id);
      if !answered { return Some(Unanswered); }
      if inst.None? { return Some(NotHere); }
      InstancesAreIssued(w);
      var accepted := AskDestroy(id);
      ghost var w1 := Now();
      StillIssued(w, w1, id);
      var confirmed, cancelled := ConfirmAbsent(id);
      LaterIsTransitive(w, w1, Now());
      if cancelled { Sees(old(history), Leaving); }
      if cancelled { return Some(Cancelled); }
      if !confirmed { return Some(Unconfirmed); }
      err := None;
    }

    /** Ends the rig whose resource a sweep destroyed. */
    method RecordReaped(o: Orphan, now: Instant)
      requires Valid() && (o.rig in provider.creates ==> Gone(Now(), o.rig))
      modifies this`history, store`journal, store`snaps
      ensures Valid() && old(history) <= history && Later(old(Now()), Now())
      ensures Shows(Now(), Recorded(o.rig))
      ensures o.rig in old(store.snaps) && !WontWrite(old(store.OnDisk()), store.fault, o.rig) ==>
                store.snaps == old(store.snaps)[o.rig := Good(Swept(old(store.snaps)[o.rig].rig, now))]
    {
      hide IsRun, Later, Inv, Gone, Truthful;
      LaterItself(Now());
      var rig, err := Load(o.rig);
      if err.Some? || rig.None? { return; }
      TruthfulIsKnown(Now(), rig.value);
      var end := Ending("destroyed by orphan sweep", false);
      WithEnd(Now(), rig.value, end);
      var c := new Copy(rig.value.(end := Some(end)));
      GoneMayEnd(Now(), c.rig);
      var ignored := Move(c, Destroyed, now);
    }

    /** One reported resource: destroyed, proven gone, and its rig ended if known. */
    method Reap(o: Orphan, now: Instant, ghost listed: World, ghost read: World) returns (gone: bool)
      requires Valid() && Unaccounted(o, listed, read)
      requires Later(listed, read) && Later(read, Now()) && Inv(listed) && Inv(read)
      modifies this, store, provider
      ensures Valid() && old(history) <= history && Later(old(Now()), Now())
      ensures gone ==> ProvenAbsent(Now(), {o.inst.id})
      ensures asked == old(asked) || asked == old(asked) + [o.inst.id]
      ensures Reaped(o, gone, old(history), history, asked != old(asked))
      ensures rented == old(rented)
    {
      hide IsRun, Later, Inv, Gone, Truthful, Unaccounted, Shows, Seen;
      ghost var w, was := Now(), history;
      Interfere(None);
      ghost var w1, h1 := Now(), history;
      LaterIsTransitive(read, w, w1);
      AskedAfter(was, o.inst.id);
      if !Destroys() { Lingers(was); }
      var err := DestroyOrphan(o.inst.id);
      ghost var w2, h2 := Now(), history;
      LaterIsTransitive(w, w1, w2);
      HandledSince(o.inst.id, err.None?, was, was, h1, h2, asked != old(asked));
      if err.Some? { return false; }
      gone := true;
      if o.known {
        ReapedIsGone(o, listed, read, w1, w2);
        RecordReaped(o, now);
        LaterIsTransitive(w, w2, Now());
        StillAbsent(w2, Now(), {o.inst.id});
        Sees(was, Recorded(o.rig));
        HandledSince(o.inst.id, true, was, was, h2, history, true);
      }
    }

    /** Destroys what Orphans reports, and nothing else. The count is exactly of
        those proven absent, and with no failure it is all of them. */
    method SweepOrphans(now: Instant)
        returns (destroyed: nat, failed: bool, ghost reported: seq<Orphan>, ghost proven: set<string>,
                 ghost listed: World, ghost read: World)
      requires Valid()
      modifies this, store, provider
      ensures Valid() && old(history) <= history && Later(old(Now()), Now())
      ensures destroyed == |proven| && ProvenAbsent(Now(), proven)
      ensures forall x :: x in proven ==> ReportedId(reported, x)
      ensures !failed ==> forall o :: o in reported ==> o.inst.id in proven
      ensures AskedOnly(old(asked), asked, reported)
      ensures listed in history && read in history
      ensures forall o :: o in reported ==> Unaccounted(o, listed, read) && (o.known <==> IsKnown(read, o.rig))
      ensures listed == old(Now())
      ensures if old(provider.behaviour.unreachable) then failed && reported == [] else ReportsRest(reported, listed, read)
      ensures forall o :: o in reported ==> Reaped(o, o.inst.id in proven, old(history), history, o.inst.id in asked[|old(asked)|..])
      ensures failed ==> old(provider.behaviour.unreachable) || exists o :: o in reported && o.inst.id !in proven
      ensures rented == old(rented)
    {
      hide IsRun, Later, Inv, Unaccounted, Valid, AskedOnly, ReportedId, ProvenAbsent, Now, Reaped, IsKnown, ReportsRest, AllReaped, Tally;
      ghost var w, was, h0 := Now(), asked, history;
      var orphans, answered;
      orphans, answered, listed, read := Orphans();
      reported, proven, destroyed, failed := orphans, {}, 0, false;
      NothingAskedYet(asked, reported);
      NothingProvenYet(Now());
      NothingReaped(orphans, h0, history, asked[|was|..]);
      if !answered { failed := true; return; }
      ghost var seen := history;
      for i := 0 to |orphans|
        invariant Valid() && seen <= history && Later(w, Now()) && Later(read, Now())
        invariant Tally(orphans, i, proven, destroyed, failed) && ProvenAbsent(Now(), proven)
        invariant AskedOnly(was, asked, reported) && was <= asked && rented == old(rented)
        invariant AllReaped(orphans, i, proven, h0, history, asked[|was|..])
      {
        var o := orphans[i];
        assert o in reported;
        ghost var before, askedBefore, h := Now(), asked, history;
        var gone := Reap(o, now, listed, read);
        OneMoreTallied(orphans, i, proven, destroyed, failed, gone);
        OneMoreReaped(orphans, i, proven, gone, h0, h, history, was, askedBefore, asked);
        LaterIsTransitive(w, before, Now());
        LaterIsTransitive(read, before, Now());
        AskedOneMore(was, askedBefore, reported, o);
        StillAbsent(before, Now(), proven);
        if !gone { failed := true; continue; }
        OneMoreProven(Now(), proven, o.inst.id);
        destroyed := destroyed + 1;
        proven := proven + {o.inst.id};
      }
      AllTallied(orphans, proven, destroyed, failed);
      AllAreReaped(orphans, proven, h0, history, asked[|was|..]);
    }

    // ---- the operator's word ----------------------------------------------

    /** The copy, the journal or the provider knows of an instance. */
    predicate SomethingWas(r: Rig)
      reads store, provider
    {
      || r.inst.Some?
      || (exists i :: 0 <= i < |store.journal| && store.journal[i].rig == r.id && store.journal[i].instance.Some?)
      || (!provider.behaviour.unreachable && exists x :: x in provider.instances && provider.instances[x].tag == Some(r.id))
    }

    /** Corrects the record of a rig already ended to say nothing was created;
        refused when the record or the provider shows otherwise. */
    method RecordNothingCreated(c: Copy, now: Instant) returns (err: Option<Fail>)
      requires Valid() && Truthful(Now(), c.rig)
      modifies this`history, store, c
      ensures Valid() && old(history) <= history && Later(old(Now()), Now())
      ensures Truthful(Now(), c.rig) && c.rig.id == old(c.rig.id)
      ensures err.None? ==> old(c.rig.state.Destroyed? && c.rig.inst.None?)
      ensures err.None? ==> old(c.rig).end.None? || !old(c.rig).end.value.nothingCreated
      ensures err.None? && !provider.behaviour.unreachable ==>
                forall x :: x in provider.instances ==> provider.instances[x].tag != Some(c.rig.id)
      ensures err == Some(NotOver) <==> !old(c.rig).state.Destroyed?
      ensures err == Some(AlreadyOver) <==> old(c.rig).state.Destroyed? && SaysNothing(old(c.rig))
      ensures err == Some(HadInstance) <==> old(c.rig).state.Destroyed? && !SaysNothing(old(c.rig)) && old(SomethingWas(c.rig))
      ensures err.Some? ==> err.value in {NotOver, AlreadyOver, HadInstance} || (err.value.StoreFailed? && Shows(Now(), Faulty(c.rig.id)))
      ensures asked == old(asked) && rented == old(rented)
      ensures err.None? ==> forall i :: 0 <= i < |old(store.journal)| && old(store.journal)[i].rig == c.rig.id
                                        ==> old(store.journal)[i].instance.None?
      ensures err.None? ==> Stored(old(history), history, c.rig.id, Destroyed)
      ensures err.None? ==> c.rig.end.Some? && c.rig.end.value.nothingCreated
    {
      hide IsRun, Later, Inv, Truthful, Gone, Over, Stored, Journalled;
      LaterItself(Now());
      if !c.rig.state.Destroyed? { return Some(NotOver); }
      if c.rig.end.Some? && c.rig.end.value.nothingCreated { return Some(AlreadyOver); }
      if c.rig.inst.Some? { return Some(HadInstance); }
      for i := 0 to |store.journal|
        invariant forall j :: 0 <= j < i && store.journal[j].rig == c.rig.id ==> store.journal[j].instance.None?
      {
        if store.journal[i].rig == c.rig.id && store.journal[i].instance.Some? { return Some(HadInstance); }
      }
      var found, checked := InstanceForRig(c.rig.id);
      if found.Some? { return Some(HadInstance); }
      var was := if c.rig.end.Some? then c.rig.end.value else Ending("recorded by the operator as never created", false);
      EndedIsOver(Now(), Now(), c.rig);
      WithEnd(Now(), c.rig, was.(nothingCreated := true));
      c.rig := c.rig.(end := Some(was.(nothingCreated := true)));
      OverMayEnd(Now(), c.rig);
      var failed := Move(c, Destroyed, now);
      err := Failing(failed);
    }
  }

  /** The evidence already says that nothing was created. */
  predicate SaysNothing(r: Rig) {
    r.end.Some? && r.end.value.nothingCreated
  }

  /** Another process had stored this very end before the last of these moments. */
  predicate EndedMeanwhile(was: seq<World>, h: seq<World>, r: Rig) {
    r.state.Destroyed? && exists k :: 0 <= k < |h| - 1 && |was| <= k + 1 && r.id in h[k].snaps && h[k].snaps[r.id] == Good(r)
  }

  /** The end this one recorded, or one another process had. */
  predicate EndedAs(from: State, before: seq<Move>, r: Rig, end: Ending, now: Instant, was: seq<World>, h: seq<World>) {
    || EndedMeanwhile(was, h, r)
    || (r.state.Destroyed? && r.end == Some(end) && r.history == before + [Move(now, from, Destroyed)])
  }

  /** What was seen, or ended meanwhile, from one moment on was from any before. */
  lemma SeenSince(was0: seq<World>, was: seq<World>, h: seq<World>)
    requires was0 <= was <= h
    ensures forall s :: Seen(was, h, s) ==> Seen(was0, h, s)
    ensures forall r: Rig :: EndedMeanwhile(was, h, r) ==> EndedMeanwhile(was0, h, r)
  {
    forall s | Seen(was, h, s) ensures Seen(was0, h, s) { StillSeenThen(was0, was, h, h, s); }
  }

  /** A destroy was sent: what is reported then says nothing but the truth. */
  predicate Excused(rig: string, x: string, was: seq<World>, h: seq<World>, err: Option<Fail>) {
    match err
    case None => true
    case Some(StoreFailed(_)) => Seen(was, h, Faulty(rig))
    case Some(Unconfirmed) => Seen(was, h, Silent) || (Seen(was, h, Stubborn) && Seen(was, h, Holding(x)))
    case Some(Cancelled) => Seen(was, h, Leaving) && (Seen(was, h, Silent) || (Seen(was, h, Stubborn) && Seen(was, h, Holding(x))))
    case Some(_) => false
  }

  /** The instance the copy has is destroyed. Where it has none, the one that
      carries the label is; none is only where nothing was listed under it, which
      ends the rig, or the provider was silent. */
  predicate TornDownAsTold(id: string, inst: Option<Instance>, was: seq<World>, h: seq<World>,
                           asked: seq<string>, asked': seq<string>, err: Option<Fail>) {
    if asked' == asked then
      && inst.None?
      && if err == Some(Unanswered) then Seen(was, h, Silent)
         else Seen(was, h, Unlisted(id)) && (err.None? || (err.value.StoreFailed? && Seen(was, h, Faulty(id))))
    else
      && |asked'| == |asked| + 1 && asked <= asked'
      && (if inst.Some? then asked'[|asked|] == inst.value.id else Seen(was, h, Labelled(id, asked'[|asked|])))
      && Excused(id, asked'[|asked|], was, h, err)
  }

  lemma TornDownEnds(id: string, inst: Instance, r: Rig, before: seq<Move>, term: Ending, now: Instant,
                     was0: seq<World>, was: seq<World>, h: seq<World>, asked: seq<string>, asked': seq<string>, err: Option<Fail>)
    requires was0 <= was <= h && TornDownAsTold(id, Some(inst), was, h, asked, asked', err)
    requires err.None? ==> EndedAs(Draining, before, r, EndFor(term, asked, asked'), now, was, h)
    requires err.Some? ==> r.state.Draining? || (r.state.Destroyed? && err.value.StoreFailed?)
    ensures r.state.Destroyed? ==> r.end == Some(term) || EndedMeanwhile(was0, h, r) || Seen(was0, h, Faulty(id))
  {
    hide Seen, EndedMeanwhile;
    SeenSince(was0, was, h);
  }

  /** With no destroy to send, the evidence says that nothing was created. */
  function EndFor(term: Ending, asked: seq<string>, asked': seq<string>): Ending {
    if asked' == asked then term.(nothingCreated := true) else term
  }

  lemma TornDownSince(id: string, inst: Option<Instance>, was0: seq<World>, was: seq<World>, h: seq<World>,
                      asked: seq<string>, asked': seq<string>, err: Option<Fail>)
    requires was0 <= was <= h
    ensures forall from, before, r, end, now :: EndedAs(from, before, r, end, now, was, h) ==> EndedAs(from, before, r, end, now, was0, h)
    ensures TornDownAsTold(id, inst, was, h, asked, asked', err) ==> TornDownAsTold(id, inst, was0, h, asked, asked', err)
  {
    hide EndedMeanwhile, Seen;
    SeenSince(was0, was, h);
  }

  /** Since then, journalled as FAILED unless the store would not take it. */
  predicate Marked(id: string, was: seq<World>, h: seq<World>) {
    Journalled(was, h, id, State.Failed) || Seen(was, h, Refusing(id))
  }

  lemma StillMarked(id: string, was: seq<World>, h: seq<World>, h': seq<World>)
    requires h <= h'
    ensures Marked(id, was, h) ==> Marked(id, was, h')
    ensures Seen(was, h, Refusing(id)) ==> Seen(was, h', Refusing(id))
  {
    hide Seen, Journalled;
    StillSeenThen(was, was, h, h', Refusing(id));
    if Journalled(was, h, id, State.Failed) { StillJournalled(was, was, h, h', id, State.Failed); }
  }

  /** On what evidence a create without an instance was closed, torn down or left:
      closed once never sent or nothing was listed under its label, torn down with
      what was. */
  predicate Resolved(how: Resolution, r: Rig, cause: CreateError, was: seq<World>, h: seq<World>, asked: seq<string>, asked': seq<string>) {
    && (asked' != asked ==> how.TornDown?)
    && match how
       case Closed =>
         && !cause.UnknownOutcome? && (cause.NotSent? || Seen(was, h, Unlisted(r.id)))
         && (r.state.Destroyed? || Seen(was, h, Refusing(r.id)))
       case TornDown =>
         && !cause.NotSent?
         && (r.state.Destroyed? ==> r.end == Some(Ending("bring-up failed", false)) || EndedMeanwhile(was, h, r)
                                    || Seen(was, h, Refusing(r.id)) || Seen(was, h, Faulty(r.id)))
         && if asked' == asked then Seen(was, h, Refusing(r.id))
            else |asked'| == |asked| + 1 && asked <= asked' && Seen(was, h, Labelled(r.id, asked'[|asked|]))
       case Unchecked => !cause.NotSent? && Seen(was, h, Silent)
       case LeftInDoubt => cause.UnknownOutcome? && Seen(was, h, Unlisted(r.id))
  }

  lemma StillResolved(how: Resolution, r: Rig, cause: CreateError, was0: seq<World>, was: seq<World>, h: seq<World>,
                      asked: seq<string>, asked': seq<string>)
    requires was0 <= was <= h && Resolved(how, r, cause, was, h, asked, asked')
    ensures Resolved(how, r, cause, was0, h, asked, asked')
  {
    hide Seen;
    SeenSince(was0, was, h);
  }

  /** What a bring-up reports is what its create was answered, unless the store
      would not take the instance it got. */
  predicate CameOf(rental: Rental, err: Option<Fail>, r: Rig, was: seq<World>, h: seq<World>, asked: seq<string>, asked': seq<string>) {
    match rental.error
    case Some(e) =>
      && rental.made.None? && err == Some(CreateFailed(e)) && Marked(r.id, was, h)
      && exists how :: Resolved(how, r, e, was, h, asked, asked')
    case None =>
      && asked' == asked && r.inst.Some? && rental.made == Some(r.inst.value.id) && !r.state.Destroyed?
      && (err.Some? ==> err.value.StoreFailed? && Seen(was, h, Refusing(r.id)))
  }

  lemma StillCameOf(rental: Rental, err: Option<Fail>, r: Rig, was0: seq<World>, was: seq<World>, h: seq<World>,
                    asked: seq<string>, asked': seq<string>)
    requires was0 <= was <= h && CameOf(rental, err, r, was, h, asked, asked')
    ensures CameOf(rental, err, r, was0, h, asked, asked')
  {
    hide Seen, Resolved, Journalled;
    SeenSince(was0, was, h);
    if rental.error.Some? {
      if Journalled(was, h, r.id, State.Failed) { StillJournalled(was0, was, h, h, r.id, State.Failed); }
      var how :| Resolved(how, r, rental.error.value, was, h, asked, asked');
      StillResolved(how, r, rental.error.value, was0, was, h, asked, asked');
    }
  }

  lemma TornDownAsks(id: string, inst: Instance, was: seq<World>, h: seq<World>, asked: seq<string>, asked': seq<string>, err: Option<Fail>)
    ensures TornDownAsTold(id, Some(inst), was, h, asked, asked', err) ==> asked' == asked + [inst.id]
  {}

  lemma StillSeenAt(was: seq<World>, h: seq<World>, h': seq<World>, s: Sight)
    requires was <= h <= h' && h != [] && Shows(h[|h| - 1], s)
    ensures Seen(was, h', s)
  {
    hide Shows;
    SeenNow(was, h, s);
    StillSeenThen(was, was, h, h', s);
  }

  lemma WhyNotConfirmed(was0: seq<World>, was: seq<World>, h: seq<World>, x: string, destroyed: bool)
    requires was0 <= was <= h && was0 != [] && (Shows(was[|was| - 1], Holding(x)) || Shows(was[|was| - 1], Silent))
    requires destroyed ==> x !in was[|was| - 1].instances
    requires !destroyed ==> Seen(was0, was0, Silent) || Seen(was0, was0, Stubborn)
    ensures Seen(was0, h, Silent) || (Seen(was0, h, Stubborn) && Seen(was0, h, Holding(x)))
  {
    hide Seen;
    StillSeenThen(was0, was0, was0, h, Silent);
    StillSeenThen(was0, was0, was0, h, Stubborn);
    if Shows(was[|was| - 1], Silent) { StillSeenAt(was0, was, h, Silent); } else { StillSeenAt(was0, was, h, Holding(x)); }
  }

  /** Why a boot stopped short. */
  predicate BootExcused(rig: string, x: string, was: seq<World>, h: seq<World>, err: Option<Fail>) {
    match err
    case None => true
    case Some(NotReached) => Seen(was, h, Balking) || Seen(was, h, Silent) || Seen(was, h, Missing(x))
    case Some(AlreadyOver) => Seen(was, h, Refusing(rig))
    case Some(StoreFailed(_)) => Seen(was, h, Refusing(rig))
    case Some(_) => false
  }

  lemma NotReachedIs(was0: seq<World>, was: seq<World>, h: seq<World>, x: string)
    requires was0 <= was <= h && was != []
    requires var w := was[|was| - 1]; Shows(w, Silent) || Shows(w, Balking) || Seen(was, h, Missing(x))
    ensures Seen(was0, h, Balking) || Seen(was0, h, Silent) || Seen(was0, h, Missing(x))
  {
    hide Shows, Seen;
    SeenSince(was0, was, h);
    if Shows(was[|was| - 1], Silent) { StillSeenAt(was0, was, h, Silent); }
    if Shows(was[|was| - 1], Balking) { StillSeenAt(was0, was, h, Balking); }
  }

  /** Why an adoption stopped short: past the question, the instance was there. */
  predicate AdoptExcused(rig: string, x: string, was: seq<World>, h: seq<World>, err: Option<Fail>) {
    match err
    case None => Seen(was, h, Holding(x))
    case Some(Unanswered) => Seen(was, h, Silent)
    case Some(FoundGone) => Seen(was, h, Missing(x))
    case Some(FoundStopped) => Seen(was, h, Holding(x))
    case Some(NotReached) => Seen(was, h, Holding(x)) && Seen(was, h, Balking)
    case Some(StoreFailed(_)) => Seen(was, h, Holding(x)) && Seen(was, h, Refusing(rig))
    case Some(_) => false
  }

  lemma InstancesAreIssued(w: World)
    requires Inv(w)
    ensures forall x :: x in w.instances ==> x in w.issued
  {
    hide EntriesTruthful, SnapshotsTruthful, MadeIssued, CreatesJournalled;
  }

  lemma StillIssued(w: World, w': World, x: string)
    requires Later(w, w') && x in w.issued
    ensures x in w'.issued
  {}

  /** Given out, and not held: such an ID never comes back. */
  predicate ProvenAbsent(w: World, xs: set<string>) {
    forall x :: x in xs ==> x in w.issued && x !in w.instances
  }

  lemma StillAbsent(w: World, w': World, xs: set<string>)
    requires Later(w, w') && ProvenAbsent(w, xs)
    ensures ProvenAbsent(w', xs)
  {}

  lemma NothingProvenYet(w: World)
    ensures ProvenAbsent(w, {})
  {}

  lemma OneMoreProven(w: World, xs: set<string>, x: string)
    requires ProvenAbsent(w, xs) && ProvenAbsent(w, {x})
    ensures ProvenAbsent(w, xs + {x})
  {}

  /** Every destroy sent since was for something reported. */
  predicate AskedOnly(was: seq<string>, asked: seq<string>, reported: seq<Orphan>) {
    was <= asked && forall k :: |was| <= k < |asked| ==> ReportedId(reported, asked[k])
  }

  lemma NothingAskedYet(asked: seq<string>, reported: seq<Orphan>)
    ensures AskedOnly(asked, asked, reported)
  {}

  lemma AskedOneMore(was: seq<string>, asked: seq<string>, reported: seq<Orphan>, o: Orphan)
    requires AskedOnly(was, asked, reported) && o in reported
    ensures AskedOnly(was, asked + [o.inst.id], reported)
  {
    assert ReportedId(reported, o.inst.id);
  }

  lemma IsReported(reported: seq<Orphan>, o: Orphan)
    requires o in reported
    ensures ReportedId(reported, o.inst.id)
  {}

  /** A reported instance that was still there, and is now proven absent, was all
      its rig's create ever made. */
  lemma ReapedIsGone(o: Orphan, listed: World, read: World, before: World, after: World)
    requires Unaccounted(o, listed, read) && o.known && Inv(before) && Inv(read) && Inv(listed)
    requires Later(listed, read) && Later(read, before) && Later(before, after)
    requires o.inst.id in before.instances && o.inst.id !in after.instances
    ensures Gone(after, o.rig)
  {
    hide EntriesTruthful, CreatesJournalled, MadeIssued;
    assert Truthful(read, read.snaps[o.rig].rig);
    assert o.inst.id in listed.issued;
    ListedIsMade(before, o.inst.id, o.rig);
  }

  /** Labelled, and of a rig no snapshot knows or one whose state has no resource
      behind it. */
  predicate Unaccounted(o: Orphan, listed: World, read: World) {
    && o.inst.id in listed.instances && listed.instances[o.inst.id] == o.inst && o.inst.tag == Some(o.rig)
    && (o.known ==> o.rig in read.snaps && read.snaps[o.rig].Good? && !ExpectsInstance(read.snaps[o.rig].rig.state))
  }

  predicate Reported(out: seq<Orphan>, i: Instance) {
    exists o :: o in out && o.inst == i
  }

  predicate ReportedId(out: seq<Orphan>, x: string) {
    exists o :: o in out && o.inst.id == x
  }

  /** No snapshot under a well-formed ID is beyond reading, so that they can be
      listed. */
  predicate Readable(w: World) {
    forall id :: id in w.snaps && RigId.Valid(id) ==> w.snaps[id].Good?
  }

  predicate IsKnown(w: World, rig: string) {
    Readable(w) && RigId.Valid(rig) && rig in w.snaps && w.snaps[rig].Good?
  }

  /** The rig may well have an instance: it is being brought up, serves, is
      stopped, or is being torn down. */
  predicate MayHave(w: World, rig: string) {
    IsKnown(w, rig)
    && w.snaps[rig].rig.state in {Creating, Provisioned, Bootstrapping, Ready, Degraded, Stopped, Draining}
  }

  /** Of the labelled instances listed, all but those of rigs that may have one. */
  predicate ReportsRest(out: seq<Orphan>, listed: World, read: World) {
    forall x :: x in listed.instances && listed.instances[x].tag.Some? ==>
      (Reported(out, listed.instances[x]) <==> !MayHave(read, listed.instances[x].tag.value))
  }

  /** A rig whose resource a sweep destroyed. */
  function Swept(r: Rig, now: Instant): Rig {
    Moved(r.(end := Some(Ending("destroyed by orphan sweep", false))), Destroyed, now)
  }

  /** What became of a reported resource: asked to go unless the provider was
      silent or did not have it, gone unless it would not go, and then recorded. */
  predicate Reaped(o: Orphan, gone: bool, was: seq<World>, h: seq<World>, sent: bool) {
    Handled(o.inst.id, gone, was, h, sent) && (gone && o.known ==> Seen(was, h, Recorded(o.rig)))
  }

  predicate Handled(x: string, gone: bool, was: seq<World>, h: seq<World>, sent: bool) {
    && (sent || Seen(was, h, Silent) || Seen(was, h, Missing(x)))
    && (gone || Seen(was, h, Silent) || Seen(was, h, Stubborn) || Seen(was, h, Missing(x)))
    && (gone ==> sent)
  }

  lemma HandledSince(x: string, gone: bool, was0: seq<World>, was: seq<World>, h: seq<World>, h': seq<World>, sent: bool)
    requires was0 <= was && h <= h' && Handled(x, gone, was, h, sent)
    ensures Handled(x, gone, was0, h', sent)
  {
    hide Seen;
    StillSeenThen(was0, was, h, h', Silent);
    StillSeenThen(was0, was, h, h', Stubborn);
    StillSeenThen(was0, was, h, h', Missing(x));
  }

  /** The first `n` reported have been dealt with. */
  predicate AllReaped(os: seq<Orphan>, n: nat, proven: set<string>, was: seq<World>, h: seq<World>, sent: seq<string>)
    requires n <= |os|
  {
    forall j :: 0 <= j < n ==> Reaped(os[j], os[j].inst.id in proven, was, h, os[j].inst.id in sent)
  }

  /** The count and the flag after the first `n`. */
  predicate Tally(os: seq<Orphan>, n: nat, proven: set<string>, destroyed: nat, failed: bool)
    requires n <= |os|
  {
    && destroyed == |proven|
    && (forall x :: x in proven ==> exists j :: 0 <= j < n && os[j].inst.id == x)
    && (failed <==> exists j :: 0 <= j < n && os[j].inst.id !in proven)
  }

  lemma OneMoreTallied(os: seq<Orphan>, n: nat, proven: set<string>, destroyed: nat, failed: bool, gone: bool)
    requires n < |os| && forall i, j :: 0 <= i < j < |os| ==> os[i].inst.id != os[j].inst.id
    requires Tally(os, n, proven, destroyed, failed)
    ensures if gone then Tally(os, n + 1, proven + {os[n].inst.id}, destroyed + 1, failed)
            else Tally(os, n + 1, proven, destroyed, true)
    ensures forall x :: x in proven ==> exists j :: 0 <= j < n && os[j].inst.id == x
  {
    assert os[n].inst.id !in proven;
  }

  lemma AllTallied(os: seq<Orphan>, proven: set<string>, destroyed: nat, failed: bool)
    requires Tally(os, |os|, proven, destroyed, failed)
    ensures destroyed == |proven| && forall x :: x in proven ==> ReportedId(os, x)
    ensures failed <==> exists o :: o in os && o.inst.id !in proven
  {
    forall x | x in proven ensures ReportedId(os, x) {
      var j :| 0 <= j < |os| && os[j].inst.id == x;
      IsReported(os, os[j]);
    }
    if failed {
      var j :| 0 <= j < |os| && os[j].inst.id !in proven;
      assert os[j] in os;
    }
  }

  lemma NothingReaped(os: seq<Orphan>, was: seq<World>, h: seq<World>, sent: seq<string>)
    ensures Tally(os, 0, {}, 0, false) && AllReaped(os, 0, {}, was, h, sent)
  {}

  lemma AllAreReaped(os: seq<Orphan>, proven: set<string>, was: seq<World>, h: seq<World>, sent: seq<string>)
    requires AllReaped(os, |os|, proven, was, h, sent)
    ensures forall o :: o in os ==> Reaped(o, o.inst.id in proven, was, h, o.inst.id in sent)
  {
    hide Reaped;
  }

  lemma OneMoreReaped(os: seq<Orphan>, n: nat, proven: set<string>, gone: bool, was: seq<World>, h: seq<World>, h': seq<World>,
                      asked0: seq<string>, asked: seq<string>, asked': seq<string>)
    requires n < |os| && was <= h <= h' && asked0 <= asked
    requires forall i, j :: 0 <= i < j < |os| ==> os[i].inst.id != os[j].inst.id
    requires forall x :: x in proven ==> exists j :: 0 <= j < n && os[j].inst.id == x
    requires asked' == asked || asked' == asked + [os[n].inst.id]
    requires AllReaped(os, n, proven, was, h, asked[|asked0|..]) && Reaped(os[n], gone, h, h', asked' != asked)
    ensures AllReaped(os, n + 1, if gone then proven + {os[n].inst.id} else proven, was, h', asked'[|asked0|..])
  {
    hide Seen;
    var proven' := if gone then proven + {os[n].inst.id} else proven;
    var sent, sent' := asked[|asked0|..], asked'[|asked0|..];
    assert asked' != asked ==> sent' == sent + [os[n].inst.id];
    forall j | 0 <= j < n + 1 ensures Reaped(os[j], os[j].inst.id in proven', was, h', os[j].inst.id in sent') {
      var x := os[j].inst.id;
      StillSeenThen(was, if j < n then was else h, if j < n then h else h', h', Recorded(os[j].rig));
      if j < n {
        HandledSince(x, x in proven, was, was, h, h', x in sent);
      } else {
        HandledSince(x, gone, was, h, h', h', asked' != asked);
      }
    }
  }

  predicate Skipped(i: Instance, known: map<string, Rig>) {
    i.tag.None? || (i.tag.value in known && ExpectsInstance(known[i.tag.value].state))
  }

  predicate Names(o: Orphan, known: map<string, Rig>) {
    o.inst.tag == Some(o.rig) && (o.known <==> o.rig in known)
  }

  method Classify(live: seq<Instance>, known: map<string, Rig>) returns (out: seq<Orphan>)
    requires forall i, j :: 0 <= i < j < |live| ==> live[i].id != live[j].id
    ensures forall i :: i in live ==> (Skipped(i, known) <==> !Reported(out, i))
    ensures forall o :: o in out ==> o.inst in live && !Skipped(o.inst, known) && Names(o, known)
    ensures forall i, j :: 0 <= i < j < |out| ==> out[i].inst.id != out[j].inst.id
  {
    out := [];
    for i := 0 to |live|
      invariant forall j :: 0 <= j < i ==> (Skipped(live[j], known) <==> !Reported(out, live[j]))
      invariant forall o :: o in out ==> o.inst in live[..i] && !Skipped(o.inst, known) && Names(o, known)
      invariant forall i, j :: 0 <= i < j < |out| ==> out[i].inst.id != out[j].inst.id
    {
      ghost var was := out;
      assert forall j :: 0 <= j < i ==> live[..i][j].id != live[i].id;
      if live[i].tag.None? { NotYetReported(out, live, i); continue; }
      var rig := live[i].tag.value;
      var isKnown := rig in known;
      NotYetReported(out, live, i);
      if isKnown && !known[rig].state.Destroyed? && ExpectsInstance(known[rig].state) { continue; }
      out := out + [Orphan(live[i], rig, isKnown)];
      ReportedNext(was, out[|was|], live[..i]);
    }
  }

  lemma NotYetReported(out: seq<Orphan>, live: seq<Instance>, i: nat)
    requires i < |live| && forall i, j :: 0 <= i < j < |live| ==> live[i].id != live[j].id
    requires forall o :: o in out ==> o.inst in live[..i]
    ensures !Reported(out, live[i])
    ensures forall j :: 0 <= j < |out| ==> out[j].inst.id != live[i].id
  {
    forall j | 0 <= j < |out| ensures out[j].inst.id != live[i].id { assert out[j] in out; }
  }

  lemma ReportedNext(out: seq<Orphan>, o: Orphan, before: seq<Instance>)
    ensures Reported(out + [o], o.inst)
    ensures forall i :: i in before && i != o.inst ==> (Reported(out + [o], i) <==> Reported(out, i))
  {
    assert (out + [o])[|out|] == o;
    forall i | i in before && i != o.inst ensures Reported(out + [o], i) <==> Reported(out, i) {
      if Reported(out, i) {
        var q :| q in out && q.inst == i;
        assert q in out + [o];
      }
    }
  }

  lemma SnapshotsAreKeyed(w: World)
    requires Inv(w)
    ensures forall id :: id in w.snaps && w.snaps[id].Good? ==> w.snaps[id].rig.id == id
  {}

  lemma InstanceIdsAreKeys(w: World)
    requires Inv(w)
    ensures forall x :: x in w.instances ==> w.instances[x].id == x
  {
    hide EntriesTruthful, SnapshotsTruthful, MadeIssued, CreatesJournalled;
  }

  lemma InstanceRefreshed(w: World, r: Rig, i: Instance)
    requires Truthful(w, r) && r.inst.Some? && r.inst.value.id == i.id
    ensures Truthful(w, r.(inst := Some(i)))
  {}

  lemma StillKnown(w: World, w': World, rig: string)
    requires Later(w, w') && rig in w.creates
    ensures rig in w'.creates
  {}

  /** The create of a settled rig that made nothing leaves nothing. */
  lemma NeverMadeIsGone(w: World, r: Rig)
    requires Truthful(w, r)
    ensures r.id in w.creates && (w.creates[r.id] == Settled(None) ==> Gone(w, r.id))
  {}

  lemma GoneForGoodIf(w: World, w': World, rig: string)
    requires Inv(w) && Later(w, w')
    ensures Gone(w, rig) ==> Gone(w', rig)
  {
    hide Inv, Later;
    if Gone(w, rig) { GoneForGood(w, w', rig); }
  }

  lemma NewIsTruthful(w: World, r: Rig)
    requires r.id in w.creates && r.inst.None? && !r.state.Destroyed?
    ensures Truthful(w, r)
  {}

  /** Since then, the journal has at some point said this of the rig last. */
  predicate Journalled(was: seq<World>, h: seq<World>, id: string, to: State) {
    exists k :: |was| <= k < |h| && LastTo(h[k].journal, id) == Some(to)
  }

  predicate StoredAs(w: World, id: string, s: State) {
    id in w.snaps && w.snaps[id].Good? && w.snaps[id].rig.state == s
  }

  /** Since then, the rig's snapshot has at some point been in this state. */
  predicate Stored(was: seq<World>, h: seq<World>, id: string, s: State) {
    exists k :: |was| <= k < |h| && StoredAs(h[k], id, s)
  }

  lemma IsStored(w: World, r: Rig)
    requires r.id in w.snaps && w.snaps[r.id] == Good(r)
    ensures StoredAs(w, r.id, r.state)
  {}

  lemma WhyRefused(w: World, fault: Fault, id: string)
    requires w.weather.fault == fault
    ensures WontWrite(Disk(w.journal, w.snaps), fault, id) <==> Shows(w, Refusing(id))
    ensures DestroyedIn(Disk(w.journal, w.snaps), id) <==> StoredAs(w, id, Destroyed)
    ensures fault != NoFault || !RigId.Valid(id) <==> Shows(w, Faulty(id))
  {}

  lemma StillJournalled(was0: seq<World>, was: seq<World>, h: seq<World>, h': seq<World>, id: string, to: State)
    requires was0 <= was && h <= h' && Journalled(was, h, id, to)
    ensures Journalled(was0, h', id, to)
  {
    var k :| |was| <= k < |h| && LastTo(h[k].journal, id) == Some(to);
    assert h'[k] == h[k];
  }

  lemma StillStored(was0: seq<World>, was: seq<World>, h: seq<World>, h': seq<World>, id: string, s: State)
    requires was0 <= was && h <= h' && Stored(was, h, id, s)
    ensures Stored(was0, h', id, s)
  {
    var k :| |was| <= k < |h| && StoredAs(h[k], id, s);
    assert h'[k] == h[k];
  }

  lemma JustJournalled(was: seq<World>, h: seq<World>, id: string, to: State)
    requires |was| < |h| && LastTo(h[|h| - 1].journal, id) == Some(to)
    ensures Journalled(was, h, id, to)
  {}

  lemma JustStored(was: seq<World>, h: seq<World>, id: string, s: State)
    requires |was| < |h| && StoredAs(h[|h| - 1], id, s)
    ensures Stored(was, h, id, s)
  {}

  lemma InstanceIdIsKey(w: World, x: string)
    requires Inv(w) && x in w.instances
    ensures w.instances[x].id == x
  {
    hide EntriesTruthful, SnapshotsTruthful, MadeIssued, CreatesJournalled;
  }

  lemma GoneMayEnd(w: World, r: Rig)
    requires Truthful(w, r) && Gone(w, r.id)
    ensures MayAppend(w, r.id, Destroyed)
  {}

  lemma GoneIsOver(w: World, rig: string)
    requires Gone(w, rig)
    ensures Over(w, rig)
  {}

  /** A copy that says DESTROYED speaks of a rig that is over: gone, if its create
      had settled and it was not ended early before. */
  lemma EndedIsOver(w: World, w': World, r: Rig)
    requires Truthful(w', r) && r.state.Destroyed? && Later(w, w')
    ensures Over(w', r.id)
    ensures SettledIn(w, r.id) && r.id !in w.early ==> Gone(w', r.id)
  {
    hide Gone, Later;
    if SettledIn(w, r.id) && r.id !in w.early { OverIsGone(w, w', r.id); }
  }

  lemma OverMayEnd(w: World, r: Rig)
    requires Truthful(w, r) && Over(w, r.id)
    ensures MayAppend(w, r.id, Destroyed)
  {}

  lemma MayBill(w: World, r: Rig, to: State)
    requires Truthful(w, r) && Billable(to)
    ensures MayAppend(w, r.id, to)
    ensures Truthful(w, r.(state := to))
  {}

  lemma StillSettled(w: World, w': World, rig: string)
    requires Later(w, w')
    ensures SettledIn(w, rig) ==> SettledIn(w', rig)
  {}

  lemma TruthfulIsKnown(w: World, r: Rig)
    requires Truthful(w, r)
    ensures r.id in w.creates
  {}

  lemma WithInstance(w: World, r: Rig, i: Instance)
    requires Truthful(w, r) && w.creates[r.id] == Settled(Some(i.id))
    ensures Truthful(w, r.(inst := Some(i)))
  {}

  lemma WithEnd(w: World, r: Rig, end: Ending)
    requires Truthful(w, r)
    ensures Truthful(w, r.(end := Some(end)))
  {}

  lemma NothingIsAllowed(w: World)
    ensures May(w, Nothing)
  {}

  lemma SavedIsTruthful(w: World, r: Rig)
    requires Truthful(w, r)
    ensures May(w, Snap(r)) && Truthful(Do(w, Snap(r)), r)
  {}

  lemma EndIsAllowed(w: World, r: Rig, now: Instant, e: Entry)
    requires Truthful(w, r) && (SettledIn(w, r.id) ==> Over(w, r.id)) && e == EntryOf(r, Destroyed, now)
    ensures e.rig == r.id && e.to.Destroyed?
    ensures var first := if Over(w, r.id) then Append(e) else EndEarly(e); var w' := Do(w, first);
            && May(w, first) && Truthful(w', r) && Truthful(w', Moved(r, Destroyed, now))
            && May(w', Snap(r)) && May(w', Snap(Moved(r, Destroyed, now)))
  {}

  lemma MovedIsTruthful(w: World, r: Rig, to: State, now: Instant, e: Entry)
    requires Truthful(w, r) && MayAppend(w, r.id, to) && e == EntryOf(r, to, now)
    ensures May(w, Append(e)) && Truthful(Do(w, Append(e)), r) && Truthful(Do(w, Append(e)), Moved(r, to, now))
    ensures e.rig == r.id && e.to == to
  {}
}
