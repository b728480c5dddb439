/** Bringing a rig up: which offers are tried, and who holds the rig meanwhile. */
module BringUp {
  import opened Accounting
  import opened Daemon
  import opened Journal
  import opened Lifecycle
  import opened Provider
  import opened Store
  import opened Wrappers
  import Rank
  import RigId
  import Sizing

  type Offer = Rank.Offer

  /** What a bring-up is asked for: the filters, what an engine and a link must
      be, the model to size, and how to rank. */
  datatype Wanted = Wanted(
    criteria: Rank.Criteria, suits: Offer -> Rank.Reason,
    base: Sizing.Request, tensorParallel: bool, policy: Rank.Policy)

  function HostOf(o: Offer): Sizing.Host {
    Sizing.Host(o.gpus, o.vramPerGpuGb)
  }

  /** The filter handed to the ranking: what the engine and the link refuse first,
      then whether the memory holds the model. */
  function FitsOf(w: Wanted): Offer -> Rank.Reason {
    (o: Offer) =>
      if w.suits(o) != Rank.Eligible then w.suits(o)
      else if Sizing.MemoryFits(w.base, HostOf(o), w.tensorParallel) then Rank.Eligible else Rank.VRAM
  }

  /** What failed, and whether another host could do better. */
  datatype Failure = Failure(host: bool, op: string, timedOut: bool)

  const MODEL_STRIKES := 2
  const DEFAULT_ATTEMPTS := 3

  /** What one attempt meets outside: the market it is shown, whether the operator
      declines the offer, the ID drawn, whether another process holds the rig, the
      storage price told with the instance, how a failure is described, and whether
      the operator has asked to stop by the time it fails or once it is settled. */
  datatype Outside = Outside(
    market: seq<Offer>, declined: bool, id: string, heldElsewhere: bool,
    storage: real, said: Failure, stopped: bool, stoppedSince: bool)

  /** The store's refusals and a create whose outcome is unknown are no fault of a
      host's; of anything else the failure itself says. */
  function FailureOf(fail: Fail, said: Failure): Failure {
    if fail.StoreFailed? || fail.AlreadyOver? then Failure(false, said.op, false)
    else if fail == CreateFailed(UnknownOutcome) then said.(host := false)
    else said
  }

  // ---- what not to try again ---------------------------------------------

  function MachineKey(o: Offer): string {
    if o.machine == "" then "" else o.provider + ":m" + o.machine
  }

  function OfferKey(o: Offer): string {
    if o.id == "" then "" else o.provider + ":o" + o.id
  }

  predicate Blank(c: char) {
    || c == ' ' || ('\t' <= c <= '\r') || c == '\U{85}' || c == '\U{A0}' || c == '\U{1680}' || ('\U{2000}' <= c <= '\U{200A}')
    || c == '\U{2028}' || c == '\U{2029}' || c == '\U{202F}' || c == '\U{205F}' || c == '\U{3000}'
  }

  function Trim(s: string): string {
    if s == "" then ""
    else if Blank(s[0]) then Trim(s[1..])
    else if Blank(s[|s| - 1]) then Trim(s[..|s| - 1])
    else s
  }

  /** The machine behind an offer or, where none is named, its listing. */
  predicate Barred(o: Offer, machines: seq<string>, listings: seq<string>) {
    (MachineKey(o) != "" && MachineKey(o) in machines) || (OfferKey(o) != "" && OfferKey(o) in listings)
  }

  /** Whether a second attempt on `o` goes where `tried` went. */
  predicate SameTarget(tried: Offer, o: Offer) {
    if MachineKey(tried) != "" then MachineKey(o) == MachineKey(tried)
    else OfferKey(tried) != "" && OfferKey(o) == OfferKey(tried)
  }

  /** The offers that pass a test, as listed. */
  function Keep(offers: seq<Offer>, test: Offer -> bool): seq<Offer> {
    if offers == [] then []
    else
      Keep(offers[..|offers| - 1], test)
      + (if test(offers[|offers| - 1]) then [offers[|offers| - 1]] else [])
  }

  lemma KeepNext(offers: seq<Offer>, i: nat, test: Offer -> bool)
    requires i < |offers|
    ensures Keep(offers[..i + 1], test) == Keep(offers[..i], test) + (if test(offers[i]) then [offers[i]] else [])
  {
    assert offers[..i + 1][..i] == offers[..i];
  }

  lemma {:induction false} KeepIs(offers: seq<Offer>, test: Offer -> bool)
    ensures forall o :: o in Keep(offers, test) <==> o in offers && test(o)
  {
    if offers != [] { KeepIs(offers[..|offers| - 1], test); }
  }

  function OffMachines(machines: seq<string>): Offer -> bool {
    (o: Offer) => MachineKey(o) == "" || MachineKey(o) !in machines
  }

  function OffListings(listings: seq<string>): Offer -> bool {
    (o: Offer) => OfferKey(o) == "" || OfferKey(o) !in listings
  }

  function OffModels(models: set<string>): Offer -> bool {
    (o: Offer) => Trim(o.gpuModel) !in models
  }

  method WithoutMachines(offers: seq<Offer>, machines: seq<string>) returns (out: seq<Offer>)
    ensures out == Keep(offers, OffMachines(machines))
    ensures forall o :: o in out <==> o in offers && (MachineKey(o) == "" || MachineKey(o) !in machines)
  {
    out := [];
    for i := 0 to |offers|
      invariant out == Keep(offers[..i], OffMachines(machines))
    {
      KeepNext(offers, i, OffMachines(machines));
      var k := MachineKey(offers[i]);
      if k == "" || k !in machines { out := out + [offers[i]]; }
    }
    assert offers[..|offers|] == offers;
    KeepIs(offers, OffMachines(machines));
  }

  method WithoutOffers(offers: seq<Offer>, listings: seq<string>) returns (out: seq<Offer>)
    requires "" !in listings
    ensures out == Keep(offers, OffListings(listings))
    ensures forall o :: o in out <==> o in offers && (OfferKey(o) == "" || OfferKey(o) !in listings)
  {
    out := [];
    for i := 0 to |offers|
      invariant out == Keep(offers[..i], OffListings(listings))
    {
      KeepNext(offers, i, OffListings(listings));
      if OfferKey(offers[i]) !in listings { out := out + [offers[i]]; }
    }
    assert offers[..|offers|] == offers;
    KeepIs(offers, OffListings(listings));
  }

  method WithoutModels(offers: seq<Offer>, models: set<string>) returns (out: seq<Offer>)
    ensures out == Keep(offers, OffModels(models))
    ensures forall o :: o in out <==> o in offers && Trim(o.gpuModel) !in models
  {
    hide Trim;
    out := [];
    for i := 0 to |offers|
      invariant out == Keep(offers[..i], OffModels(models))
    {
      KeepNext(offers, i, OffModels(models));
      if Trim(offers[i].gpuModel) !in models { out := out + [offers[i]]; }
    }
    assert offers[..|offers|] == offers;
    KeepIs(offers, OffModels(models));
  }

  // ---- what earlier bring-ups leave barred --------------------------------

  /** The listings barred by failures, in order: an offer that names its machine
      bars that instead. */
  function ListingKeys(failed: seq<Offer>): seq<string> {
    if failed == [] then []
    else
      var last := failed[|failed| - 1];
      ListingKeys(failed[..|failed| - 1])
      + (if MachineKey(last) == "" && OfferKey(last) != "" then [OfferKey(last)] else [])
  }

  /** The machines barred by failures of this bring-up, in order. */
  function MachineKeys(failed: seq<Offer>): seq<string> {
    if failed == [] then [] else MachineKeys(failed[..|failed| - 1]) + BarredMachine(failed[|failed| - 1])
  }

  function BarredMachine(o: Offer): seq<string> {
    if MachineKey(o) == "" then [] else [MachineKey(o)]
  }

  lemma MachineKeysSnoc(failed: seq<Offer>, o: Offer)
    ensures MachineKeys(failed + [o]) == MachineKeys(failed) + BarredMachine(o) && MachineKeys([]) == []
  {
    assert (failed + [o])[..|failed|] == failed;
  }

  lemma {:induction false} ListingKeysAre(failed: seq<Offer>)
    ensures forall k :: k in ListingKeys(failed) <==>
              k != "" && exists p :: p in failed && MachineKey(p) == "" && OfferKey(p) == k
  {
    if failed != [] {
      var before, last := failed[..|failed| - 1], failed[|failed| - 1];
      ListingKeysAre(before);
      assert failed == before + [last];
    }
  }

  lemma ListingKeysSnoc(failed: seq<Offer>, o: Offer)
    ensures ListingKeys(failed + [o])
            == ListingKeys(failed) + (if MachineKey(o) == "" && OfferKey(o) != "" then [OfferKey(o)] else [])
  {
    assert (failed + [o])[..|failed|] == failed;
  }

  /** A bring-up that has tried nothing yet refuses an offer exactly when its
      listing failed in an earlier one without naming a machine. */
  lemma BarredAtTheStartIff(failed: seq<Offer>, o: Offer)
    ensures Barred(o, [], ListingKeys(failed))
            <==> exists p :: p in failed && p.machine == "" && p.id != "" && OfferKey(p) == OfferKey(o)
  {
    ListingKeysAre(failed);
    if p :| p in failed && p.machine == "" && p.id != "" && OfferKey(p) == OfferKey(o) {
      assert OfferKey(o) in ListingKeys(failed);
    }
  }

  /** Every offer of a market is open to a new bring-up exactly when none shares
      its listing with one that failed so before: always, for the first. */
  lemma MarketIsOpenAtTheStartIff(failed: seq<Offer>, market: seq<Offer>)
    ensures (forall o :: o in market ==> !Barred(o, [], ListingKeys(failed)))
            <==> forall o, p :: o in market && p in failed && p.machine == "" && p.id != "" ==> OfferKey(p) != OfferKey(o)
    ensures failed == [] ==> forall o :: o in market ==> !Barred(o, [], ListingKeys(failed))
  {
    forall o: Offer
      ensures Barred(o, [], ListingKeys(failed))
              <==> exists p :: p in failed && p.machine == "" && p.id != "" && OfferKey(p) == OfferKey(o)
    {
      BarredAtTheStartIff(failed, o);
    }
  }

  /** A market of one listing that failed once is empty to every later bring-up,
      though none of them has tried it. */
  lemma FailedListingStaysBarred(o: Offer)
    requires o.machine == "" && o.id == "L40S" && o.provider == "runpod"
    ensures ListingKeys([o]) == ["runpod:oL40S"]
    ensures Barred(o, [], ListingKeys([o])) && Keep([o], OffListings(ListingKeys([o]))) == []
  {
    assert [o][..0] == [];
    assert OfferKey(o) == "runpod:oL40S";
  }

  // ---- holds --------------------------------------------------------------

  /** The holds this process has on rigs. One is given up once: releasing it asks
      for it to be outstanding, and no hold is ever the same as another. */
  class Holds {
    var outstanding: set<nat>
    var next: nat

    constructor ()
      ensures outstanding == {} && Valid()
    {
      outstanding, next := {}, 0;
    }

    predicate Valid()
      reads this
    {
      forall h :: h in outstanding ==> h < next
    }

    /** Refused while another process holds the rig. */
    method Take(heldElsewhere: bool) returns (h: Option<nat>)
      requires Valid()
      modifies this
      ensures Valid() && next >= old(next)
      ensures h.None? <==> heldElsewhere
      ensures h.None? ==> outstanding == old(outstanding)
      ensures h.Some? ==> h.value !in old(outstanding) && outstanding == old(outstanding) + {h.value}
    {
      if heldElsewhere { return None; }
      h := Some(next);
      outstanding, next := outstanding + {next}, next + 1;
    }

    method Release(h: nat)
      requires Valid() && h in outstanding
      modifies this
      ensures Valid() && next == old(next)
      ensures outstanding == old(outstanding) - {h}
    {
      outstanding := outstanding - {h};
    }
  }

  datatype HeldRig = HeldRig(id: string, hold: nat)

  /** A serving rig, owning the hold on it until it is closed or handed back. */
  class Live {
    const copy: Copy
    const holds: Holds
    var closed: bool
    var release: Option<nat>

    constructor (c: Copy, hs: Holds, h: nat)
      ensures copy == c && holds == hs && !closed && release == Some(h)
    {
      copy, holds, closed, release := c, hs, false, Some(h);
    }

    predicate Owns()
      reads this, holds
    {
      holds.Valid() && (release.Some? ==> release.value in holds.outstanding)
    }

    /** Closes the transport and gives up the hold; a second call does neither. */
    method Close()
      requires Owns()
      modifies this, holds
      ensures Owns() && closed && release.None?
      ensures holds.outstanding == old(holds.outstanding) - (if old(release).Some? then {old(release).value} else {})
      ensures holds.next == old(holds.next)
    {
      CloseServing();
      if release.Some? {
        holds.Release(release.value);
        release := None;
      }
    }

    /** Closes the transport and hands the hold to the caller, who has it now. */
    method EndServing() returns (h: Option<nat>)
      modifies this
      ensures closed && release.None? && h == old(release)
    {
      CloseServing();
      h, release := release, None;
    }

    method CloseServing()
      modifies this`closed
      ensures closed
    {
      closed := true;
    }
  }

  // ---- one bring-up -------------------------------------------------------

  class Orchestrator {
    const daemon: Daemon
    const holds: Holds
    const maxHostAttempts: int
    var upHold: Option<HeldRig> // taken by Up, not yet handed to Serve
    var excludedMachines: seq<string>
    var excludedOffers: seq<string>
    var failedModels: map<(string, string), nat>
    ghost var everFailed: seq<Offer> // offers whose host failed, in every bring-up so far
    ghost var strikes: multiset<(string, string)> // host failures of this bring-up, by model and kind

    constructor (d: Daemon, hs: Holds, max: int)
      requires d.Valid() && hs.Valid()
      ensures daemon == d && holds == hs && maxHostAttempts == max && Valid() && upHold.None? && everFailed == []
    {
      daemon, holds, maxHostAttempts := d, hs, max;
      upHold, excludedMachines, excludedOffers, failedModels := None, [], [], map[];
      strikes, everFailed := multiset{}, [];
    }

    ghost predicate Valid()
      reads this, holds, daemon, daemon.store, daemon.provider
    {
      daemon.Valid() && Own()
    }

    ghost predicate Own()
      reads this, holds
    {
      && holds.Valid()
      && (upHold.Some? ==> upHold.value.hold in holds.outstanding)
      && "" !in excludedMachines && excludedOffers == ListingKeys(everFailed)
      && forall k :: strikes[k] == if k in failedModels then failedModels[k] else 0
    }

    /** The holds outstanding that Up is not keeping for a Serve. */
    ghost function Elsewhere(): set<nat>
      reads this, holds
    {
      if upHold.Some? then holds.outstanding - {upHold.value.hold} else holds.outstanding
    }

    function Limit(): (n: nat)
      ensures n > 0 && n == if maxHostAttempts > 0 then maxHostAttempts else 3
    {
      if maxHostAttempts <= 0 then DEFAULT_ATTEMPTS else maxHostAttempts
    }

    method DropUpHold()
      requires Own()
      modifies this`upHold, holds
      ensures Own() && upHold.None? && holds.outstanding == Elsewhere() == old(Elsewhere())
    {
      if upHold.Some? {
        var h := upHold.value.hold;
        upHold := None;
        holds.Release(h);
      }
    }

    /** The hold Up took on this rig, if it took one, and otherwise a new one. */
    method TakeHold(id: string, heldElsewhere: bool) returns (h: Option<nat>)
      requires Own()
      modifies this`upHold, holds
      ensures Own()
      ensures h.None? <==> heldElsewhere && !(old(upHold).Some? && old(upHold).value.id == id)
      ensures h.None? ==> upHold == old(upHold) && holds.outstanding == old(holds.outstanding)
      ensures h.Some? ==> h.value !in old(Elsewhere()) && Elsewhere() == old(Elsewhere()) + {h.value}
      ensures old(upHold).Some? && old(upHold).value.id == id ==> h.Some? && upHold.None?
    {
      if upHold.Some? && upHold.value.id == id {
        h, upHold := Some(upHold.value.hold), None;
        return;
      }
      h := holds.Take(heldElsewhere);
    }

    /** A new hold for a rig about to be rented, in place of any Up still had. */
    method HoldForUp(id: string, heldElsewhere: bool) returns (held: bool)
      requires Own()
      modifies this`upHold, holds
      ensures Own() && Elsewhere() == old(Elsewhere())
      ensures held <==> !heldElsewhere
      ensures held ==> upHold.Some? && upHold.value.id == id
      ensures !held ==> upHold == old(upHold)
    {
      var h := holds.Take(heldElsewhere);
      if h.None? { return false; }
      DropUpHold();
      upHold := Some(HeldRig(id, h.value));
      held := true;
    }

    // ---- choosing ---------------------------------------------------------

    /** Models that failed the same way on enough hosts of this bring-up. */
    method RetiredModels() returns (out: set<string>)
      requires Own()
      ensures forall m :: m in out <==> exists op :: strikes[(m, op)] >= 2
    {
      out := {};
      var left := failedModels.Keys;
      while left != {}
        invariant left <= failedModels.Keys
        invariant forall m :: m in out <==> exists op :: (m, op) in failedModels.Keys - left && failedModels[(m, op)] >= MODEL_STRIKES
      {
        var k :| k in left;
        left := left - {k};
        assert k == (k.0, k.1);
        if failedModels[k] >= MODEL_STRIKES { out := out + {k.0}; }
      }
    }

    /** Skips retired models, unless nothing else is left. */
    method WithoutRetired(open: seq<Offer>) returns (weighed: seq<Offer>)
      requires Own()
      ensures weighed == Narrowed(open, strikes)
      ensures weighed == [] <==> open == []
      ensures forall o :: o in weighed ==> o in open
      ensures forall o :: o in weighed && Retired(strikes, o) ==> forall p :: p in open ==> Retired(strikes, p)
      ensures forall o :: o in open && !Retired(strikes, o) ==> o in weighed
    {
      var retired := RetiredModels();
      KeepAgrees(open, OffModels(retired), Standing(strikes));
      if retired == {} { KeepAll(open, OffModels(retired)); }
      weighed := open;
      if retired != {} {
        var kept := WithoutModels(open, retired);
        if kept != [] {
          weighed := kept;
          assert kept[0] in open;
        } else {
          assert forall p :: p in open ==> p !in kept;
        }
      }
      assert forall p :: p in open ==> (Retired(strikes, p) <==> Trim(p.gpuModel) in retired);
    }

    /** What of a market is still open to this bring-up, the best offer in it, and
        the plan to launch it with. Retiring a model narrows the choice but never
        leaves none. */
    method Survey(market: seq<Offer>, wanted: Wanted)
        returns (chosen: Option<Offer>, plan: Option<Sizing.Plan>, weighed: seq<Offer>, ghost open: seq<Offer>)
      requires Own()
      ensures forall o :: o in open <==> o in market && !Barred(o, excludedMachines, excludedOffers)
      ensures weighed == Weighed(market, excludedMachines, excludedOffers, strikes)
      ensures weighed == [] <==> open == []
      ensures forall o :: o in weighed ==> o in open
      ensures forall o :: o in weighed && Retired(strikes, o) ==> forall p :: p in open ==> Retired(strikes, p)
      ensures forall o :: o in open && !Retired(strikes, o) ==> o in weighed
      ensures chosen.Some? ==> Rank.Chosen(weighed, wanted.criteria, FitsOf(wanted), wanted.policy, chosen.value)
      ensures chosen.Some? ==> plan.Some? && Sizing.Launches(wanted.base, HostOf(chosen.value), plan.value)
      ensures chosen.None? ==> forall o :: o in weighed ==>
                Rank.Verdict(weighed, o, wanted.criteria, FitsOf(wanted), wanted.policy) != Rank.Eligible
    {
      hide Rank.Verdict, Rank.Classify, Rank.Before, Rank.Chosen, Rank.InOrder, MachineKey, OfferKey, Retired;
      hide Rank.SameTies, Sizing.MemoryFits, Sizing.Launches, FitsOf, Keep, ListingKeys, Narrowed;
      var offers := market;
      NoneBarred(market);
      if excludedMachines != [] { offers := WithoutMachines(offers, excludedMachines); }
      NoEmptyKeys(everFailed);
      NoneBarred(offers);
      if excludedOffers != [] { offers := WithoutOffers(offers, excludedOffers); }
      open := offers;
      weighed := WithoutRetired(offers);
      chosen, plan := Choose(weighed, wanted);
    }

    /** What failed is not tried again: its machine if it names one, its listing
        otherwise. */
    method ExcludeFailed(o: Offer)
      requires Own()
      modifies this`excludedMachines, this`excludedOffers, this`everFailed
      ensures Own() && Covered(o, excludedMachines, excludedOffers)
      ensures old(excludedMachines) <= excludedMachines && old(excludedOffers) <= excludedOffers
      ensures everFailed == old(everFailed) + [o] && Elsewhere() == old(Elsewhere())
      ensures excludedMachines == old(excludedMachines) + BarredMachine(o)
    {
      ListingKeysSnoc(everFailed, o);
      hide ListingKeys;
      everFailed := everFailed + [o];
      var machine := MachineKey(o);
      if machine != "" {
        excludedMachines := excludedMachines + [machine];
        return;
      }
      var listing := OfferKey(o);
      if listing != "" { excludedOffers := excludedOffers + [listing]; }
    }

    /** A new bring-up forgets the machines and the strikes, and not the listings. */
    method Begin()
      requires Own()
      modifies this`excludedMachines, this`failedModels, this`strikes
      ensures Own() && excludedMachines == [] && strikes == multiset{} && Elsewhere() == old(Elsewhere())
      ensures excludedOffers == ListingKeys(everFailed)
    {
      excludedMachines, failedModels, strikes := [], map[], multiset{};
    }

    method NoteModelFailure(o: Offer, op: string)
      requires Own()
      modifies this`failedModels, this`strikes
      ensures Own() && Elsewhere() == old(Elsewhere())
      ensures strikes == if Trim(o.gpuModel) == "" then old(strikes) else old(strikes) + multiset{(Trim(o.gpuModel), op)}
    {
      var m := Trim(o.gpuModel);
      if m == "" { return; }
      var k := (m, op);
      failedModels := failedModels[k := (if k in failedModels then failedModels[k] else 0) + 1];
      strikes := strikes + multiset{k};
    }

    // ---- renting and serving ----------------------------------------------

    /** Selects, mints, takes the hold, and rents. What fails before the create
        leaves no rig and no hold; a create that failed is settled and its hold
        given up; only a rig with an instance keeps its hold for Serve. */
    method Up(outside: Outside, wanted: Wanted, now: Instant) returns (c: Option<Copy>, offer: Option<Offer>, err: Option<Failure>)
      requires Valid()
      modifies this`upHold, holds, daemon, daemon.store, daemon.provider
      ensures Valid() && old(daemon.history) <= daemon.history && Later(old(daemon.Now()), daemon.Now())
      ensures Elsewhere() == old(Elsewhere())
      ensures c.Some? <==> offer.Some?
      ensures c.Some? ==> fresh(c.value) && Truthful(daemon.Now(), c.value.rig)
      ensures c.Some? ==> offer.value in outside.market && !Barred(offer.value, excludedMachines, excludedOffers)
      ensures c.Some? ==> Rank.Chosen(Weighed(outside.market, excludedMachines, excludedOffers, strikes),
                                      wanted.criteria, FitsOf(wanted), wanted.policy, offer.value)
      ensures err.None? ==> c.Some? && c.value.rig.inst.Some? && upHold.Some? && upHold.value.id == c.value.rig.id
      ensures c.None? ==> err.Some? && !err.value.host && !err.value.timedOut && daemon.rented == old(daemon.rented)
      ensures |daemon.rented| > |old(daemon.rented)| && daemon.rented[|daemon.rented| - 1].error.None? ==>
                c.Some? && c.value.rig.quote == offer.value.price && BilledAt(c.value.rig, offer.value.price, outside.storage)
      ensures upHold == old(upHold) || upHold.None?
              || (c.Some? && daemon.rented != [] && daemon.rented[|daemon.rented| - 1].error.None? && upHold.value.id == c.value.rig.id)
      ensures c.None? ==> RentsNothing(outside, wanted, excludedMachines, excludedOffers, strikes, old(daemon.history), daemon.history)
      ensures c.Some? ==> c.value.rig.id == outside.id && Rented(old(daemon.rented), daemon.rented, c.value.rig)
      ensures old(daemon.asked) <= daemon.asked
      ensures err.None? ==> c.value.rig.state.Provisioned? && daemon.rented[|old(daemon.rented)|].error.None?
      ensures c.Some? && err.Some? ==>
                Told(err.value, outside.said, daemon.rented[|old(daemon.rented)|], old(daemon.history), daemon.history)
    {
      hide Inv, IsRun, Later, Truthful, Barred, Daemon.Valid, Own, Elsewhere;
      hide Rank.Chosen, Rank.Verdict, Weighed, Shows, Seen, Told, Rented, Daemon.Now;
      ghost var w := daemon.Now();
      LaterItself(w);
      c, offer := None, None;
      var chosen, plan, weighed, open := Survey(outside.market, wanted);
      if chosen.Some? { ChosenIsListed(weighed, wanted, chosen.value); }
      if chosen.None? || outside.declined {
        err := Some(Failure(false, "daemon.Up", false));
        return;
      }
      c, err := Rent(outside, chosen.value.price, now);
      if c.Some? { offer := chosen; }
    }

    /** Mints a rig, takes the hold on it, and rents. */
    method Rent(outside: Outside, price: real, now: Instant) returns (c: Option<Copy>, err: Option<Failure>)
      requires Valid()
      modifies this`upHold, holds, daemon, daemon.store, daemon.provider
      ensures Valid() && old(daemon.history) <= daemon.history && Later(old(daemon.Now()), daemon.Now())
      ensures Elsewhere() == old(Elsewhere())
      ensures c.Some? ==> fresh(c.value) && Truthful(daemon.Now(), c.value.rig)
      ensures err.None? ==> c.Some? && c.value.rig.inst.Some? && upHold.Some? && upHold.value.id == c.value.rig.id
      ensures c.None? ==> err.Some? && !err.value.host && !err.value.timedOut && daemon.rented == old(daemon.rented)
      ensures |daemon.rented| > |old(daemon.rented)| && daemon.rented[|daemon.rented| - 1].error.None? ==>
                c.Some? && c.value.rig.quote == price && BilledAt(c.value.rig, price, outside.storage)
      ensures upHold == old(upHold) || upHold.None?
              || (c.Some? && daemon.rented != [] && daemon.rented[|daemon.rented| - 1].error.None? && upHold.value.id == c.value.rig.id)
      ensures c.None? ==> outside.heldElsewhere || Seen(old(daemon.history), daemon.history, Claimed(outside.id))
                          || Seen(old(daemon.history), daemon.history, Refusing(outside.id))
      ensures c.Some? ==> c.value.rig.id == outside.id && Rented(old(daemon.rented), daemon.rented, c.value.rig)
      ensures old(daemon.asked) <= daemon.asked
      ensures err.None? ==> c.value.rig.state.Provisioned? && daemon.rented[|old(daemon.rented)|].error.None?
      ensures c.Some? && err.Some? ==>
                Told(err.value, outside.said, daemon.rented[|old(daemon.rented)|], old(daemon.history), daemon.history)
    {
      hide Inv, IsRun, Later, Truthful, Daemon.Valid, Own, Elsewhere, Shows, Seen, CameOf, Told, Rented, Marked;
      LaterItself(daemon.Now());
      var id := outside.id;
      var taken := daemon.Taken(id);
      if taken {
        daemon.Sees(daemon.history, Claimed(id));
        return None, Some(Failure(false, "state.NewID", false));
      }
      var held := HoldForUp(id, outside.heldElsewhere);
      if !held { return None, Some(Failure(false, "daemon.Up", false)); }
      var rig, failed := daemon.Up(id, price, outside.storage, now);
      if daemon.rented != old(daemon.rented) {
        RentedByUp(old(daemon.rented), daemon.rented, failed, rig.rig, outside.said,
                   old(daemon.history), daemon.history, old(daemon.asked), daemon.asked);
      }
      if failed.None? { return Some(rig), None; }
      var f := FailureOf(failed.value, outside.said);
      if !failed.value.CreateFailed? && rig.rig.inst.None? {
        DropUpHold();
        return None, Some(f);
      }
      if failed.value.CreateFailed? { DropUpHold(); }
      return Some(rig), Some(f);
    }

    /** Brings a rented rig to READY, holding it from the start. The Live it returns
        owns the hold, whether or not it got there. */
    method Serve(c: Copy, heldElsewhere: bool, said: Failure, now: Instant) returns (live: Option<Live>, err: Option<Failure>)
      requires Valid() && Truthful(daemon.Now(), c.rig)
      modifies this`upHold, holds, daemon`history, daemon.store, daemon.provider, c
      ensures Valid() && old(daemon.history) <= daemon.history && Later(old(daemon.Now()), daemon.Now())
      ensures Truthful(daemon.Now(), c.rig) && c.rig.id == old(c.rig.id)
      ensures err.None? ==> live.Some? && c.rig.state.Ready?
      ensures live.None? ==> upHold == old(upHold) && holds.outstanding == old(holds.outstanding)
      ensures live.Some? ==> fresh(live.value) && live.value.copy == c && live.value.holds == holds && live.value.release.Some?
      ensures live.Some? ==> var h := live.value.release.value;
                h !in old(Elsewhere()) && Elsewhere() == old(Elsewhere()) + {h}
      ensures old(upHold).Some? && old(upHold).value.id == c.rig.id && old(c.rig).inst.Some? ==> live.Some? && upHold.None?
      ensures live.None? ==> err == Some(Failure(false, "daemon.Serve", false)) && c.rig == old(c.rig)
                             && (c.rig.inst.None? || heldElsewhere)
      ensures live.Some? ==> c.rig.inst.Some? && old(c.rig).inst.Some? && c.rig.inst.value.id == old(c.rig).inst.value.id
      ensures live.Some? ==> exists fail: Option<Fail> ::
                BootExcused(c.rig.id, c.rig.inst.value.id, old(daemon.history), daemon.history, fail)
                && err == if fail.Some? then Some(FailureOf(fail.value, said)) else None
      ensures c.rig.state in {old(c.rig.state), Bootstrapping, Ready}
    {
      hide Inv, IsRun, Later, Truthful, Daemon.Valid, BootExcused;
      LaterItself(daemon.Now());
      if c.rig.inst.None? { return None, Some(Failure(false, "daemon.Serve", false)); }
      var h := TakeHold(c.rig.id, heldElsewhere);
      if h.None? { return None, Some(Failure(false, "daemon.Serve", false)); }
      var l := new Live(c, holds, h.value);
      var failed := daemon.Boot(c, now);
      live, err := Some(l), None;
      if failed.Some? {
        err := Some(FailureOf(failed.value, said));
      }
    }

    /** One whole provisioning cycle. A rig that failed while serving gives its hold
        back to be kept through the teardown. */
    method Attempt(outside: Outside, wanted: Wanted, now: Instant)
        returns (live: Option<Live>, c: Option<Copy>, offer: Option<Offer>, err: Option<Failure>)
      requires Valid()
      modifies this`upHold, holds, daemon, daemon.store, daemon.provider
      ensures Valid() && old(daemon.history) <= daemon.history && Later(old(daemon.Now()), daemon.Now())
      ensures c.Some? <==> offer.Some?
      ensures c.Some? ==> fresh(c.value) && Truthful(daemon.Now(), c.value.rig)
      ensures c.Some? ==> offer.value in outside.market && !Barred(offer.value, excludedMachines, excludedOffers)
      ensures c.Some? ==> Rank.Chosen(Weighed(outside.market, excludedMachines, excludedOffers, strikes),
                                      wanted.criteria, FitsOf(wanted), wanted.policy, offer.value)
      ensures c.None? ==> err.Some? && !err.value.host && !err.value.timedOut && daemon.rented == old(daemon.rented)
      ensures c.None? ==> RentsNothing(outside, wanted, excludedMachines, excludedOffers, strikes, old(daemon.history), daemon.history)
      ensures c.Some? ==> Rented(old(daemon.rented), daemon.rented, c.value.rig)
      ensures old(daemon.asked) <= daemon.asked
      ensures c.Some? && err.Some? ==>
                Told(err.value, outside.said, daemon.rented[|old(daemon.rented)|], old(daemon.history), daemon.history)
      ensures live.Some? <==> err.None?
      ensures live.None? ==> Elsewhere() == old(Elsewhere())
      ensures live.Some? ==> c.Some? && fresh(live.value) && live.value.copy == c.value && live.value.holds == holds
                             && live.value.release.Some? && upHold.None? && c.value.rig.state.Ready?
      ensures live.Some? ==> live.value.release.value !in old(Elsewhere())
                             && holds.outstanding == old(Elsewhere()) + {live.value.release.value}
    {
      hide Inv, IsRun, Later, Truthful, Barred, Daemon.Valid, RentsNothing, Rank.Chosen, Weighed, Seen, Shows, BootExcused, Told;
      ghost var w := daemon.Now();
      c, offer, err := Up(outside, wanted, now);
      if err.Some? { return None, c, offer, err; }
      ghost var w1, h1 := daemon.Now(), daemon.history;
      var served, failed := Serve(c.value, outside.heldElsewhere, outside.said, now);
      LaterIsTransitive(w, w1, daemon.Now());
      if failed.Some? {
        ghost var fail: Option<Fail> :| BootExcused(c.value.rig.id, c.value.rig.inst.value.id, h1, daemon.history, fail)
                                  && failed == if fail.Some? then Some(FailureOf(fail.value, outside.said)) else None;
        ToldByServing(fail.value, outside.said, daemon.rented[|old(daemon.rented)|], c.value.rig.inst.value.id,
                      old(daemon.history), h1, daemon.history);
        if served.Some? {
          var h := served.value.EndServing();
          upHold := Some(HeldRig(c.value.rig.id, h.value));
        }
        return None, c, offer, failed;
      }
      live := served;
    }

    /** After a failed attempt: what failed is not tried again, a rig with an
        instance is torn down, and only then is its hold given up. */
    method GiveUp(c: Copy, offer: Offer, f: Failure, now: Instant) returns (unconfirmed: Option<Fail>)
      requires Valid() && Truthful(daemon.Now(), c.rig)
      modifies this, holds, daemon, daemon.store, daemon.provider, c
      ensures Valid() && old(daemon.history) <= daemon.history && Later(old(daemon.Now()), daemon.Now())
      ensures Truthful(daemon.Now(), c.rig)
      ensures upHold.None? && holds.outstanding == Elsewhere() == old(Elsewhere())
      ensures !old(c.rig).state.Destroyed? ==>
                PutDown(old(c.rig).id, IdOf(old(c.rig).inst), old(daemon.asked), daemon.asked, old(daemon.history), daemon.history)
      ensures old(daemon.asked) <= daemon.asked && daemon.rented == old(daemon.rented)
      ensures strikes == if f.host && Trim(offer.gpuModel) != "" then old(strikes) + multiset{(Trim(offer.gpuModel), f.op)} else old(strikes)
      ensures old(c.rig).inst.Some? && unconfirmed.None? ==> c.rig.state.Destroyed? && Over(daemon.Now(), c.rig.id)
      ensures old(c.rig).inst.Some? && unconfirmed.None? && c.rig.id !in old(daemon.provider.early) ==> Gone(daemon.Now(), c.rig.id)
      ensures f.host ==> Covered(offer, excludedMachines, excludedOffers)
      ensures everFailed == old(everFailed) + (if f.host then [offer] else [])
      ensures excludedMachines == old(excludedMachines) + (if f.host then BarredMachine(offer) else [])
      ensures old(excludedMachines) <= excludedMachines && old(excludedOffers) <= excludedOffers
    {
      hide Inv, IsRun, Later, Truthful, Covered, Gone, Over, ListingKeys, BarredMachine, Own, Elsewhere, PutDown, Daemon.Valid, Trim;
      LaterItself(daemon.Now());
      if f.host {
        ExcludeFailed(offer);
        NoteModelFailure(offer, f.op);
      }
      unconfirmed := None;
      if c.rig.inst.Some? {
        unconfirmed := TearDown(c, now);
      }
      DropUpHold();
      if old(c.rig).inst.None? { PutsDownNothing(old(c.rig), old(daemon.asked), daemon.asked, old(daemon.history), daemon.history); }
    }

    /** Destroys what a failed bring-up rented. */
    method TearDown(c: Copy, now: Instant) returns (err: Option<Fail>)
      requires daemon.Valid() && Truthful(daemon.Now(), c.rig) && c.rig.inst.Some?
      modifies daemon, daemon.store, daemon.provider, c
      ensures daemon.Valid() && old(daemon.history) <= daemon.history && Later(old(daemon.Now()), daemon.Now())
      ensures Truthful(daemon.Now(), c.rig) && c.rig.id == old(c.rig.id)
      ensures !old(c.rig).state.Destroyed? ==>
                PutDown(c.rig.id, IdOf(old(c.rig).inst), old(daemon.asked), daemon.asked, old(daemon.history), daemon.history)
      ensures old(daemon.asked) <= daemon.asked && daemon.rented == old(daemon.rented)
      ensures err.None? && !old(daemon.AlreadyEnded(c.rig)) ==>
                EndedMeanwhile(old(daemon.history), daemon.history, c.rig) || c.rig.end == Some(Ending("bring-up failed", false))
      ensures err.None? ==> c.rig.state.Destroyed? && Over(daemon.Now(), c.rig.id)
      ensures err.None? && c.rig.id !in old(daemon.provider.early) ==> Gone(daemon.Now(), c.rig.id)
    {
      hide Inv, IsRun, Later, Truthful, Gone, Over, Daemon.Valid, Seen, Shows, TornDownAsTold, EndedMeanwhile;
      ghost var h, inst, id := daemon.history, c.rig.inst.value, c.rig.id;
      daemon.IsIssued(c.rig);
      if !c.rig.state.Destroyed? && (daemon.AlreadyEnded(c.rig) || daemon.store.fault.AppendFails?) {
        daemon.EndedOrRefusing(h, c.rig);
      }
      err := daemon.Down(c, Some(Ending("bring-up failed", false)), now);
      StillSeenThen(h, h, h, daemon.history, Refusing(id));
      TornDownAsks(id, inst, h, daemon.history, old(daemon.asked), daemon.asked, err);
    }

    /** What a failed attempt comes to: a deadline that expired while waiting on a
        host is that host's failure, and only a host's failure is worth another try,
        unless the operator has asked to stop. */
    method AfterFailure(c: Copy, offer: Offer, failure: Failure, stopped: bool, stoppedSince: bool, now: Instant)
        returns (f: Failure, more: bool)
      requires Valid() && Truthful(daemon.Now(), c.rig)
      modifies this, holds, daemon, daemon.store, daemon.provider, c
      ensures Valid() && old(daemon.history) <= daemon.history && Later(old(daemon.Now()), daemon.Now())
      ensures upHold.None? && holds.outstanding == Elsewhere() == old(Elsewhere())
      ensures f.host ==> Covered(offer, excludedMachines, excludedOffers)
      ensures everFailed == old(everFailed) + (if f.host then [offer] else [])
      ensures excludedMachines == old(excludedMachines) + (if f.host then BarredMachine(offer) else [])
      ensures |strikes| <= |old(strikes)| + 1
      ensures old(excludedMachines) <= excludedMachines && old(excludedOffers) <= excludedOffers
      ensures !stopped && !stoppedSince ==> (more <==> f.host)
      ensures stopped || stoppedSince ==> !more
      ensures failure.timedOut && !stopped ==> f == Failure(true, "daemon.attempt", false)
      ensures !failure.timedOut || stopped ==> f == failure
      ensures !old(c.rig).state.Destroyed? ==>
                PutDown(old(c.rig).id, IdOf(old(c.rig).inst), old(daemon.asked), daemon.asked, old(daemon.history), daemon.history)
      ensures old(daemon.asked) <= daemon.asked && daemon.rented == old(daemon.rented)
    {
      hide Inv, IsRun, Later, Truthful, Covered, Daemon.Valid, Own, Elsewhere, PutDown, BarredMachine, Trim;
      f := if failure.timedOut && !stopped then Failure(true, "daemon.attempt", false) else failure;
      var unconfirmed := GiveUp(c, offer, f, now);
      more := f.host && !stopped && !stoppedSince;
    }

    /** One attempt, and what it comes to when it fails. */
    method TryOne(outside: Outside, wanted: Wanted, now: Instant)
        returns (live: Option<Live>, offer: Option<Offer>, err: Option<Failure>, host: bool, more: bool, ghost rental: Rental)
      requires Valid()
      modifies this, holds, daemon, daemon.store, daemon.provider
      ensures Valid() && old(daemon.history) <= daemon.history && Later(old(daemon.Now()), daemon.Now())
      ensures live.Some? <==> err.None?
      ensures live.Some? ==> offer.Some? && !host && upHold.None? && Serving(live.value, holds, old(Elsewhere()), holds.outstanding)
                             && fresh(live.value) && live.value.copy.rig.id == rental.rig
      ensures live.None? ==> upHold.None? && holds.outstanding == Elsewhere() == old(Elsewhere())
      ensures offer.None? ==> !err.value.host && !more && daemon.rented == old(daemon.rented) && strikes == old(strikes)
      ensures offer.None? ==> RentsNothing(outside, wanted, excludedMachines, excludedOffers, strikes, old(daemon.history), daemon.history)
      ensures offer.Some? ==> offer.value in outside.market && !Barred(offer.value, old(excludedMachines), old(excludedOffers))
      ensures offer.Some? ==> daemon.rented == old(daemon.rented) + [rental]
      ensures offer.Some? && live.None? ==> (host <==> err.value.host) && (more <==> host && !outside.stopped && !outside.stoppedSince)
      ensures offer.Some? && live.None? ==>
                SettledAs(outside, host, rental, old(daemon.asked), daemon.asked, old(daemon.history), daemon.history)
      ensures old(daemon.asked) <= daemon.asked
      ensures host ==> offer.Some? && Covered(offer.value, excludedMachines, excludedOffers)
      ensures everFailed == old(everFailed) + (if host then [offer.value] else [])
      ensures old(excludedMachines) <= excludedMachines && old(excludedOffers) <= excludedOffers
      ensures excludedMachines == old(excludedMachines) + (if host then BarredMachine(offer.value) else [])
      ensures |strikes| <= |old(strikes)| + 1
      ensures offer.Some? ==> TakesBest(outside, wanted, old(excludedMachines), old(excludedOffers), old(strikes), offer.value)
      ensures excludedOffers == ListingKeys(everFailed)
    {
      hide Inv, IsRun, Later, Truthful, Barred, Covered, Daemon.Valid, Elsewhere, Shows, BarredMachine;
      hide ListingKeys, RentsNothing, Rank.Chosen, Weighed, SettledAs, Told, PutDown, Seen, Rented;
      ghost var w, h, asked, rented := daemon.Now(), daemon.history, daemon.asked, daemon.rented;
      var c, failed;
      host, more := false, false;
      live, c, offer, failed := Attempt(outside, wanted, now);
      err, rental := failed, Rental("", None, None);
      RentedIs(rented, daemon.rented, c);
      if c.Some? { rental := daemon.rented[|rented|]; }
      if c.None? {
        DropUpHold();
        return;
      }
      if failed.None? { return; }
      ghost var w1, h1, asked1, rig := daemon.Now(), daemon.history, daemon.asked, c.value.rig;
      var f;
      f, more := AfterFailure(c.value, offer.value, failed.value, outside.stopped, outside.stoppedSince, now);
      LaterIsTransitive(w, w1, daemon.Now());
      AttemptSettled(outside, failed.value, f.host, rig, rented, daemon.rented, asked, asked1, daemon.asked, h, h1, daemon.history);
      err, host := Some(f), f.host;
    }

    /** Tries offers until one serves. On success one more hold is outstanding, and
        the Live owns it; on failure none is. No two attempts go to one machine, or
        to one listing where no machine is named, and only a host's failure leads
        to another. */
    method UpAndServe(wanted: Wanted, unready: bool, outside: nat -> Outside, now: Instant)
        returns (live: Option<Live>, err: Option<Failure>, ghost tried: seq<Offer>, ghost hostFailed: seq<bool>, ghost rentals: seq<Rental>)
      requires Valid()
      modifies this, holds, daemon, daemon.store, daemon.provider
      ensures Valid() && old(daemon.history) <= daemon.history && Later(old(daemon.Now()), daemon.Now())
      ensures live.Some? <==> err.None?
      ensures live.Some? ==> fresh(live.value) && upHold.None? && Serving(live.value, holds, old(Elsewhere()), holds.outstanding)
                             && tried != [] && rentals != [] && live.value.copy.rig.id == rentals[|rentals| - 1].rig
      ensures live.None? ==> (upHold.None? && holds.outstanding == old(Elsewhere()))
                             || (tried == [] && upHold == old(upHold) && holds.outstanding == old(holds.outstanding))
      ensures |tried| == |hostFailed| && |tried| <= Limit()
      ensures AllDifferent(tried)
      ensures forall i :: 0 <= i < |tried| - 1 ==> hostFailed[i]
      ensures everFailed == old(everFailed) + FailedHosts(tried, hostFailed)
      ensures unready ==> tried == [] && live.None?
      ensures AllTakeBest(outside, wanted, tried, old(everFailed))
      ensures !unready ==> excludedMachines == MachineKeys(FailedHosts(tried, hostFailed)) && |strikes| <= |tried|
      ensures daemon.rented == old(daemon.rented) + rentals && |rentals| == |tried|
      ensures AllSettled(outside, hostFailed, live.Some?, rentals, old(daemon.asked), daemon.asked, old(daemon.history), daemon.history)
      ensures live.None? && !unready ==>
                || (tried != [] && (!hostFailed[|tried| - 1] || |tried| == Limit()
                                    || outside(|tried| - 1).stopped || outside(|tried| - 1).stoppedSince))
                || RentsNothing(outside(|tried|), wanted, excludedMachines, excludedOffers, strikes, old(daemon.history), daemon.history)
      ensures err.Some? && err.value.host ==> tried != [] && hostFailed[|tried| - 1]
    {
      hide Inv, IsRun, Later, Truthful, Barred, Covered, Daemon.Valid, Own, Elsewhere;
      hide SameTarget, AllDifferent, AllCovered, ListingKeys, FailedHosts, RentsNothing, Weighed;
      hide AllSettled, SettledAs, Seen, Shows, AllTakeBest, TakesBest, MachineKeys, BarredMachine, Serving, Daemon.Now, Rented, Told, PutDown, Limit;
      ghost var w, h0, asked0 := daemon.Now(), daemon.history, daemon.asked;
      LaterItself(w);
      live, tried, hostFailed, rentals := None, [], [], [];
      Begin();
      NothingTried(excludedMachines, excludedOffers);
      NothingToSettle(outside, asked0, h0);
      NothingTaken(outside, wanted, everFailed);
      if unready { // the local port is taken, or the stored keys cannot be read
        err := Some(Failure(false, "daemon.UpAndServe", false));
        return;
      }
      var attempt := 0;
      while true
        invariant Valid() && old(daemon.history) <= daemon.history && Later(w, daemon.Now())
        invariant Elsewhere() == old(Elsewhere()) && (attempt > 0 ==> upHold.None?)
        invariant 0 <= attempt < Limit() && |tried| == |hostFailed| == attempt
        invariant AllDifferent(tried) && AllCovered(tried, excludedMachines, excludedOffers)
        invariant forall i :: 0 <= i < |tried| ==> hostFailed[i]
        invariant everFailed == old(everFailed) + FailedHosts(tried, hostFailed)
        invariant AllTakeBest(outside, wanted, tried, old(everFailed))
        invariant excludedMachines == MachineKeys(FailedHosts(tried, hostFailed)) && |strikes| <= |tried|
        invariant excludedOffers == ListingKeys(everFailed)
        invariant daemon.rented == old(daemon.rented) + rentals && |rentals| == |tried| && asked0 <= daemon.asked
        invariant AllSettled(outside, hostFailed, false, rentals, asked0, daemon.asked, h0, daemon.history)
        decreases Limit() - attempt
      {
        ghost var w1, h1, asked1, machines, listings := daemon.Now(), daemon.history, daemon.asked, excludedMachines, excludedOffers;
        ghost var was := strikes;
        var served, offer, failed, host, more;
        ghost var rental;
        served, offer, failed, host, more, rental := TryOne(outside(attempt), wanted, now);
        LaterIsTransitive(w, w1, daemon.Now());
        if offer.None? {
          NothingRentedSince(outside(attempt), wanted, excludedMachines, excludedOffers, strikes, h0, h1, daemon.history);
          StillAllSettled(outside, hostFailed, rentals, asked0, asked1, daemon.asked, h0, h1, daemon.history);
          return None, failed, tried, hostFailed, rentals;
        }
        OneMoreTried(tried, hostFailed, offer.value, host, machines, listings, excludedMachines, excludedOffers);
        OneMoreTakesBest(outside, wanted, tried, hostFailed, old(everFailed), was, offer.value, host);
        OneMoreSettled(outside, hostFailed, host, served.Some?, rentals, rental, asked0, asked1, daemon.asked, h0, h1, daemon.history);
        attempt, tried, hostFailed, rentals := attempt + 1, tried + [offer.value], hostFailed + [host], rentals + [rental];
        if served.Some? || !more || attempt == Limit() { return served, failed, tried, hostFailed, rentals; }
      }
    }

    /** Takes up a rig whose process died. One holder a rig: on success the Live
        owns the one hold taken, on failure it is given back. */
    method Adopt(id: string, heldElsewhere: bool, now: Instant) returns (live: Option<Live>, err: Option<Fail>)
      requires Valid() && (!RigId.Valid(id) || id in daemon.store.snaps)
      modifies holds, daemon, daemon.store, daemon.provider
      ensures Valid() && old(daemon.history) <= daemon.history && Later(old(daemon.Now()), daemon.Now())
      ensures live.Some? <==> err.None?
      ensures live.None? ==> holds.outstanding == old(holds.outstanding)
      ensures live.Some? ==> fresh(live.value) && live.value.holds == holds && live.value.release.Some?
                             && live.value.copy.rig.id == id && live.value.copy.rig.state.Ready?
                             && live.value.release.value !in old(holds.outstanding)
                             && holds.outstanding == old(holds.outstanding) + {live.value.release.value}
      ensures err == Some(FoundGone) ==> Gone(daemon.Now(), id)
      ensures err == Some(HeldElsewhere) ==> heldElsewhere
      ensures AdoptedAsFound(id, old(daemon.store.snaps), heldElsewhere, old(daemon.history), daemon.history, err)
    {
      hide Inv, IsRun, Later, Truthful, Gone, Daemon.Valid;
      LaterItself(daemon.Now());
      var c, failed := daemon.ToAdopt(id);
      if failed.Some? { return None, failed; }
      var h := holds.Take(heldElsewhere);
      if h.None? { return None, Some(HeldElsewhere); }
      var built, broken := daemon.Adopt(c.value, now);
      if built {
        var l := new Live(c.value, holds, h.value);
        if broken.None? { return Some(l), None; }
        l.Close();
        return None, broken;
      }
      holds.Release(h.value);
      return None, broken;
    }
  }

  /** On a model with strikes enough to be skipped. */
  ghost predicate Retired(strikes: multiset<(string, string)>, o: Offer) {
    exists op :: strikes[(Trim(o.gpuModel), op)] >= 2
  }

  /** The Live owns the one hold more there is. */
  predicate Serving(l: Live, holds: Holds, before: set<nat>, after: set<nat>)
    reads l
  {
    && l.holds == holds && l.release.Some?
    && l.release.value !in before && after == before + {l.release.value}
  }

  lemma RentedIs(before: seq<Rental>, after: seq<Rental>, c: Option<Copy>)
    ensures c.Some? && Rented(before, after, c.value.rig) ==>
              |after| == |before| + 1 && after == before + [after[|before|]] && after[|before|].rig == c.value.rig.id
  {}

  /** Why an attempt rented nothing. */
  ghost predicate RentsNothing(o: Outside, wanted: Wanted, machines: seq<string>, listings: seq<string>,
                               strikes: multiset<(string, string)>, was: seq<World>, h: seq<World>) {
    || o.declined || o.heldElsewhere || Seen(was, h, Claimed(o.id)) || Seen(was, h, Refusing(o.id))
    || var weighed := Weighed(o.market, machines, listings, strikes);
       forall x :: x in weighed ==> Rank.Verdict(weighed, x, wanted.criteria, FitsOf(wanted), wanted.policy) != Rank.Eligible
  }

  lemma NothingRentedSince(o: Outside, wanted: Wanted, machines: seq<string>, listings: seq<string>,
                           strikes: multiset<(string, string)>, was0: seq<World>, was: seq<World>, h: seq<World>)
    requires was0 <= was <= h && RentsNothing(o, wanted, machines, listings, strikes, was, h)
    ensures RentsNothing(o, wanted, machines, listings, strikes, was0, h)
  {
    hide Seen, Weighed, Rank.Verdict;
    SeenSince(was0, was, h);
  }

  /** One more create was sent, for this rig; the instance it made is the copy's. */
  predicate Rented(before: seq<Rental>, after: seq<Rental>, r: Rig) {
    && |after| == |before| + 1 && before <= after && after[|before|].rig == r.id
    && (after[|before|].made.Some? ==> r.inst.Some? && after[|before|].made.value == r.inst.value.id && !r.state.Destroyed?)
  }

  /** A failed attempt fails as it was described: but for a create whose outcome is
      unknown, or the store's refusal, which are no host's failure. */
  predicate Told(f: Failure, said: Failure, rental: Rental, was: seq<World>, h: seq<World>) {
    if rental.error == Some(UnknownOutcome) then f == said.(host := false)
    else f == said || (!f.host && !f.timedOut && Seen(was, h, Refusing(rental.rig)))
  }

  lemma RentedByUp(rented: seq<Rental>, rented': seq<Rental>, fail: Option<Fail>, r: Rig, said: Failure,
                   was: seq<World>, h: seq<World>, asked: seq<string>, asked': seq<string>)
    requires |rented'| == |rented| + 1 && rented <= rented' && rented'[|rented|].rig == r.id
    requires CameOf(rented'[|rented|], fail, r, was, h, asked, asked')
    ensures Rented(rented, rented', r)
    ensures fail.Some? ==> Told(FailureOf(fail.value, said), said, rented'[|rented|], was, h)
    ensures fail.None? ==> rented'[|rented|].error.None?
    ensures fail.Some? && !fail.value.CreateFailed? ==> r.inst.Some? && rented'[|rented|].error.None?
  {
    hide Seen, Resolved, Journalled;
  }

  lemma ToldByServing(fail: Fail, said: Failure, rental: Rental, x: string, was0: seq<World>, was: seq<World>, h: seq<World>)
    requires was0 <= was <= h && rental.error.None? && BootExcused(rental.rig, x, was, h, Some(fail))
    ensures Told(FailureOf(fail, said), said, rental, was0, h)
  {
    hide Seen;
    SeenSince(was0, was, h);
  }

  /** A destroy of it was sent, unless the store would not write the rig. */
  predicate PutDown(rig: string, made: Option<string>, asked: seq<string>, asked': seq<string>, was: seq<World>, h: seq<World>) {
    made.Some? ==> (asked <= asked' && made.value in asked'[|asked|..]) || Seen(was, h, Refusing(rig))
  }

  /** One failed attempt: whether its host is to blame, and what it rented is put
      down. */
  ghost predicate SettledAs(o: Outside, host: bool, rental: Rental, asked: seq<string>, asked': seq<string>, was: seq<World>, h: seq<World>) {
    && (exists f :: Told(f, o.said, rental, was, h) && (host <==> f.host || (f.timedOut && !o.stopped)))
    && PutDown(rental.rig, rental.made, asked, asked', was, h)
  }

  /** Every attempt, but for the last where that one serves. */
  ghost predicate AllSettled(outside: nat -> Outside, hostFailed: seq<bool>, serves: bool, rentals: seq<Rental>,
                             asked: seq<string>, asked': seq<string>, was: seq<World>, h: seq<World>) {
    && |rentals| == |hostFailed|
    && forall i :: 0 <= i < (if serves then |hostFailed| - 1 else |hostFailed|) ==>
         SettledAs(outside(i), hostFailed[i], rentals[i], asked, asked', was, h)
  }

  lemma PutsDownNothing(r: Rig, asked: seq<string>, asked': seq<string>, was: seq<World>, h: seq<World>)
    requires r.inst.None?
    ensures PutDown(r.id, IdOf(r.inst), asked, asked', was, h)
  {}

  /** What the ranking chooses of the market shown, without what is barred. */
  ghost predicate TakesBest(out: Outside, wanted: Wanted, machines: seq<string>, listings: seq<string>,
                            strikes: multiset<(string, string)>, o: Offer) {
    o in out.market && Rank.Chosen(Weighed(out.market, machines, listings, strikes), wanted.criteria, FitsOf(wanted), wanted.policy, o)
  }

  /** Each attempt took the best of its market, with just the machines of the earlier
      ones barred, the listings that ever failed, and at most a strike for each of
      them. */
  ghost predicate AllTakeBest(outside: nat -> Outside, wanted: Wanted, tried: seq<Offer>, failed: seq<Offer>) {
    forall i :: 0 <= i < |tried| ==> TakesBestAfter(outside(i), wanted, tried[..i], failed, tried[i])
  }

  ghost predicate TakesBestAfter(out: Outside, wanted: Wanted, earlier: seq<Offer>, failed: seq<Offer>, o: Offer) {
    exists strikes: multiset<(string, string)> ::
      |strikes| <= |earlier| && TakesBest(out, wanted, MachineKeys(earlier), ListingKeys(failed + earlier), strikes, o)
  }

  lemma OneMoreTakesBest(outside: nat -> Outside, wanted: Wanted, tried: seq<Offer>, hostFailed: seq<bool>, failed: seq<Offer>,
                         strikes: multiset<(string, string)>, o: Offer, host: bool)
    requires |tried| == |hostFailed| && (forall i :: 0 <= i < |tried| ==> hostFailed[i]) && |strikes| <= |tried|
    requires AllTakeBest(outside, wanted, tried, failed)
    requires TakesBest(outside(|tried|), wanted, MachineKeys(FailedHosts(tried, hostFailed)),
                       ListingKeys(failed + FailedHosts(tried, hostFailed)), strikes, o)
    ensures AllTakeBest(outside, wanted, tried + [o], failed)
    ensures MachineKeys(FailedHosts(tried + [o], hostFailed + [host]))
            == MachineKeys(FailedHosts(tried, hostFailed)) + (if host then BarredMachine(o) else [])
  {
    hide TakesBest, MachineKeys, ListingKeys, BarredMachine, TakesBestAfter;
    AllFailed(tried, hostFailed);
    FailedNext(tried, hostFailed, o, host);
    MachineKeysSnoc(FailedHosts(tried, hostFailed), o);
    assert FailedHosts(tried, hostFailed) + [] == FailedHosts(tried, hostFailed);
    forall i | 0 <= i < |tried| + 1 ensures TakesBestAfter(outside(i), wanted, (tried + [o])[..i], failed, (tried + [o])[i]) {
      assert (tried + [o])[..i] == tried[..i];
      if i == |tried| {
        assert tried[..i] == tried;
        BestAfter(outside(i), wanted, tried, failed, strikes, o);
      }
    }
  }

  lemma BestAfter(out: Outside, wanted: Wanted, earlier: seq<Offer>, failed: seq<Offer>, strikes: multiset<(string, string)>, o: Offer)
    requires |strikes| <= |earlier| && TakesBest(out, wanted, MachineKeys(earlier), ListingKeys(failed + earlier), strikes, o)
    ensures TakesBestAfter(out, wanted, earlier, failed, o)
  {}

  lemma {:induction false} AllFailed(tried: seq<Offer>, hostFailed: seq<bool>)
    requires |tried| == |hostFailed| && forall i :: 0 <= i < |tried| ==> hostFailed[i]
    ensures FailedHosts(tried, hostFailed) == tried
  {
    if tried != [] {
      AllFailed(tried[..|tried| - 1], hostFailed[..|tried| - 1]);
      assert tried[..|tried| - 1] + [tried[|tried| - 1]] == tried;
    }
  }

  lemma NothingToSettle(outside: nat -> Outside, asked: seq<string>, h: seq<World>)
    ensures AllSettled(outside, [], false, [], asked, asked, h, h) 
  {}

  lemma NothingTaken(outside: nat -> Outside, wanted: Wanted, failed: seq<Offer>)
    ensures AllTakeBest(outside, wanted, [], failed) && MachineKeys([]) == []
  {}

  lemma SettledSince(o: Outside, host: bool, rental: Rental, asked0: seq<string>, asked: seq<string>, asked1: seq<string>, asked': seq<string>,
                     was0: seq<World>, was: seq<World>, h: seq<World>, h': seq<World>)
    requires was0 <= was && h <= h' && asked0 <= asked && asked1 <= asked' && SettledAs(o, host, rental, asked, asked1, was, h)
    ensures SettledAs(o, host, rental, asked0, asked', was0, h')
  {
    hide Seen;
    StillSeenThen(was0, was, h, h', Refusing(rental.rig));
    var f :| Told(f, o.said, rental, was, h) && (host <==> f.host || (f.timedOut && !o.stopped));
    assert Told(f, o.said, rental, was0, h');
    if rental.made.Some? && asked <= asked1 && rental.made.value in asked1[|asked|..] {
      var i :| 0 <= i < |asked1| - |asked| && asked1[|asked|..][i] == rental.made.value;
      assert asked'[|asked0|..][|asked| - |asked0| + i] == rental.made.value;
    }
  }

  lemma StillAllSettled(outside: nat -> Outside, hostFailed: seq<bool>, rentals: seq<Rental>, asked0: seq<string>, asked: seq<string>,
                     asked': seq<string>, was: seq<World>, h: seq<World>, h': seq<World>)
    requires h <= h' && asked <= asked' && AllSettled(outside, hostFailed, false, rentals, asked0, asked, was, h)
    ensures AllSettled(outside, hostFailed, false, rentals, asked0, asked', was, h')
  {
    hide SettledAs;
    forall i | 0 <= i < |hostFailed| ensures SettledAs(outside(i), hostFailed[i], rentals[i], asked0, asked', was, h') {
      SettledSince(outside(i), hostFailed[i], rentals[i], asked0, asked0, asked, asked', was, was, h, h');
    }
  }

  lemma AttemptSettled(o: Outside, failure: Failure, host: bool, r: Rig, rented: seq<Rental>, rented': seq<Rental>,
                       asked: seq<string>, asked1: seq<string>, asked': seq<string>, was: seq<World>, h: seq<World>, h': seq<World>)
    requires was <= h <= h' && asked <= asked1 && Rented(rented, rented', r) && Told(failure, o.said, rented'[|rented|], was, h)
    requires host <==> failure.host || (failure.timedOut && !o.stopped)
    requires !r.state.Destroyed? ==> PutDown(r.id, IdOf(r.inst), asked1, asked', h, h')
    ensures SettledAs(o, host, rented'[|rented|], asked, asked', was, h')
  {
    hide Seen;
    var rental := rented'[|rented|];
    StillSeenThen(was, was, h, h', Refusing(rental.rig));
    StillSeenThen(was, h, h', h', Refusing(rental.rig));
    assert Told(failure, o.said, rental, was, h');
    if rental.made.Some? && asked1 <= asked' && rental.made.value in asked'[|asked1|..] {
      var i :| 0 <= i < |asked'| - |asked1| && asked'[|asked1|..][i] == rental.made.value;
      assert asked'[|asked|..][|asked1| - |asked| + i] == rental.made.value;
    }
  }

  lemma OneMoreSettled(outside: nat -> Outside, hostFailed: seq<bool>, host: bool, serves: bool,
                       rentals: seq<Rental>, rental: Rental,
                       asked0: seq<string>, asked: seq<string>, asked': seq<string>, was: seq<World>, h: seq<World>, h': seq<World>)
    requires was <= h <= h' && asked0 <= asked <= asked'
    requires AllSettled(outside, hostFailed, false, rentals, asked0, asked, was, h)
    requires !serves ==> SettledAs(outside(|hostFailed|), host, rental, asked, asked', h, h')
    ensures AllSettled(outside, hostFailed + [host], serves, rentals + [rental], asked0, asked', was, h')
  {
    hide SettledAs;
    var n := |hostFailed|;
    StillAllSettled(outside, hostFailed, rentals, asked0, asked, asked', was, h, h');
    if !serves { SettledSince(outside(n), host, rental, asked0, asked, asked', asked', was, h, h', h'); }
  }

  /** Why an adoption came to what it did: refused on the stored record, or on what
      the provider said of the instance stored. */
  predicate AdoptedAsFound(id: string, snaps: map<string, Snapshot>, heldElsewhere: bool, was: seq<World>, h: seq<World>, err: Option<Fail>) {
    if !RigId.Valid(id) then err == Some(StoreFailed(MalformedId))
    else if id !in snaps then true
    else if snaps[id].Unreadable? then err == Some(StoreFailed(CannotRead))
    else
      var r := snaps[id].rig;
      if r.state.Destroyed? then err == Some(AlreadyOver)
      else if r.inst.None? then err == Some(NeverProvisioned)
      else if heldElsewhere then err == Some(HeldElsewhere)
      else AdoptExcused(id, r.inst.value.id, was, h, err)
  }

  // ---- what is weighed ----------------------------------------------------

  ghost function Standing(strikes: multiset<(string, string)>): Offer -> bool {
    (o: Offer) => !Retired(strikes, o)
  }

  /** Without the retired models, unless nothing else is left. */
  ghost function Narrowed(open: seq<Offer>, strikes: multiset<(string, string)>): seq<Offer> {
    if Keep(open, Standing(strikes)) == [] then open else Keep(open, Standing(strikes))
  }

  ghost function Weighed(market: seq<Offer>, machines: seq<string>, listings: seq<string>, strikes: multiset<(string, string)>): seq<Offer> {
    Narrowed(Keep(Keep(market, OffMachines(machines)), OffListings(listings)), strikes)
  }

  lemma {:induction false} KeepAgrees(offers: seq<Offer>, a: Offer -> bool, b: Offer -> bool)
    ensures (forall o :: o in offers ==> a(o) == b(o)) ==> Keep(offers, a) == Keep(offers, b)
  {
    if offers != [] { KeepAgrees(offers[..|offers| - 1], a, b); }
  }

  lemma {:induction false} KeepAll(offers: seq<Offer>, test: Offer -> bool)
    ensures (forall o :: o in offers ==> test(o)) ==> Keep(offers, test) == offers
  {
    if offers != [] {
      KeepAll(offers[..|offers| - 1], test);
      assert offers[..|offers| - 1] + [offers[|offers| - 1]] == offers;
    }
  }

  lemma NoneBarred(offers: seq<Offer>)
    ensures Keep(offers, OffMachines([])) == offers && Keep(offers, OffListings([])) == offers
  {
    KeepAll(offers, OffMachines([]));
    KeepAll(offers, OffListings([]));
  }

  // ---- one machine, one target --------------------------------------------

  /** Two attempts at one provider go the same way exactly when they go to one
      machine, or to one listing where the first names no machine. */
  lemma SameTargetIff(tried: Offer, o: Offer)
    requires tried.provider == o.provider
    ensures tried.machine != "" ==> (SameTarget(tried, o) <==> o.machine == tried.machine)
    ensures tried.machine == "" && tried.id != "" ==> (SameTarget(tried, o) <==> o.id == tried.id)
    ensures tried.machine == "" && tried.id == "" ==> !SameTarget(tried, o)
  {
    var m, l := |tried.provider + ":m"|, |tried.provider + ":o"|;
    assert tried.machine != "" ==> MachineKey(tried)[m..] == tried.machine;
    assert o.machine != "" ==> MachineKey(o)[m..] == o.machine;
    assert tried.id != "" ==> OfferKey(tried)[l..] == tried.id;
    assert o.id != "" ==> OfferKey(o)[l..] == o.id;
  }

  /** `t` is `s` from `i` up to `j`, with only blanks cut off, and all of them. */
  ghost predicate CutsBlanks(s: string, t: string, i: int, j: int) {
    && 0 <= i <= j <= |s| && t == s[i..j]
    && (forall k :: 0 <= k < i || j <= k < |s| ==> Blank(s[k]))
    && (i < j ==> !Blank(s[i]) && !Blank(s[j - 1]))
  }

  lemma CutFirst(s: string, t: string, i: int, j: int)
    requires s != "" && Blank(s[0]) && CutsBlanks(s[1..], t, i, j)
    ensures CutsBlanks(s, t, i + 1, j + 1)
  {
    hide Blank;
    assert s[1..][i..j] == s[i + 1..j + 1];
    forall k | 0 <= k < i + 1 || j + 1 <= k < |s| ensures Blank(s[k]) {
      if k > 0 { assert s[k] == s[1..][k - 1]; }
    }
  }

  lemma CutLast(s: string, t: string, i: int, j: int)
    requires s != "" && Blank(s[|s| - 1]) && CutsBlanks(s[..|s| - 1], t, i, j)
    ensures CutsBlanks(s, t, i, j)
  {
    hide Blank;
    assert s[..|s| - 1][i..j] == s[i..j];
    forall k | 0 <= k < i || j <= k < |s| ensures Blank(s[k]) {
      if k < |s| - 1 { assert s[k] == s[..|s| - 1][k]; }
    }
  }

  /** Only the blanks around a name are cut off, and all of them. */
  lemma {:induction false} TrimCutsBlanks(s: string)
    ensures exists i, j :: CutsBlanks(s, Trim(s), i, j)
  {
    hide Blank;
    if s == "" {
      assert CutsBlanks(s, Trim(s), 0, 0);
    } else if Blank(s[0]) {
      TrimCutsBlanks(s[1..]);
      var i, j :| CutsBlanks(s[1..], Trim(s[1..]), i, j);
      CutFirst(s, Trim(s[1..]), i, j);
      assert CutsBlanks(s, Trim(s), i + 1, j + 1);
    } else if Blank(s[|s| - 1]) {
      TrimCutsBlanks(s[..|s| - 1]);
      var i, j :| CutsBlanks(s[..|s| - 1], Trim(s[..|s| - 1]), i, j);
      CutLast(s, Trim(s[..|s| - 1]), i, j);
      assert CutsBlanks(s, Trim(s), i, j);
    } else {
      assert s[0..|s|] == s;
      assert CutsBlanks(s, Trim(s), 0, |s|);
    }
  }

  /** Tried and not to be tried again, if anything names it. */
  predicate Covered(tried: Offer, machines: seq<string>, listings: seq<string>) {
    if MachineKey(tried) != "" then MachineKey(tried) in machines
    else OfferKey(tried) != "" ==> OfferKey(tried) in listings
  }

  predicate AllDifferent(tried: seq<Offer>) {
    forall i, j :: 0 <= i < j < |tried| ==> !SameTarget(tried[i], tried[j])
  }

  predicate AllCovered(tried: seq<Offer>, machines: seq<string>, listings: seq<string>) {
    forall i :: 0 <= i < |tried| ==> Covered(tried[i], machines, listings)
  }

  /** Of the offers tried, those whose host failed. */
  function FailedHosts(tried: seq<Offer>, hostFailed: seq<bool>): seq<Offer>
    requires |tried| == |hostFailed|
  {
    if tried == [] then []
    else
      FailedHosts(tried[..|tried| - 1], hostFailed[..|tried| - 1])
      + (if hostFailed[|tried| - 1] then [tried[|tried| - 1]] else [])
  }

  lemma FailedNext(tried: seq<Offer>, hostFailed: seq<bool>, o: Offer, b: bool)
    requires |tried| == |hostFailed|
    ensures FailedHosts(tried + [o], hostFailed + [b]) == FailedHosts(tried, hostFailed) + (if b then [o] else [])
  {
    assert (tried + [o])[..|tried|] == tried && (hostFailed + [b])[..|tried|] == hostFailed;
  }

  lemma NothingTried(machines: seq<string>, listings: seq<string>)
    ensures AllDifferent([]) && AllCovered([], machines, listings) && FailedHosts([], []) == []
  {}

  /** One more attempt, at an offer the exclusions let through, repeats none; once
      it is covered too, all are. */
  lemma OneMoreTried(tried: seq<Offer>, hostFailed: seq<bool>, o: Offer, b: bool,
                     machines: seq<string>, listings: seq<string>, machines': seq<string>, listings': seq<string>)
    requires AllDifferent(tried) && AllCovered(tried, machines, listings) && !Barred(o, machines, listings)
    requires |tried| == |hostFailed| && machines <= machines' && listings <= listings'
    ensures AllDifferent(tried + [o])
    ensures Covered(o, machines', listings') ==> AllCovered(tried + [o], machines', listings')
    ensures FailedHosts(tried + [o], hostFailed + [b]) == FailedHosts(tried, hostFailed) + (if b then [o] else [])
  {
    hide Covered, Barred, SameTarget, FailedHosts;
    forall i | 0 <= i < |tried| ensures !SameTarget(tried[i], o) {
      CoveredIsNotRepeated(tried[i], o, machines, listings);
    }
    StillCovered(tried, machines, listings, machines', listings');
    FailedNext(tried, hostFailed, o, b);
  }

  lemma StillCovered(tried: seq<Offer>, machines: seq<string>, listings: seq<string>, machines': seq<string>, listings': seq<string>)
    requires AllCovered(tried, machines, listings) && machines <= machines' && listings <= listings'
    ensures AllCovered(tried, machines', listings')
    ensures forall o :: Covered(o, machines', listings') ==> AllCovered(tried + [o], machines', listings')
  {
    hide Covered;
    forall i | 0 <= i < |tried| ensures Covered(tried[i], machines', listings') {
      StaysCovered(tried[i], machines, listings, machines', listings');
    }
  }

  lemma ChosenIsListed(offers: seq<Offer>, w: Wanted, o: Offer)
    requires Rank.Chosen(offers, w.criteria, FitsOf(w), w.policy, o)
    ensures o in offers
  {}

  lemma NoEmptyKeys(failed: seq<Offer>)
    ensures "" !in ListingKeys(failed)
  {
    ListingKeysAre(failed);
  }

  /** Ranks, and sizes the launch on what was chosen. */
  method Choose(weighed: seq<Offer>, wanted: Wanted) returns (chosen: Option<Offer>, plan: Option<Sizing.Plan>)
    ensures chosen.Some? ==> Rank.Chosen(weighed, wanted.criteria, FitsOf(wanted), wanted.policy, chosen.value)
    ensures chosen.Some? ==> plan.Some? && Sizing.Launches(wanted.base, HostOf(chosen.value), plan.value)
    ensures chosen.None? ==> forall o :: o in weighed ==>
              Rank.Verdict(weighed, o, wanted.criteria, FitsOf(wanted), wanted.policy) != Rank.Eligible
  {
    hide Rank.Verdict, Rank.Classify, Rank.Before, Rank.InOrder, Rank.Chosen, Rank.SameTies;
    hide Sizing.MemoryFits, Sizing.Launches, Sizing.Sizeable, Sizing.ShardsOf, FitsOf;
    var sel := Rank.Select(weighed, wanted.criteria, FitsOf(wanted), wanted.policy);
    if sel.selected.None? { return None, None; }
    var o := sel.candidates[sel.selected.value].offer;
    ChosenFits(weighed, wanted, o);
    var placed := Sizing.Place(wanted.base, HostOf(o), wanted.tensorParallel);
    return Some(o), Some(placed.plan);
  }

  lemma ChosenFits(offers: seq<Offer>, w: Wanted, o: Offer)
    requires Rank.Chosen(offers, w.criteria, FitsOf(w), w.policy, o)
    ensures Sizing.MemoryFits(w.base, HostOf(o), w.tensorParallel)
  {
    hide Rank.Verdict, Rank.Before, Sizing.MemoryFits;
    Rank.EligibleFits(offers, o, w.criteria, FitsOf(w), w.policy);
  }

  lemma CoveredIsNotRepeated(tried: Offer, o: Offer, machines: seq<string>, listings: seq<string>)
    requires Covered(tried, machines, listings) && !Barred(o, machines, listings)
    ensures !SameTarget(tried, o)
  {}

  lemma StaysCovered(tried: Offer, machines: seq<string>, listings: seq<string>, machines': seq<string>, listings': seq<string>)
    requires Covered(tried, machines, listings) && machines <= machines' && listings <= listings'
    ensures Covered(tried, machines', listings')
  {
    assert forall k :: k in machines ==> k in machines';
    assert forall k :: k in listings ==> k in listings';
  }
}
