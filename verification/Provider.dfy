/** A marketplace that misbehaves: calls that fail, creates that error and land
    all the same, destroys that only stop. */
module Provider {
  import opened Accounting
  import opened Store
  import opened Wrappers

  datatype CreateFate = Answers | NeverSent | Refuses | ErrsYetLands | TimesOut(landed: bool)

  /** How the provider behaves at the moment, whether its hosts do what they are
      asked, and whether anyone still waits for it. */
  datatype Behaviour = Behaviour(unreachable: bool, destroyOnlyStops: bool, onCreate: CreateFate, hostWorks: bool, waiting: bool)

  /** What a caller learns from a create that returned no instance. */
  datatype CreateError = NotSent | Refused | UnknownOutcome

  class Provider {
    var instances: map<string, Instance>
    var issued: set<string>
    var behaviour: Behaviour
    ghost var early: set<string>     // rigs ended before that was settled
    var creates: map<string, Create> // what became of each create: true, and shown to no caller

    constructor (b: Behaviour)
      ensures instances == map[] && issued == {} && creates == map[] && early == {} && behaviour == b
    {
      instances, issued, behaviour := map[], {}, b;
      creates, early := map[], {};
    }

    /** Running or not; absent from an answer is absent. */
    method Get(id: string) returns (found: Option<Instance>, answered: bool)
      ensures answered <==> !behaviour.unreachable
      ensures found == if answered && id in instances then Some(instances[id]) else None
    {
      if behaviour.unreachable { return None, false; }
      found := if id in instances then Some(instances[id]) else None;
      answered := true;
    }

    /** Every instance held, running or not. */
    method List() returns (all: seq<Instance>, answered: bool)
      ensures answered <==> !behaviour.unreachable
      ensures answered ==> forall i :: i in all <==> exists x :: x in instances && instances[x] == i
      ensures (forall x :: x in instances ==> instances[x].id == x) ==>
                forall i, j :: 0 <= i < j < |all| ==> all[i].id != all[j].id
    {
      all := [];
      if behaviour.unreachable { return [], false; }
      answered := true;
      var left := instances.Keys;
      while left != {}
        invariant left <= instances.Keys
        invariant forall i :: i in all <==> exists x :: x in instances && x !in left && instances[x] == i
        invariant (forall x :: x in instances ==> instances[x].id == x) ==>
                    forall i, j :: 0 <= i < j < |all| ==> all[i].id != all[j].id
      {
        var x :| x in left;
        forall i | 0 <= i < |all| && (forall x :: x in instances ==> instances[x].id == x) ensures all[i].id != x {
          assert all[i] in all;
        }
        left := left - {x};
        all := all + [instances[x]];
      }
    }

    method Destroy(id: string) returns (accepted: bool)
      modifies this`instances
      ensures accepted <==> !behaviour.unreachable
      ensures instances ==
              if behaviour.unreachable || id !in old(instances) then old(instances)
              else if behaviour.destroyOnlyStops then old(instances)[id := old(instances)[id].(running := false)]
              else old(instances) - {id}
    {
      if behaviour.unreachable { return false; }
      accepted := true;
      if id !in instances { return; }
      if behaviour.destroyOnlyStops {
        instances := instances[id := instances[id].(running := false)];
      } else {
        instances := instances - {id};
      }
    }

    /** The one create of a rig. Whatever it answers, the create has settled,
        save one whose outcome the caller is told is unknown. */
    method Create(rig: string, price: real, storage: real) returns (inst: Option<Instance>, error: Option<CreateError>)
      requires rig in creates && creates[rig].ToBeSent?
      modifies this
      ensures behaviour == old(behaviour) && early == old(early)
      ensures inst.Some? <==> error.None?
      ensures error == if behaviour.unreachable then Some(Refused)
                       else match behaviour.onCreate
                         case Answers => None
                         case NeverSent => Some(NotSent)
                         case TimesOut(_) => Some(UnknownOutcome)
                         case _ => Some(Refused)
      ensures rig in creates
      ensures creates[rig].InDoubt? <==> !behaviour.unreachable && behaviour.onCreate == TimesOut(false)
      ensures creates[rig] == Settled(None) <==> behaviour.unreachable || behaviour.onCreate.Refuses? || behaviour.onCreate.NeverSent?
      ensures var made := creates[rig];
              && creates == old(creates)[rig := made] && !made.ToBeSent?
              && (made.InDoubt? ==> error == Some(UnknownOutcome))
              && (inst.Some? ==> made == Settled(Some(inst.value.id)) && inst.value.id in instances && instances[inst.value.id] == inst.value)
              && (error == Some(NotSent) ==> made == Settled(None))
              && (if made.Settled? && made.made.Some?
                  then var x := made.made.value;
                    && x !in old(issued) && issued == old(issued) + {x}
                    && instances == old(instances)[x := Instance(x, Some(rig), true, price, storage)]
                  else issued == old(issued) && instances == old(instances))
    {
      if behaviour.unreachable || behaviour.onCreate.Refuses? {
        creates := creates[rig := Settled(None)];
        return None, Some(Refused);
      }
      if behaviour.onCreate.NeverSent? {
        creates := creates[rig := Settled(None)];
        return None, Some(NotSent);
      }
      if behaviour.onCreate == TimesOut(false) {
        creates := creates[rig := InDoubt];
        return None, Some(UnknownOutcome);
      }
      FreshExists(issued);
      var x :| x !in issued;
      var made := Instance(x, Some(rig), true, price, storage);
      issued := issued + {x};
      instances := instances[x := made];
      creates := creates[rig := Settled(Some(x))];
      match behaviour.onCreate {
        case ErrsYetLands => return None, Some(Refused);
        case TimesOut(_) => return None, Some(UnknownOutcome);
        case _ => return Some(made), None;
      }
    }
  }

  lemma Longest(ids: set<string>) returns (n: nat)
    ensures forall x :: x in ids ==> |x| <= n
  {
    n := 0;
    var left := ids;
    while left != {}
      invariant left <= ids && forall x :: x in ids - left ==> |x| <= n
    {
      var x :| x in left;
      left := left - {x};
      n := if |x| <= n then n else |x|;
    }
  }

  lemma FreshExists(ids: set<string>)
    ensures exists x: string :: x !in ids
  {
    var n := Longest(ids);
    var x: string := seq(n + 1, i => 'x');
    assert x !in ids;
  }
}
