/** The state directory: a journal of what was attempted and one snapshot per
    rig, written by processes that may hold stale copies or die at any point. */
module Store {
  import opened Journal
  import opened Lifecycle
  import opened Order
  import opened Wrappers
  import RigId

  datatype Instance = Instance(id: string, tag: Option<string>, running: bool, price: real, storage: real)

  datatype Move = Move(at: Instant, from: State, to: State)

  datatype Rig = Rig(
    id: string,
    state: State,
    quote: real,
    inst: Option<Instance>,
    end: Option<Ending>,
    history: seq<Move>)

  /** A process's own copy of a rig. */
  class Copy {
    var rig: Rig

    constructor (r: Rig)
      ensures rig == r
    {
      rig := r;
    }
  }

  datatype Snapshot = Good(rig: Rig) | Unreadable

  /** Where an operation is cut short, by an error or by the process dying. What
      reached the disk before a failed sync is there all the same. */
  datatype Fault = NoFault | LockFails | AppendFails(landed: bool) | WriteFails(landed: bool)

  datatype Error = MalformedId | NoLock | AlreadyDestroyed | CannotRead | NotJournalled | NotSaved

  /** What survives a crash. */
  datatype Disk = Disk(journal: seq<Entry>, snaps: map<string, Snapshot>)

  function BilledPrice(r: Rig): real {
    if r.inst.Some? && r.inst.value.price > 0.0 then r.inst.value.price else r.quote
  }

  function EntryOf(r: Rig, to: State, now: Instant): Entry {
    Entry(now, r.id, r.state, to,
          if r.inst.Some? then Some(r.inst.value.id) else None,
          BilledPrice(r),
          if r.inst.Some? then r.inst.value.storage else 0.0,
          true,
          if to.Destroyed? then r.end else None)
  }

  /** What alone keeps a rig from being written: a fault of the disk, a snapshot
      that is destroyed or cannot be read, or a malformed ID. */
  predicate WontWrite(d: Disk, fault: Fault, id: string) {
    || fault != NoFault || !RigId.Valid(id)
    || (id in d.snaps && (d.snaps[id].Unreadable? || d.snaps[id].rig.state.Destroyed?))
  }

  /** Whether a snapshot forbids a copy in one state to write another. */
  function Guard(snaps: map<string, Snapshot>, r: Rig, to: State): Option<Error> {
    if r.id !in snaps then None
    else if snaps[r.id].Unreadable? then if to.Destroyed? then None else Some(CannotRead)
    else if snaps[r.id].rig.state.Destroyed? && !(to.Destroyed? && r.state.Destroyed?) then Some(AlreadyDestroyed)
    else None
  }

  function Moved(r: Rig, to: State, now: Instant): Rig {
    r.(state := to, history := r.history + [Move(now, r.state, to)])
  }

  class Store {
    var journal: seq<Entry>
    var snaps: map<string, Snapshot>
    var fault: Fault // what goes wrong with the disk at the moment

    constructor ()
      ensures journal == [] && snaps == map[] && fault == NoFault
    {
      journal, snaps, fault := [], map[], NoFault;
    }

    function OnDisk(): Disk
      reads this
    {
      Disk(journal, snaps)
    }

    method Append(e: Entry, fault: Fault) returns (err: Option<Error>)
      modifies this`journal
      ensures journal == if fault == AppendFails(false) then old(journal) else old(journal) + [e]
      ensures err == if fault.AppendFails? then Some(NotJournalled) else None
    {
      if fault != AppendFails(false) { journal := journal + [e]; }
      err := if fault.AppendFails? then Some(NotJournalled) else None;
    }

    /** The entry that must precede the spend it names. No guard, no lock. */
    method RecordIntent(c: Copy, to: State, now: Instant, fault: Fault) returns (err: Option<Error>)
      modifies this`journal
      ensures journal == old(journal) || journal == old(journal) + [EntryOf(c.rig, to, now)]
      ensures err.None? ==> journal == old(journal) + [EntryOf(c.rig, to, now)]
      ensures OnDisk() == After(old(OnDisk()), IntentBy(c.rig, to, now, fault)).0
      ensures err == After(old(OnDisk()), IntentBy(c.rig, to, now, fault)).1
    {
      err := Append(EntryOf(c.rig, to, now), fault);
    }

    method Load(id: string) returns (found: Option<Rig>, err: Option<Error>)
      ensures err == (if !RigId.Valid(id) then Some(MalformedId)
                      else if id in snaps && snaps[id].Unreadable? then Some(CannotRead) else None)
      ensures found.Some? <==> err.None? && id in snaps
      ensures found.Some? ==> snaps[id] == Good(found.value)
      ensures found.None? && err.None? <==> RigId.Valid(id) && id !in snaps
    {
      found := None;
      if !RigId.Valid(id) { return None, Some(MalformedId); }
      if id !in snaps { return None, None; }
      match snaps[id] {
        case Unreadable => return None, Some(CannotRead);
        case Good(r) => return Some(r), None;
      }
    }

    method GuardDestroyed(r: Rig, to: State) returns (err: Option<Error>)
      requires RigId.Valid(r.id)
      ensures err == Guard(snaps, r, to)
    {
      var cur, failed := Load(r.id);
      if failed.Some? {
        if to.Destroyed? { return None; }
        return failed;
      }
      if cur.None? || !cur.value.state.Destroyed? { return None; }
      if !to.Destroyed? || !r.state.Destroyed? { return Some(AlreadyDestroyed); }
      err := None;
    }

    /** Temporary file, sync, rename, sync the directory: all or nothing. */
    method Write(r: Rig, fault: Fault) returns (err: Option<Error>)
      modifies this`snaps
      ensures snaps == if fault == WriteFails(false) then old(snaps) else old(snaps)[r.id := Good(r)]
      ensures err == if fault.WriteFails? then Some(NotSaved) else None
    {
      if fault != WriteFails(false) { snaps := snaps[r.id := Good(r)]; }
      err := if fault.WriteFails? then Some(NotSaved) else None;
    }

    /** Journals a move and replaces the snapshot. A copy whose write failed has
        moved all the same; one refused or not journalled has not. */
    method Transition(c: Copy, to: State, now: Instant, fault: Fault) returns (err: Option<Error>)
      modifies this`journal, this`snaps, c
      ensures err.Some? ==> WontWrite(OnDisk(), fault, c.rig.id)
      ensures !WontWrite(old(OnDisk()), fault, c.rig.id) ==> err.None?
      ensures OnDisk() == After(old(OnDisk()), MoveBy(old(c.rig), to, now, fault)).0
      ensures err == After(old(OnDisk()), MoveBy(old(c.rig), to, now, fault)).1
      ensures c.rig == if err.None? || err == Some(NotSaved) then Moved(old(c.rig), to, now) else old(c.rig)
      ensures err.None? || err == Some(NotSaved) ==> journal == old(journal) + [EntryOf(old(c.rig), to, now)]
      ensures err.None? ==> snaps == old(snaps)[c.rig.id := Good(c.rig)]
      ensures snaps == old(snaps) || snaps == old(snaps)[c.rig.id := Good(c.rig)]
      ensures journal == old(journal) || journal == old(journal) + [EntryOf(old(c.rig), to, now)]
      ensures journal == old(journal) ==> snaps == old(snaps)
      ensures err == Some(AlreadyDestroyed) ==> journal == old(journal) && RigId.Valid(c.rig.id) && DestroyedIn(OnDisk(), c.rig.id)
      ensures to.Destroyed? && (old(c.rig.state.Destroyed?) || err != Some(AlreadyDestroyed)) && err.Some? ==>
                fault != NoFault || !RigId.Valid(c.rig.id)
    {
      if !RigId.Valid(c.rig.id) { return Some(MalformedId); }
      if fault.LockFails? { return Some(NoLock); }
      err := GuardDestroyed(c.rig, to);
      if err.Some? { return; }
      err := RecordIntent(c, to, now, fault);
      if err.Some? { return; }
      c.rig := c.rig.(history := c.rig.history + [Move(now, c.rig.state, to)]);
      c.rig := c.rig.(state := to);
      err := Write(c.rig, fault);
    }

    method Save(c: Copy, fault: Fault) returns (err: Option<Error>)
      modifies this`snaps
      ensures OnDisk() == After(old(OnDisk()), SaveBy(c.rig, fault)).0
      ensures err == After(old(OnDisk()), SaveBy(c.rig, fault)).1
      ensures err.None? ==> snaps == old(snaps)[c.rig.id := Good(c.rig)]
      ensures err.Some? ==> WontWrite(OnDisk(), fault, c.rig.id)
    {
      if !RigId.Valid(c.rig.id) { return Some(MalformedId); }
      if fault.LockFails? { return Some(NoLock); }
      err := GuardDestroyed(c.rig, c.rig.state);
      if err.Some? { return; }
      err := Write(c.rig, fault);
    }

    /** The rigs the journal leaves in a state that may be costing money, in the
        order they first appear, each once. */
    method Billable() returns (out: seq<string>)
      ensures forall id :: id in out <==> LastTo(journal, id).Some? && Lifecycle.Billable(LastTo(journal, id).value)
      ensures forall i, j :: 0 <= i < j < |out| ==> out[i] != out[j]
      ensures out == BillableIn(FirstSeen(journal), journal)
    {
      hide LastTo, FirstSeen;
      var last: map<string, State>, order: seq<string> := map[], [];
      NothingSeen();
      for i := 0 to |journal|
        invariant order == FirstSeen(journal[..i])
        invariant forall id :: id in last <==> id in order
        invariant forall id :: LastTo(journal[..i], id) == if id in last then Some(last[id]) else None
      {
        SeenNext(journal, i);
        if journal[i].rig !in last { order := order + [journal[i].rig]; }
        last := last[journal[i].rig := journal[i].to];
      }
      assert journal[..|journal|] == journal;
      out := [];
      for i := 0 to |order|
        invariant out == BillableIn(order[..i], journal)
      {
        assert order[..i + 1][..i] == order[..i];
        assert order[i] in last;
        if Lifecycle.Billable(last[order[i]]) { out := out + [order[i]]; }
      }
      assert order[..|order|] == order;
      BillableInIs(order, journal);
      FirstSeenOnce(journal);
      BillableInOnce(order, journal);
      SeenIffLast(journal);
    }

    /** Every readable snapshot under a well-formed ID, greatest ID first; an
        error when one of them cannot be read. */
    method List() returns (out: seq<Rig>, err: Option<Error>)
      requires forall id :: id in snaps && snaps[id].Good? ==> snaps[id].rig.id == id
      ensures err == if exists id :: id in snaps && RigId.Valid(id) && snaps[id].Unreadable? then Some(CannotRead) else None
      ensures err.Some? ==> out == []
      ensures err.None? ==> forall r :: r in out <==> r.id in snaps && RigId.Valid(r.id) && snaps[r.id] == Good(r)
      ensures forall i, j :: 0 <= i < j < |out| ==> Less(out[j].id, out[i].id)
    {
      var left, ids: seq<string> := snaps.Keys, [];
      while left != {}
        invariant left <= snaps.Keys
        invariant forall id :: id in ids <==> id in snaps.Keys - left && RigId.Valid(id)
        invariant Descending(ids)
      {
        var id :| id in left;
        left := left - {id};
        if RigId.Valid(id) { ids := InsertDescending(ids, id); }
      }
      out := [];
      for i := 0 to |ids|
        invariant |out| == i
        invariant forall j :: 0 <= j < i ==> ids[j] in snaps && snaps[ids[j]] == Good(out[j])
      {
        var r, failed := Load(ids[i]);
        if failed.Some? { assert ids[i] in snaps && snaps[ids[i]].Unreadable?; return [], failed; }
        if r.Some? { out := out + [r.value]; }
      }
      err := None;
      forall r: Rig | r.id in snaps && RigId.Valid(r.id) && snaps[r.id] == Good(r) ensures r in out {
        var i :| 0 <= i < |ids| && ids[i] == r.id;
        assert out[i] == r;
      }
      assert forall id :: id in snaps && RigId.Valid(id) ==> exists i :: 0 <= i < |ids| && ids[i] == id;
    }
  }

  predicate Descending(ids: seq<string>) {
    forall i, j :: 0 <= i < j < |ids| ==> Less(ids[j], ids[i])
  }

  method InsertDescending(ids: seq<string>, id: string) returns (out: seq<string>)
    requires Descending(ids) && id !in ids
    ensures Descending(out)
    ensures forall x :: x in out <==> x in ids || x == id
  {
    hide Less;
    var k := 0;
    while k < |ids| && Less(id, ids[k])
      invariant 0 <= k <= |ids|
      invariant forall j :: 0 <= j < k ==> Less(id, ids[j])
    {
      k := k + 1;
    }
    forall j | k <= j < |ids| ensures Less(ids[j], id) {
      LessIsTotal(id, ids[k]);
      if k < j { LessIsTransitive(ids[j], ids[k], id); }
    }
    out := ids[..k] + [id] + ids[k..];
  }

  /** Greatest ID first is newest first, to the millisecond an ID carries. */
  lemma ListedNewestFirst(out: seq<Rig>)
    requires forall i :: 0 <= i < |out| ==> RigId.Valid(out[i].id)
    requires forall i, j :: 0 <= i < j < |out| ==> Less(out[j].id, out[i].id)
    ensures forall i, j :: 0 <= i < j < |out| ==> RigId.Minted(out[j].id) <= RigId.Minted(out[i].id)
  {
    hide RigId.Minted, RigId.Valid, Less;
    forall i, j | 0 <= i < j < |out| ensures RigId.Minted(out[j].id) <= RigId.Minted(out[i].id) {
      RigId.LaterIdsAreNewer(out[j].id, out[i].id);
    }
  }

  // ---- the journal's last word -------------------------------------------

  function LastTo(es: seq<Entry>, id: string): Option<State> {
    if es == [] then None
    else if es[|es| - 1].rig == id then Some(es[|es| - 1].to)
    else LastTo(es[..|es| - 1], id)
  }

  function FirstSeen(es: seq<Entry>): seq<string> {
    if es == [] then []
    else
      var rest := FirstSeen(es[..|es| - 1]);
      if es[|es| - 1].rig in rest then rest else rest + [es[|es| - 1].rig]
  }

  predicate Costs(es: seq<Entry>, id: string) {
    LastTo(es, id).Some? && Lifecycle.Billable(LastTo(es, id).value)
  }

  function BillableIn(ids: seq<string>, es: seq<Entry>): seq<string> {
    if ids == [] then []
    else
      var rest := BillableIn(ids[..|ids| - 1], es);
      if Costs(es, ids[|ids| - 1]) then rest + [ids[|ids| - 1]] else rest
  }

  lemma NothingSeen()
    ensures FirstSeen([]) == [] && forall id :: LastTo([], id) == None
  {}

  lemma SeenNext(es: seq<Entry>, i: nat)
    requires i < |es|
    ensures var seen := FirstSeen(es[..i]);
            FirstSeen(es[..i + 1]) == if es[i].rig in seen then seen else seen + [es[i].rig]
    ensures forall id :: LastTo(es[..i + 1], id) == Latest(es[i], LastTo(es[..i], id), id)
  {
    assert es[..i + 1] == es[..i] + [es[i]];
    forall id: string ensures LastTo(es[..i + 1], id) == Latest(es[i], LastTo(es[..i], id), id) {
      LastToNext(es[..i], es[i], id);
    }
    assert es[..i + 1][..i] == es[..i];
  }

  function Latest(e: Entry, earlier: Option<State>, id: string): Option<State> {
    if e.rig == id then Some(e.to) else earlier
  }

  lemma LastToNext(es: seq<Entry>, e: Entry, id: string)
    ensures LastTo(es + [e], id) == Latest(e, LastTo(es, id), id)
  {
    assert (es + [e])[..|es|] == es;
  }

  lemma {:induction false} FirstSeenOnce(es: seq<Entry>)
    ensures forall i, j :: 0 <= i < j < |FirstSeen(es)| ==> FirstSeen(es)[i] != FirstSeen(es)[j]
  {
    if es != [] { FirstSeenOnce(es[..|es| - 1]); }
  }

  lemma {:induction false} SeenIffLast(es: seq<Entry>)
    ensures forall id :: id in FirstSeen(es) <==> LastTo(es, id).Some?
  {
    if es != [] { SeenIffLast(es[..|es| - 1]); }
  }

  lemma {:induction false} BillableInIs(ids: seq<string>, es: seq<Entry>)
    ensures forall id :: id in BillableIn(ids, es) <==> id in ids && Costs(es, id)
  {
    if ids != [] { BillableInIs(ids[..|ids| - 1], es); }
  }

  lemma {:induction false} BillableInOnce(ids: seq<string>, es: seq<Entry>)
    requires forall i, j :: 0 <= i < j < |ids| ==> ids[i] != ids[j]
    ensures var b := BillableIn(ids, es); forall i, j :: 0 <= i < j < |b| ==> b[i] != b[j]
  {
    if ids != [] {
      var before, id := ids[..|ids| - 1], ids[|ids| - 1];
      BillableInOnce(before, es);
      BillableInIs(before, es);
      assert id !in BillableIn(before, es);
    }
  }

  // ---- any number of processes, each with any copy -----------------------

  datatype Op =
    | IntentBy(copy: Rig, to: State, at: Instant, fault: Fault)
    | MoveBy(copy: Rig, to: State, at: Instant, fault: Fault)
    | SaveBy(copy: Rig, fault: Fault)

  /** What one operation leaves on disk, and what it reports if its process lives. */
  function After(d: Disk, op: Op): (Disk, Option<Error>) {
    match op
    case IntentBy(r, to, at, fault) =>
      (if fault == AppendFails(false) then d else d.(journal := d.journal + [EntryOf(r, to, at)]),
       if fault.AppendFails? then Some(NotJournalled) else None)
    case MoveBy(r, to, at, fault) =>
      if !RigId.Valid(r.id) then (d, Some(MalformedId))
      else if fault.LockFails? then (d, Some(NoLock))
      else if Guard(d.snaps, r, to).Some? then (d, Guard(d.snaps, r, to))
      else if fault == AppendFails(false) then (d, Some(NotJournalled))
      else
        var journal := d.journal + [EntryOf(r, to, at)];
        if fault.AppendFails? then (d.(journal := journal), Some(NotJournalled))
        else if fault == WriteFails(false) then (d.(journal := journal), Some(NotSaved))
        else (Disk(journal, d.snaps[r.id := Good(Moved(r, to, at))]), if fault.WriteFails? then Some(NotSaved) else None)
    case SaveBy(r, fault) =>
      if !RigId.Valid(r.id) then (d, Some(MalformedId))
      else if fault.LockFails? then (d, Some(NoLock))
      else if Guard(d.snaps, r, r.state).Some? then (d, Guard(d.snaps, r, r.state))
      else if fault == WriteFails(false) then (d, Some(NotSaved))
      else (d.(snaps := d.snaps[r.id := Good(r)]), if fault.WriteFails? then Some(NotSaved) else None)
  }

  function Run(d: Disk, ops: seq<Op>): Disk {
    if ops == [] then d else After(Run(d, ops[..|ops| - 1]), ops[|ops| - 1]).0
  }

  predicate DestroyedIn(d: Disk, id: string) {
    id in d.snaps && d.snaps[id].Good? && d.snaps[id].rig.state.Destroyed?
  }

  /** A copy whose holder already knew the rig was destroyed. */
  predicate KnewOfTheEnd(op: Op, id: string) {
    op.copy.id == id && op.copy.state.Destroyed?
  }

  /** However stale the copies, a rig stored as destroyed stays destroyed, and
      its record is the one it had unless a process that already knew of the end
      wrote another. */
  lemma {:induction false} DestroyedStaysDestroyed(d: Disk, ops: seq<Op>, id: string)
    requires DestroyedIn(d, id)
    ensures DestroyedIn(Run(d, ops), id)
    ensures (forall op :: op in ops ==> !KnewOfTheEnd(op, id)) ==> Run(d, ops).snaps[id] == d.snaps[id]
  {
    if ops != [] {
      var before := ops[..|ops| - 1];
      DestroyedStaysDestroyed(d, before, id);
      assert ops[|ops| - 1] in ops && forall op :: op in before ==> op in ops;
    }
  }

  /** Cut short anywhere, an operation leaves whole snapshots, old or new, of one
      rig at most, and the journal never behind: a new state on disk has its
      entry, and at most one entry is there without its snapshot. */
  lemma CrashLeavesWholeSnapshots(d: Disk, op: Op)
    ensures var d' := After(d, op).0;
            && (forall id :: id != op.copy.id ==> (id in d'.snaps <==> id in d.snaps))
            && (forall id :: id != op.copy.id && id in d.snaps ==> d'.snaps[id] == d.snaps[id])
            && (d'.snaps == d.snaps
                || d'.snaps == d.snaps[op.copy.id := Good(if op.MoveBy? then Moved(op.copy, op.to, op.at) else op.copy)])
            && (op.SaveBy? ==> d'.journal == d.journal)
            && (!op.SaveBy? ==> d'.journal == d.journal || d'.journal == d.journal + [EntryOf(op.copy, op.to, op.at)])
            && (op.MoveBy? && d'.snaps != d.snaps ==> d'.journal == d.journal + [EntryOf(op.copy, op.to, op.at)])
  {}

  /** A move of a copy taken from the snapshot and cut short can be made again:
      the second attempt is not refused, and ends as the first would have. */
  lemma CrashedMoveCanBeRepeated(d: Disk, r: Rig, to: State, at: Instant, fault: Fault, again: Instant)
    requires RigId.Valid(r.id) && r.id in d.snaps && d.snaps[r.id] == Good(r)
    requires fault == WriteFails(false) || fault.AppendFails?
    requires !r.state.Destroyed? || to.Destroyed?
    ensures var d' := After(d, MoveBy(r, to, at, fault)).0;
            var (d'', err) := After(d', MoveBy(r, to, again, NoFault));
            && err == None && d''.snaps == d.snaps[r.id := Good(Moved(r, to, again))]
            && LastTo(d''.journal, r.id) == Some(to)
  {}

  /** What a process that dies mid-teardown leaves: a snapshot that still says
      the rig lives, and a journal that no longer bills it. */
  predicate JournalAgrees(d: Disk, id: string) {
    id in d.snaps && d.snaps[id].Good? ==> LastTo(d.journal, id) == Some(d.snaps[id].rig.state)
  }

  /** Every move that finishes leaves journal and snapshot agreeing. */
  lemma FinishedMovesAgree(d: Disk, op: Op)
    requires op.MoveBy? && After(d, op).1.None?
    ensures JournalAgrees(After(d, op).0, op.copy.id)
    ensures forall id :: id != op.copy.id && JournalAgrees(d, id) ==> JournalAgrees(After(d, op).0, id)
  {
    var r := op.copy;
    var j := d.journal + [EntryOf(r, op.to, op.at)];
    assert j[..|j| - 1] == d.journal;
  }

  // ---- what the journal says of a destroyed rig --------------------------

  /** An operation that leaves an entry for a rig stored as destroyed: an intent,
      which nothing refuses, or another record of the end by a process that
      already knew of it. */
  predicate Speaks(op: Op, id: string) {
    op.copy.id == id && (op.IntentBy? || op.MoveBy?) && op.fault != AppendFails(false)
    && (op.MoveBy? ==> RigId.Valid(id) && !op.fault.LockFails? && op.to.Destroyed? && op.copy.state.Destroyed?)
  }

  /** The state the last of the operations that speak of the rig journals. */
  function LastWord(ops: seq<Op>, id: string): Option<State> {
    if ops == [] then None
    else
      var last := ops[|ops| - 1];
      if Speaks(last, id) then Some(last.to) else LastWord(ops[..|ops| - 1], id)
  }

  lemma SpeaksIs(d: Disk, op: Op, id: string)
    requires DestroyedIn(d, id)
    ensures LastTo(After(d, op).0.journal, id) == if Speaks(op, id) then Some(op.to) else LastTo(d.journal, id)
  {
    hide LastTo;
    if op.IntentBy? || op.MoveBy? { LastToNext(d.journal, EntryOf(op.copy, op.to, op.at), id); }
  }

  /** One operation puts a rig stored as destroyed back among the billable ones
      exactly when it is an intent to a billable state whose entry was written. */
  lemma RebilledIffIntent(d: Disk, op: Op, id: string)
    requires DestroyedIn(d, id) && !Costs(d.journal, id)
    ensures Costs(After(d, op).0.journal, id)
            <==> op.IntentBy? && op.copy.id == id && Lifecycle.Billable(op.to) && op.fault != AppendFails(false)
  {
    hide LastTo, After;
    SpeaksIs(d, op, id);
  }

  /** Over any interleaving, the journal says of a rig stored as destroyed what it
      said before, or what the last operation that speaks of it said. */
  lemma {:induction false} JournalAfterTheEnd(d: Disk, ops: seq<Op>, id: string)
    requires DestroyedIn(d, id)
    ensures LastTo(Run(d, ops).journal, id) == if LastWord(ops, id).Some? then LastWord(ops, id) else LastTo(d.journal, id)
  {
    hide LastTo, After, Speaks;
    if ops != [] {
      var before := ops[..|ops| - 1];
      JournalAfterTheEnd(d, before, id);
      DestroyedStaysDestroyed(d, before, id);
      SpeaksIs(Run(d, before), ops[|ops| - 1], id);
    }
  }

  /** A rig stored as destroyed and not billed ends up billed exactly when some
      intent to a billable state was written for it and neither another intent nor
      a record of the end came after. */
  lemma RebilledIffUnansweredIntent(d: Disk, ops: seq<Op>, id: string)
    requires DestroyedIn(d, id) && !Costs(d.journal, id)
    ensures Costs(Run(d, ops).journal, id)
            <==> exists k :: 0 <= k < |ops| && Speaks(ops[k], id) && ops[k].IntentBy? && Lifecycle.Billable(ops[k].to)
                             && forall j :: k < j < |ops| ==> !Speaks(ops[j], id)
  {
    hide LastTo, Run;
    JournalAfterTheEnd(d, ops, id);
    LastWordIs(ops, id);
  }

  lemma {:induction false} LastWordIs(ops: seq<Op>, id: string)
    ensures LastWord(ops, id).None? ==> forall k :: 0 <= k < |ops| ==> !Speaks(ops[k], id)
    ensures LastWord(ops, id).Some? ==>
              exists k :: 0 <= k < |ops| && Speaks(ops[k], id) && LastWord(ops, id) == Some(ops[k].to)
                          && forall j :: k < j < |ops| ==> !Speaks(ops[j], id)
  {
    if ops != [] {
      var n := |ops| - 1;
      LastWordIs(ops[..n], id);
      if Speaks(ops[n], id) {
        assert LastWord(ops, id) == Some(ops[n].to);
      } else if LastWord(ops, id).Some? {
        var k :| 0 <= k < n && Speaks(ops[..n][k], id) && LastWord(ops[..n], id) == Some(ops[..n][k].to)
                 && forall j :: k < j < n ==> !Speaks(ops[..n][j], id);
        assert ops[k] == ops[..n][k];
        forall j | k < j < |ops| ensures !Speaks(ops[j], id) { if j < n { assert ops[j] == ops[..n][j]; } }
      } else {
        forall k | 0 <= k < |ops| ensures !Speaks(ops[k], id) { if k < n { assert ops[k] == ops[..n][k]; } }
      }
    }
  }

  /** The stale teardown that does it: DRAINING recorded from a copy read before
      another process ended the rig, where the guarded move would change nothing. */
  lemma StaleIntentRebillsTheJournal(d: Disk, r: Rig, at: Instant)
    requires DestroyedIn(d, r.id) && !r.state.Destroyed?
    ensures var d' := After(d, IntentBy(r, Draining, at, NoFault)).0;
            DestroyedIn(d', r.id) && Costs(d'.journal, r.id)
    ensures After(d, MoveBy(r, Draining, at, NoFault)).0 == d
  {}
}
