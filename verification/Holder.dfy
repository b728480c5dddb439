/** The record of who holds a rig, and the logs its earlier holders wrote. */
module Holder {
  import opened Wrappers

  const MAX_EARLIER := 32

  datatype Record = Record(pid: int, log: string, earlier: seq<string>) {
    /** Every log the rig's holders wrote, oldest first. */
    function Logs(): seq<string> {
      earlier + (if log == "" then [] else [log])
    }
  }

  /** The record a new holder publishes over the previous one. */
  function Succeeding(prev: Option<Record>, h: Record): Record {
    if prev.None? then h else h.(earlier := LastOf(WithoutTrailing(prev.value.Logs(), h.log), MAX_EARLIER))
  }

  function WithoutTrailing(logs: seq<string>, log: string): seq<string> {
    if logs != [] && logs[|logs| - 1] == log then logs[..|logs| - 1] else logs
  }

  function LastOf(logs: seq<string>, n: nat): seq<string> {
    if |logs| <= n then logs else logs[|logs| - n..]
  }

  /** One rig's lock and record. The kernel frees the lock of a process that dies. */
  class Hold {
    var locked: bool
    var record: Option<Record>

    constructor ()
      ensures !locked && record == None
    {
      locked, record := false, None;
    }

    /** Takes the lock without waiting on a holder, but waits out a reader: each try
        finds a probe in the way or not. */
    method LockExclusive(probed: seq<bool>) returns (ok: bool)
      requires probed != []
      modifies this`locked
      ensures ok <==> !old(locked) && false in probed
      ensures locked == (old(locked) || ok)
    {
      for i := 0 to |probed|
        invariant locked == old(locked)
        invariant locked || forall j :: 0 <= j < i ==> probed[j]
      {
        if !locked && !probed[i] {
          locked := true;
          return true;
        }
      }
      ok := false;
    }

    /** Takes the rig, unless it is held, a reader is in the way at every try, or the
        record cannot be published. */
    method Take(h: Record, probed: seq<bool>, readable: bool, writable: bool) returns (ok: bool)
      requires probed != []
      modifies this
      ensures ok <==> !old(locked) && false in probed && writable
      ensures ok ==> locked && record == Some(Succeeding(if readable then old(record) else None, h))
      ensures !ok ==> locked == old(locked) && record == old(record)
    {
      var taken := LockExclusive(probed);
      if !taken { return false; }
      var mine := h;
      if readable && record.Some? {
        mine := mine.(earlier := record.value.Logs());
        var n := |mine.earlier|;
        if n > 0 && mine.earlier[n - 1] == h.log { mine := mine.(earlier := mine.earlier[..n - 1]); }
        n := |mine.earlier|;
        if n > MAX_EARLIER { mine := mine.(earlier := mine.earlier[n - MAX_EARLIER..]); }
      }
      if !writable {
        locked := false;
        return false;
      }
      record := Some(mine);
      return true;
    }

    method Release()
      requires locked
      modifies this`locked
      ensures !locked
    {
      locked := false;
    }
  }

  // ---- the history a record stands for -----------------------------------

  /** The record after a sequence of holders, given the log each wrote. */
  function After(logs: seq<string>): Option<Record> {
    if logs == [] then None
    else Some(Succeeding(After(logs[..|logs| - 1]), Record(0, logs[|logs| - 1], [])))
  }

  function LogsAfter(logs: seq<string>): seq<string> {
    var r := After(logs);
    if r.None? then [] else r.value.Logs()
  }

  /** The whole history: logs that exist, a run of the same one counted once. */
  function Merged(logs: seq<string>): seq<string> {
    if logs == [] then []
    else
      Extended(Merged(logs[..|logs| - 1]), logs[|logs| - 1])
  }

  predicate IsTail(part: seq<string>, whole: seq<string>) {
    |part| <= |whole| && part == whole[|whole| - |part|..]
  }

  function Min(a: nat, b: nat): nat {
    if a < b then a else b
  }

  lemma {:induction false} MergedHasNoGaps(logs: seq<string>)
    ensures forall i :: 0 <= i < |Merged(logs)| ==> Merged(logs)[i] != ""
  {
    if logs != [] { MergedHasNoGaps(logs[..|logs| - 1]); }
  }

  /** One more holder's log added to a history, and to the tail of it a record
      carries. */
  function Extended(all: seq<string>, log: string): seq<string> {
    if log == "" || (all != [] && all[|all| - 1] == log) then all else all + [log]
  }

  function Carried(was: seq<string>, log: string): seq<string> {
    LastOf(WithoutTrailing(was, log), MAX_EARLIER) + (if log == "" then [] else [log])
  }

  predicate Enough(part: seq<string>, whole: seq<string>) {
    IsTail(part, whole) && Min(MAX_EARLIER, |whole|) <= |part| <= MAX_EARLIER + 1
  }

  lemma CarriedIsEnough(was: seq<string>, all: seq<string>, log: string)
    requires Enough(was, all)
    requires forall i :: 0 <= i < |all| ==> all[i] != ""
    ensures Enough(Carried(was, log), Extended(all, log))
  {
    hide Enough, Carried, Extended;
    SameEnd(was, all);
    if was != [] && was[|was| - 1] == log {
      CarriedRepeat(was, all, log);
    } else if log == "" {
      CarriedNothing(was, all);
    } else {
      CarriedNew(was, all, log);
    }
  }

  lemma CarriedRepeat(was: seq<string>, all: seq<string>, log: string)
    requires Enough(was, all) && was != [] && was[|was| - 1] == log && log != ""
    ensures Enough(Carried(was, log), Extended(all, log))
  {
    SameEnd(was, all);
    TailOfTail(was, all, MAX_EARLIER + 1);
    assert Carried(was, log) == LastOf(was, MAX_EARLIER + 1) by {
      assert was == was[..|was| - 1] + [log];
    }
  }

  lemma CarriedNothing(was: seq<string>, all: seq<string>)
    requires Enough(was, all) && (was != [] ==> was[|was| - 1] != "")
    ensures Enough(Carried(was, ""), Extended(all, ""))
  {
    hide IsTail, LastOf;
    LastOfIs(was);
    TailOfTail(was, all, MAX_EARLIER);
    assert Carried(was, "") == LastOf(was, MAX_EARLIER);
  }

  lemma CarriedNew(was: seq<string>, all: seq<string>, log: string)
    requires Enough(was, all) && log != "" && (was != [] ==> was[|was| - 1] != log)
    ensures Enough(Carried(was, log), Extended(all, log))
  {
    SameEnd(was, all);
    hide IsTail, LastOf, Carried, Extended, Enough, Min;
    LastOfIs(was);
    EnoughIs(was, all);
    TailOfTail(was, all, MAX_EARLIER);
    SnocIsEnough(LastOf(was, MAX_EARLIER), |was|, all, log);
    NewIs(was, all, log);
  }

  lemma EnoughIs(part: seq<string>, whole: seq<string>)
    requires Enough(part, whole)
    ensures IsTail(part, whole) && Min(MAX_EARLIER, |whole|) <= |part|
  {
    hide IsTail;
  }

  lemma SnocIsEnough(part: seq<string>, carried: nat, whole: seq<string>, log: string)
    requires IsTail(part, whole) && |part| == Min(MAX_EARLIER, carried) && Min(MAX_EARLIER, |whole|) <= carried
    ensures Enough(part + [log], whole + [log])
  {
    TailSnoc(part, whole, log);
    hide IsTail;
  }

  lemma NewIs(was: seq<string>, all: seq<string>, log: string)
    requires log != "" && (was != [] ==> was[|was| - 1] != log) && (all != [] ==> all[|all| - 1] != log)
    ensures Extended(all, log) == all + [log] && Carried(was, log) == LastOf(was, MAX_EARLIER) + [log]
  {
    hide LastOf;
  }

  lemma SameEnd(was: seq<string>, all: seq<string>)
    requires Enough(was, all)
    ensures was == [] <==> all == []
    ensures was != [] ==> was[|was| - 1] == all[|all| - 1]
  {}

  lemma LastOfIs(logs: seq<string>)
    ensures |LastOf(logs, MAX_EARLIER)| == Min(MAX_EARLIER, |logs|)
  {}

  lemma TailOfTail(part: seq<string>, whole: seq<string>, n: nat)
    requires IsTail(part, whole)
    ensures IsTail(LastOf(part, n), whole)
  {
    if n < |part| { assert part[|part| - n..] == whole[|whole| - n..]; }
  }

  lemma TailSnoc(part: seq<string>, whole: seq<string>, log: string)
    requires IsTail(part, whole)
    ensures IsTail(part + [log], whole + [log])
  {}

  /** However many holders a rig has had, its logs are the tail of the whole
      history: all of it, or at least the last 32. */
  lemma {:induction false} LogsAreTheTail(logs: seq<string>)
    ensures IsTail(LogsAfter(logs), Merged(logs))
    ensures (if |Merged(logs)| < 32 then |Merged(logs)| else 32) <= |LogsAfter(logs)| <= 33
  {
    hide LastOf, WithoutTrailing, IsTail;
    if logs != [] {
      var front, log := logs[..|logs| - 1], logs[|logs| - 1];
      LogsAreTheTail(front);
      MergedHasNoGaps(front);
      CarriedIsEnough(LogsAfter(front), Merged(front), log);
      FirstCarried(log);
    } else {
      assert IsTail([], []) by { TailsOfNothing(); }
    }
  }

  lemma TailsOfNothing()
    ensures IsTail([], [])
  {}

  lemma FirstCarried(log: string)
    ensures Carried([], log) == if log == "" then [] else [log]
  {}
}
