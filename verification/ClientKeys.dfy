/** Stored client keys: the file writers replace under a lock, and the cached
    view of it that a serving process answers from. */
module ClientKeys {
  import opened Wrappers

  datatype Key = Key(name: string, hash: string)

  datatype Outcome = Done | BadName | Exists | UnknownName

  const MAX_NAME := 32

  predicate Plain(c: char) {
    'a' <= c <= 'z' || '0' <= c <= '9'
  }

  predicate ValidName(s: string) {
    1 <= |s| <= MAX_NAME && Plain(s[0]) && forall i :: 0 < i < |s| ==> Plain(s[i]) || s[i] == '_' || s[i] == '-'
  }

  /** A name is 1 to 32 lower-case letters, digits, '_' and '-', and begins with a
      letter or a digit. */
  lemma NamesAllowed(s: string)
    ensures ValidName(s) <==>
              && 1 <= |s| <= 32
              && forall i :: 0 <= i < |s| ==> var c := s[i] as int;
                   97 <= c <= 122 || 48 <= c <= 57 || (i > 0 && (c == 95 || c == 45))
  {
    if ValidName(s) {
      forall i | 0 <= i < |s|
        ensures var c := s[i] as int; 97 <= c <= 122 || 48 <= c <= 57 || (i > 0 && (c == 95 || c == 45))
      {}
    }
  }

  ghost predicate UniqueNames(keys: seq<Key>) {
    forall i, j :: 0 <= i < j < |keys| ==> keys[i].name != keys[j].name
  }

  predicate Has(keys: seq<Key>, name: string) {
    exists i :: 0 <= i < |keys| && keys[i].name == name
  }

  function Kept(keys: seq<Key>, name: string): seq<Key> {
    if keys == [] then []
    else
      var front := Kept(keys[..|keys| - 1], name);
      if keys[|keys| - 1].name == name then front else front + [keys[|keys| - 1]]
  }

  /** The name the last key with that hash is stored under. */
  function Matching(keys: seq<Key>, hash: string): Option<string> {
    if keys == [] then None
    else if keys[|keys| - 1].hash == hash then Some(keys[|keys| - 1].name)
    else Matching(keys[..|keys| - 1], hash)
  }

  /** The key file. A writer holds the file lock from its read to its write, so
      each call is one atomic replacement whatever other processes do. */
  class File {
    var keys: seq<Key>

    constructor ()
      ensures keys == []
    {
      keys := [];
    }

    method Create(name: string, hash: string) returns (out: Outcome)
      modifies this
      ensures out == if !ValidName(name) then BadName else if Has(old(keys), name) then Exists else Done
      ensures keys == if out.Done? then old(keys) + [Key(name, hash)] else old(keys)
      ensures old(UniqueNames(keys)) ==> UniqueNames(keys)
    {
      if !ValidName(name) { return BadName; }
      for i := 0 to |keys|
        invariant keys == old(keys)
        invariant forall j :: 0 <= j < i ==> keys[j].name != name
      {
        if keys[i].name == name { return Exists; }
      }
      keys := keys + [Key(name, hash)];
      return Done;
    }

    method Revoke(name: string) returns (out: Outcome)
      modifies this
      ensures out == if Has(old(keys), name) then Done else UnknownName
      ensures keys == Kept(old(keys), name)
      ensures old(UniqueNames(keys)) ==> UniqueNames(keys)
      ensures !Has(keys, name)
    {
      var kept: seq<Key>, found := [], false;
      for i := 0 to |keys|
        invariant keys == old(keys) && kept == Kept(keys[..i], name)
        invariant found <==> Has(keys[..i], name)
      {
        assert keys[..i + 1][..i] == keys[..i];
        assert keys[..i + 1] == keys[..i] + [keys[i]];
        if keys[i].name == name {
          found := true;
          assert keys[..i + 1][i].name == name;
        } else {
          kept := kept + [keys[i]];
          HasSnoc(keys[..i], keys[i], name);
        }
      }
      assert keys[..|keys|] == keys;
      KeptIs(keys, name);
      if !found {
        KeptAll(keys, name);
        return UnknownName;
      }
      keys := kept;
      return Done;
    }
  }

  lemma HasSnoc(keys: seq<Key>, k: Key, name: string)
    ensures Has(keys + [k], name) <==> Has(keys, name) || k.name == name
  {
    if Has(keys, name) {
      var i :| 0 <= i < |keys| && keys[i].name == name;
      assert (keys + [k])[i].name == name;
    }
    assert (keys + [k])[|keys|] == k;
  }

  lemma {:induction false} KeptIs(keys: seq<Key>, name: string)
    ensures forall k :: k in Kept(keys, name) <==> k in keys && k.name != name
    ensures UniqueNames(keys) ==> UniqueNames(Kept(keys, name))
    ensures !Has(Kept(keys, name), name)
  {
    if keys != [] {
      var front, last := keys[..|keys| - 1], keys[|keys| - 1];
      KeptIs(front, name);
      assert keys == front + [last];
      if UniqueNames(keys) && last.name != name {
        forall i | 0 <= i < |Kept(front, name)| ensures Kept(front, name)[i].name != last.name {
          assert Kept(front, name)[i] in front;
        }
      }
    }
  }

  lemma {:induction false} KeptAll(keys: seq<Key>, name: string)
    requires !Has(keys, name)
    ensures Kept(keys, name) == keys
  {
    if keys != [] {
      assert keys == keys[..|keys| - 1] + [keys[|keys| - 1]];
      HasSnoc(keys[..|keys| - 1], keys[|keys| - 1], name);
      KeptAll(keys[..|keys| - 1], name);
    }
  }

  /** Creating a key and revoking it leaves the file as it was. */
  lemma RevokeUndoesCreate(keys: seq<Key>, name: string, hash: string)
    requires !Has(keys, name)
    ensures Kept(keys + [Key(name, hash)], name) == keys
  {
    assert (keys + [Key(name, hash)])[..|keys|] == keys;
    KeptAll(keys, name);
  }

  /** Compares a presented value's hash with every stored one; nothing presented
      matches nothing. */
  method Match(keys: seq<Key>, hash: string) returns (name: Option<string>)
    ensures name == if hash == "" then None else Matching(keys, hash)
    ensures name.Some? <==> hash != "" && exists k :: k in keys && k.hash == hash
    ensures name.Some? ==> Key(name.value, hash) in keys
  {
    name := None;
    MatchingIs(keys, hash);
    if hash == "" { return; }
    for i := 0 to |keys|
      invariant name == Matching(keys[..i], hash)
    {
      assert keys[..i + 1][..i] == keys[..i];
      if keys[i].hash == hash { name := Some(keys[i].name); }
    }
    assert keys[..|keys|] == keys;
  }

  lemma {:induction false} MatchingIs(keys: seq<Key>, hash: string)
    ensures Matching(keys, hash).Some? <==> exists k :: k in keys && k.hash == hash
    ensures Matching(keys, hash).Some? ==> Key(Matching(keys, hash).value, hash) in keys
  {
    if keys != [] {
      assert keys == keys[..|keys| - 1] + [keys[|keys| - 1]];
      MatchingIs(keys[..|keys| - 1], hash);
    }
  }

  // ---- the cached view ---------------------------------------------------

  /** A version of the file: nothing yet, or what a rename put there. */
  datatype Version = Absent | Present(keys: seq<Key>, modTime: nat, size: nat)

  /** One call to Match: the version current when it began, the one it saw when
      it looked at the file's times, and its answer. The floor is a record for
      the reader; no step consults it. */
  datatype Caller =
    | Idle
    | Called(floor: nat)
    | Looked(floor: nat, at: nat)
    | Reading(floor: nat, at: nat)
    | Answered(floor: nat, from: nat, keys: seq<Key>)

  datatype State = State(
    versions: seq<Version>,
    cached: Option<seq<Key>>, modTime: nat, size: nat,
    locked: bool,
    callers: map<nat, Caller>)

  predicate Init(s: State) {
    s.versions == [Absent] && s.cached.None? && !s.locked && forall c :: c in s.callers ==> s.callers[c].Idle?
  }

  function Current(s: State): nat
    requires s.versions != []
  {
    |s.versions| - 1
  }

  /** A writer renames a new version into place, its times unlike any before. */
  ghost predicate Renames(s: State, t: State, v: Version) {
    && v.Present? && t == s.(versions := s.versions + [v])
    && forall i :: 0 <= i < |s.versions| && s.versions[i].Present? ==>
         s.versions[i].modTime != v.modTime || s.versions[i].size != v.size
  }

  predicate Begins(s: State, t: State, c: nat) {
    s.versions != [] && c in s.callers && s.callers[c].Idle?
    && t == s.(callers := s.callers[c := Called(Current(s))])
  }

  predicate Looks(s: State, t: State, c: nat) {
    s.versions != [] && c in s.callers && s.callers[c].Called?
    && t == s.(callers := s.callers[c := Looked(s.callers[c].floor, Current(s))])
  }

  predicate Fresh(s: State, v: Version) {
    v.Present? && v.modTime == s.modTime && v.size == s.size && s.cached.Some?
  }

  /** Under the mutex: nothing there, or the file could not be looked at. */
  predicate FindsNothing(s: State, t: State, c: nat) {
    !s.locked && c in s.callers && s.callers[c].Looked?
    && t == s.(cached := None, modTime := 0, size := 0,
               callers := s.callers[c := Answered(s.callers[c].floor, s.callers[c].at, [])])
  }

  /** Under the mutex: the times are the cache's, so its keys answer. `from` is
      any version the answer is the contents of. */
  predicate UsesCache(s: State, t: State, c: nat, from: nat) {
    !s.locked && c in s.callers && s.callers[c].Looked? && s.callers[c].at < |s.versions|
    && Fresh(s, s.versions[s.callers[c].at])
    && t == s.(callers := s.callers[c := Answered(s.callers[c].floor, from, s.cached.value)])
  }

  predicate StartsReading(s: State, t: State, c: nat) {
    !s.locked && c in s.callers && s.callers[c].Looked? && s.callers[c].at < |s.versions|
    && s.versions[s.callers[c].at].Present? && !Fresh(s, s.versions[s.callers[c].at])
    && t == s.(locked := true, callers := s.callers[c := Reading(s.callers[c].floor, s.callers[c].at)])
  }

  /** The file read now is cached under the times seen earlier. */
  predicate Reads(s: State, t: State, c: nat) {
    s.versions != [] && c in s.callers && s.callers[c].Reading? && s.callers[c].at < |s.versions|
    && s.versions[Current(s)].Present? && s.versions[s.callers[c].at].Present?
    && var now := s.versions[Current(s)]; var seen := s.versions[s.callers[c].at];
       t == s.(locked := false, cached := Some(now.keys), modTime := seen.modTime, size := seen.size,
               callers := s.callers[c := Answered(s.callers[c].floor, Current(s), now.keys)])
  }

  predicate FailsToRead(s: State, t: State, c: nat) {
    c in s.callers && s.callers[c].Reading?
    && t == s.(locked := false, cached := None,
               callers := s.callers[c := Answered(s.callers[c].floor, s.callers[c].at, [])])
  }

  predicate Ends(s: State, t: State, c: nat) {
    c in s.callers && s.callers[c].Answered? && t == s.(callers := s.callers[c := Idle])
  }

  /** from is a version the cache holds the contents of. */
  ghost predicate CacheIs(s: State, from: nat) {
    s.cached.Some? && from < |s.versions| && s.versions[from].Present? && s.versions[from].keys == s.cached.value
    && exists at: nat :: at <= from && s.versions[at].Present?
                    && s.versions[at].modTime == s.modTime && s.versions[at].size == s.size
  }

  ghost predicate StepOf(s: State, t: State, c: nat) {
    || Begins(s, t, c) || Looks(s, t, c) || FindsNothing(s, t, c) || StartsReading(s, t, c)
    || Reads(s, t, c) || FailsToRead(s, t, c) || Ends(s, t, c)
    || exists from: nat :: CacheIs(s, from) && UsesCache(s, t, c, from)
  }

  ghost predicate Step(s: State, t: State) {
    (exists v :: Renames(s, t, v)) || (exists c :: StepOf(s, t, c))
  }

  ghost predicate Run(run: seq<State>) {
    run != [] && Init(run[0]) && forall i :: 0 <= i < |run| - 1 ==> Step(run[i], run[i + 1])
  }

  predicate CallerOk(s: State, c: Caller) {
    match c
    case Idle => true
    case Called(floor) => floor < |s.versions|
    case Looked(floor, at) => floor <= at < |s.versions|
    case Reading(floor, at) => floor <= at < |s.versions| && s.versions[at].Present?
    case Answered(floor, from, keys) =>
      floor <= from < |s.versions| && (keys == [] || (s.versions[from].Present? && keys == s.versions[from].keys))
  }

  ghost predicate DistinctTimes(versions: seq<Version>) {
    forall i, j :: 0 <= i < j < |versions| && versions[i].Present? && versions[j].Present? ==>
      versions[i].modTime != versions[j].modTime || versions[i].size != versions[j].size
  }

  ghost predicate Inv(s: State) {
    && s.versions != [] && s.versions[0].Absent?
    && (forall i :: 0 < i < |s.versions| ==> s.versions[i].Present?)
    && DistinctTimes(s.versions)
    && (s.cached.Some? ==> exists from: nat :: CacheIs(s, from))
    && (forall c :: c in s.callers ==> CallerOk(s, s.callers[c]))
    && OneReads(s)
  }

  /** The mutex is held exactly while a caller reads the file, and by one only. */
  ghost predicate OneReads(s: State) {
    && (s.locked <==> exists c :: c in s.callers && s.callers[c].Reading?)
    && (forall c, d :: c in s.callers && s.callers[c].Reading? && d in s.callers && s.callers[d].Reading? ==> c == d)
  }

  lemma OneStillReads(s: State, t: State, c: nat)
    requires OneReads(s) && StepOf(s, t, c)
    ensures OneReads(t)
  {
    assert c in t.callers;
    assert forall d :: d in t.callers && d != c ==> d in s.callers && t.callers[d] == s.callers[d];
    assert forall d :: d in s.callers && d != c ==> d in t.callers && t.callers[d] == s.callers[d];
    if StartsReading(s, t, c) { assert t.callers[c].Reading?; }
    if t.locked && s.locked && !s.callers[c].Reading? {
      var d :| d in s.callers && s.callers[d].Reading?;
      assert t.callers[d].Reading?;
    }
  }

  lemma RenameKeepsInv(s: State, t: State, v: Version)
    requires Inv(s) && Renames(s, t, v)
    ensures Inv(t)
  {
    if s.cached.Some? {
      var from: nat :| CacheIs(s, from);
      var at: nat :| at <= from && s.versions[at].Present?
                && s.versions[at].modTime == s.modTime && s.versions[at].size == s.size;
      assert t.versions[at] == s.versions[at] && t.versions[from] == s.versions[from];
      assert CacheIs(t, from);
    }
    forall c | c in t.callers ensures CallerOk(t, t.callers[c]) { assert CallerOk(s, s.callers[c]); }
  }

  lemma CallKeepsInv(s: State, t: State, c: nat)
    requires Inv(s) && StepOf(s, t, c)
    ensures Inv(t)
  {
    hide OneReads;
    assert c in s.callers && CallerOk(s, s.callers[c]);
    OneStillReads(s, t, c);
    if Reads(s, t, c) {
      assert CacheIs(t, Current(s)) by { assert t.versions[s.callers[c].at].Present?; }
    } else if s.cached.Some? && t.cached == s.cached {
      var from: nat :| CacheIs(s, from);
      CacheUnmoved(s, t, from);
      if f: nat :| CacheIs(s, f) && UsesCache(s, t, c, f) { CacheIsRecent(s, s.callers[c].at, f); }
    }
    forall d | d in t.callers ensures CallerOk(t, t.callers[d]) {
      if d != c { assert CallerOk(s, s.callers[d]); }
    }
  }

  lemma CacheUnmoved(s: State, t: State, from: nat)
    requires CacheIs(s, from)
    requires t.cached == s.cached && t.modTime == s.modTime && t.size == s.size && t.versions == s.versions
    ensures CacheIs(t, from)
  {
    var at: nat :| at <= from && s.versions[at].Present?
              && s.versions[at].modTime == s.modTime && s.versions[at].size == s.size;
    assert t.versions[at].Present?;
  }

  /** Contents cached under a version's times are that version's or newer. */
  lemma CacheIsRecent(s: State, at: nat, from: nat)
    requires DistinctTimes(s.versions) && at < |s.versions| && Fresh(s, s.versions[at]) && CacheIs(s, from)
    ensures at <= from
  {
    var a: nat :| a <= from && s.versions[a].Present?
             && s.versions[a].modTime == s.modTime && s.versions[a].size == s.size;
    assert a == at by { assert a < at || at < a || a == at; }
  }

  lemma {:induction false} RunsKeepInv(run: seq<State>, i: nat)
    requires Run(run) && i < |run|
    ensures Inv(run[i])
  {
    if i > 0 {
      RunsKeepInv(run, i - 1);
      var s, t := run[i - 1], run[i];
      assert Step(s, t);
      if v :| Renames(s, t, v) {
        RenameKeepsInv(s, t, v);
      } else {
        var c :| StepOf(s, t, c);
        CallKeepsInv(s, t, c);
      }
    }
  }

  /** No caller is ever stuck but for another that reads: a call begins, looks, and
      is answered from nothing where the file cannot be looked at, from the cache
      where the times are the cache's, and from a reading that succeeds or fails
      otherwise. */
  lemma CallsGoOn(s: State, c: nat)
    requires Inv(s) && c in s.callers
    ensures match s.callers[c]
            case Idle => Leads(s, c, Called(|s.versions| - 1))
            case Called(floor) => Leads(s, c, Looked(floor, |s.versions| - 1))
            case Looked(floor, at) =>
              !s.locked ==>
                && Leads(s, c, Answered(floor, at, []))
                && (s.versions[at].Present? && s.cached.Some? && s.modTime == s.versions[at].modTime && s.size == s.versions[at].size
                    ==> exists from :: Leads(s, c, Answered(floor, from, s.cached.value)))
                && (s.versions[at].Present? && (s.cached.None? || s.modTime != s.versions[at].modTime || s.size != s.versions[at].size)
                    ==> exists t :: StepOf(s, t, c) && t.locked && t == s.(locked := true, callers := s.callers[c := Reading(floor, at)]))
            case Reading(floor, at) =>
              && (exists t :: StepOf(s, t, c) && !t.locked && t.cached.None? && t.callers == s.callers[c := Answered(floor, at, [])])
              && (s.versions[|s.versions| - 1].Present? ==>
                    var v := s.versions[|s.versions| - 1];
                    exists t :: StepOf(s, t, c) && !t.locked && t.cached == Some(v.keys) && t.modTime == s.versions[at].modTime
                                && t.size == s.versions[at].size && t.callers == s.callers[c := Answered(floor, |s.versions| - 1, v.keys)])
            case Answered(_, _, _) => Leads(s, c, Idle)
  {
    assert CallerOk(s, s.callers[c]);
    match s.callers[c] {
      case Idle => assert Begins(s, s.(callers := s.callers[c := Called(Current(s))]), c);
      case Called(floor) => assert Looks(s, s.(callers := s.callers[c := Looked(floor, Current(s))]), c);
      case Looked(floor, at) =>
        if !s.locked { LookedGoesOn(s, c, floor, at); }
      case Reading(floor, at) =>
        var v := s.versions[Current(s)];
        assert FailsToRead(s, s.(locked := false, cached := None, callers := s.callers[c := Answered(floor, at, [])]), c);
        if v.Present? {
          var seen := s.versions[at];
          assert Reads(s, s.(locked := false, cached := Some(v.keys), modTime := seen.modTime, size := seen.size,
                             callers := s.callers[c := Answered(floor, Current(s), v.keys)]), c);
        }
      case Answered(_, _, _) => assert Ends(s, s.(callers := s.callers[c := Idle]), c);
    }
  }

  lemma LookedGoesOn(s: State, c: nat, floor: nat, at: nat)
    requires Inv(s) && c in s.callers && s.callers[c] == Looked(floor, at) && at < |s.versions| && !s.locked
    ensures Leads(s, c, Answered(floor, at, []))
    ensures s.versions[at].Present? ==> if Fresh(s, s.versions[at]) then exists from :: Leads(s, c, Answered(floor, from, s.cached.value))
                                        else StepOf(s, s.(locked := true, callers := s.callers[c := Reading(floor, at)]), c)
  {
    assert FindsNothing(s, s.(cached := None, modTime := 0, size := 0, callers := s.callers[c := Answered(floor, at, [])]), c);
    if Fresh(s, s.versions[at]) {
      var from: nat :| CacheIs(s, from);
      assert UsesCache(s, s.(callers := s.callers[c := Answered(floor, from, s.cached.value)]), c, from);
      assert Leads(s, c, Answered(floor, from, s.cached.value));
    } else if s.versions[at].Present? {
      assert StartsReading(s, s.(locked := true, callers := s.callers[c := Reading(floor, at)]), c);
    }
  }

  /** Some step of this caller's puts it there, and changes no other. */
  ghost predicate Leads(s: State, c: nat, to: Caller) {
    exists t :: StepOf(s, t, c) && t.callers == s.callers[c := to] && t.versions == s.versions && t.locked == s.locked
  }

  /** Every answer is the contents of a version at least as new as the one in
      place when the call began, or admits no one. */
  lemma AnswersAreNeverStale(run: seq<State>, i: nat, c: nat)
    requires Run(run) && i < |run| && c in run[i].callers && run[i].callers[c].Answered?
    ensures var a := run[i].callers[c];
            a.floor <= a.from < |run[i].versions|
            && (a.keys == [] || (run[i].versions[a.from].Present? && a.keys == run[i].versions[a.from].keys))
  {
    RunsKeepInv(run, i);
    assert CallerOk(run[i], run[i].callers[c]);
  }

  /** A key no version since the call began holds is refused. */
  lemma RevokedKeyIsRefused(run: seq<State>, i: nat, c: nat, hash: string)
    requires Run(run) && i < |run| && c in run[i].callers && run[i].callers[c].Answered?
    requires forall v :: run[i].callers[c].floor <= v < |run[i].versions| && run[i].versions[v].Present? ==>
                           forall k :: k in run[i].versions[v].keys ==> k.hash != hash
    ensures Matching(run[i].callers[c].keys, hash) == None
  {
    AnswersAreNeverStale(run, i, c);
    MatchingIs(run[i].callers[c].keys, hash);
  }
}
