/** A detached launch: a holder process writing a log and sending one report
    down a pipe, and the launcher following the log until that report. */
module Detach {
  import opened Wrappers

  /** Where the launcher is in its loop: at the top, between taking the log's
      size and reading the pipe, or done. */
  datatype Place = Polling | Sized(size: nat) | Reported | HolderGone

  datatype State = State(
    log: seq<char>,        // the log file
    offset: Option<nat>,   // the log position the holder read for its report
    sentAt: Option<nat>,   // the log's length when the report went into the pipe
    unread: nat,           // report bytes in the pipe
    taken: nat,            // report bytes the launcher has
    closed: bool,          // the holder's end of the pipe
    place: Place,
    shown: nat,            // the launcher's count of what it has shown
    screen: seq<char>,     // what it has shown
    report: nat)           // the report's length; its last byte is the newline that ends it

  predicate Init(s: State) {
    s.report > 0 && s == State([], None, None, 0, 0, false, Polling, 0, [], s.report)
  }

  // ---- the holder --------------------------------------------------------

  predicate HolderWrites(s: State, t: State, line: seq<char>) {
    t == s.(log := s.log + line)
  }

  predicate HolderSeeks(s: State, t: State) {
    s.offset.None? && t == s.(offset := Some(|s.log|))
  }

  /** A position that cannot be read is reported as none. */
  predicate HolderCannotSeek(s: State, t: State) {
    s.offset.None? && t == s.(offset := Some(0))
  }

  predicate HolderSends(s: State, t: State) {
    s.offset.Some? && s.sentAt.None? && !s.closed && t == s.(sentAt := Some(|s.log|), unread := s.report)
  }

  predicate HolderCloses(s: State, t: State) {
    t == s.(closed := true)
  }

  // ---- the launcher ------------------------------------------------------

  /** Shows the log up to a limit, never again what is already shown. */
  function ShowTo(s: State, limit: nat): State
    requires limit <= |s.log|
  {
    if limit <= s.shown then s else s.(shown := limit, screen := s.screen + s.log[s.shown..limit])
  }

  predicate TakesSize(s: State, t: State) {
    s.place.Polling? && t == s.(place := Sized(|s.log|))
  }

  predicate ReadsPart(s: State, t: State, n: nat) {
    s.place.Sized? && 0 < n <= s.unread && s.taken + n < s.report
    && t == s.(unread := s.unread - n, taken := s.taken + n, place := Polling)
  }

  predicate ReadsReport(s: State, t: State, n: nat) {
    s.place.Sized? && 0 < n <= s.unread && s.taken + n >= s.report && s.offset.Some? && s.offset.value <= |s.log|
    && t == ShowTo(s, if s.offset.value > 0 then s.offset.value else |s.log|)
            .(unread := s.unread - n, taken := s.taken + n, place := Reported)
  }

  /** The read timed out. An honest timeout found the pipe empty. */
  predicate TimesOut(s: State, t: State, honest: bool) {
    s.place.Sized? && !(s.closed && s.unread == 0) && (honest ==> s.unread == 0) && s.place.size <= |s.log|
    && t == ShowTo(s, s.place.size).(place := Polling)
  }

  predicate FindsHolderGone(s: State, t: State) {
    s.place.Sized? && s.closed && s.unread == 0 && t == ShowTo(s, |s.log|).(place := HolderGone)
  }

  ghost predicate Step(s: State, t: State, honest: bool) {
    || (exists line :: HolderWrites(s, t, line))
    || HolderSeeks(s, t) || HolderCannotSeek(s, t) || HolderSends(s, t) || HolderCloses(s, t)
    || TakesSize(s, t) || (exists n :: ReadsPart(s, t, n)) || (exists n :: ReadsReport(s, t, n))
    || TimesOut(s, t, honest) || FindsHolderGone(s, t)
  }

  ghost predicate Run(run: seq<State>, honest: bool) {
    run != [] && Init(run[0]) && forall i :: 0 <= i < |run| - 1 ==> Step(run[i], run[i + 1], honest)
  }

  // ---- nobody is stuck ----------------------------------------------------

  /** The holder may write, take its position once, send once it has one, and end
      whenever it likes. */
  lemma HolderGoesOn(s: State, line: seq<char>, honest: bool)
    ensures Step(s, s.(log := s.log + line), honest) && Step(s, s.(closed := true), honest)
    ensures s.offset.None? ==> Step(s, s.(offset := Some(|s.log|)), honest) && Step(s, s.(offset := Some(0)), honest)
    ensures s.offset.Some? && s.sentAt.None? && !s.closed ==>
              Step(s, s.(sentAt := Some(|s.log|), unread := s.report), honest)
  {
    assert HolderWrites(s, s.(log := s.log + line), line);
  }

  /** The launcher takes the log's size and then whatever the pipe has: any number of
      the bytes there, as the report once they are its last; the end, once nothing
      is left; and otherwise it waits, showing the log up to the size it took. A wait
      that is not honest may end though bytes are there. */
  lemma LauncherGoesOn(s: State, n: nat)
    requires Kept(s)
    ensures s.place.Polling? ==> Step(s, s.(place := Sized(|s.log|)), true)
    ensures s.place.Sized? && 0 < n <= s.unread ==>
              exists t :: Step(s, t, true) && t.taken == s.taken + n && t.unread == s.unread - n
                          && (t.place.Reported? <==> t.taken >= s.report) && (t.place.Polling? <==> t.taken < s.report)
                          && (t.place.Polling? ==> t.screen == s.screen)
                          && (t.place.Reported? ==> s.offset.Some? && t.shown >= if s.offset.value > 0 then s.offset.value else |s.log|)
    ensures s.place.Sized? && s.unread == 0 ==>
              exists t :: Step(s, t, true) && t.place == (if s.closed then HolderGone else Polling)
                          && t.shown >= if s.closed then |s.log| else s.place.size
    ensures s.place.Sized? && s.unread > 0 ==> exists t :: Step(s, t, false) && t.place.Polling? && t.shown >= s.place.size && t.unread == s.unread
  {
    if s.place.Sized? && 0 < n <= s.unread {
      if s.taken + n < s.report {
        assert ReadsPart(s, s.(unread := s.unread - n, taken := s.taken + n, place := Polling), n);
      } else {
        assert ReadsReport(s, ShowTo(s, if s.offset.value > 0 then s.offset.value else |s.log|)
                                .(unread := s.unread - n, taken := s.taken + n, place := Reported), n);
      }
    }
    if s.place.Sized? {
      if s.unread > 0 {
        assert TimesOut(s, ShowTo(s, s.place.size).(place := Polling), false);
      } else if s.closed {
        assert FindsHolderGone(s, ShowTo(s, |s.log|).(place := HolderGone));
      } else {
        assert TimesOut(s, ShowTo(s, s.place.size).(place := Polling), true);
      }
    }
  }

  // ---- what the launcher shows -------------------------------------------

  /** What holds in every run, however timeouts behave. */
  ghost predicate Kept(s: State) {
    && s.report > 0
    && s.shown <= |s.log| && s.screen == s.log[..s.shown]
    && (s.place.Sized? ==> s.place.size <= |s.log|)
    && (s.offset.Some? ==> s.offset.value <= |s.log|)
    && (s.sentAt.Some? ==> s.offset.Some? && s.offset.value <= s.sentAt.value <= |s.log|)
    && (s.sentAt.None? ==> s.unread == 0 && s.taken == 0)
    && (s.sentAt.Some? ==> s.unread + s.taken == s.report)
    && (s.sentAt.Some? && !s.place.Reported? && !s.place.HolderGone? ==> s.taken < s.report)
    && (s.place.Reported? ==> s.sentAt.Some?)
    && (s.place.HolderGone? ==> s.sentAt.None? && s.closed)
  }

  ghost predicate Inv(s: State) {
    && Kept(s)
    && (s.sentAt.Some? && !s.place.Reported? && !s.place.HolderGone? ==> s.shown <= s.sentAt.value)
    && (s.place.Reported? && s.offset.value > 0 ==> s.offset.value <= s.shown <= s.sentAt.value)
  }

  lemma StepKeepsInv(s: State, t: State)
    requires Inv(s) && Step(s, t, true)
    ensures Inv(t)
  {
    HonestStep(s, t);
    StepKeeps(s, t);
  }

  lemma HonestStep(s: State, t: State)
    requires Step(s, t, true)
    ensures Step(s, t, false)
  {}

  lemma StepKeeps(s: State, t: State)
    requires Kept(s) && Step(s, t, false)
    ensures Kept(t)
  {
    if line :| HolderWrites(s, t, line) {
      assert t.log[..s.shown] == s.log[..s.shown];
    } else if TimesOut(s, t, false) || FindsHolderGone(s, t) {
      ShowToIsPrefix(s, if TimesOut(s, t, false) then s.place.size else |s.log|);
    } else if n :| ReadsReport(s, t, n) {
      ShowToIsPrefix(s, if s.offset.value > 0 then s.offset.value else |s.log|);
    }
  }

  lemma ShowToIsPrefix(s: State, limit: nat)
    requires limit <= |s.log| && s.shown <= |s.log| && s.screen == s.log[..s.shown]
    ensures ShowTo(s, limit).screen == s.log[..ShowTo(s, limit).shown]
  {
    if limit > s.shown { assert s.log[..limit] == s.log[..s.shown] + s.log[s.shown..limit]; }
  }

  lemma {:induction false} RunsKeepInv(run: seq<State>, i: nat)
    requires Run(run, true) && i < |run|
    ensures Inv(run[i])
  {
    if i > 0 {
      RunsKeepInv(run, i - 1);
      StepKeepsInv(run[i - 1], run[i]);
    }
  }

  /** In every interleaving the screen is a prefix of the log: each byte once,
      in order. A launcher that got a report with a positive offset has shown
      everything up to it and nothing written after the report was sent; with
      no write between reading the offset and sending, exactly up to it. */
  lemma LauncherShowsTheLogUpToTheReport(run: seq<State>, i: nat)
    requires Run(run, true) && i < |run|
    ensures run[i].screen <= run[i].log
    ensures run[i].place.Reported? ==> run[i].offset.Some? && run[i].sentAt.Some?
    ensures run[i].place.Reported? && run[i].offset.value > 0 ==>
              && run[i].offset.value <= |run[i].screen| <= run[i].sentAt.value
              && (run[i].offset == run[i].sentAt ==> run[i].screen == run[i].log[..run[i].offset.value])
  {
    RunsKeepInv(run, i);
    assert Inv(run[i]);
  }

  lemma {:induction false} LogOnlyGrows(run: seq<State>, i: nat, j: nat)
    requires Run(run, true) && i <= j < |run|
    ensures run[i].log <= run[j].log
  {
    if i < j {
      LogOnlyGrows(run, i, j - 1);
      assert Step(run[j - 1], run[j], true);
    }
  }

  // ---- when it shows more ------------------------------------------------

  /** The launcher has shown log written after the report was sent. */
  predicate ShowsTooMuch(s: State) {
    s.sentAt.Some? && s.shown > s.sentAt.value
  }

  /** A read times out with the report already sent, and the log had outgrown it
      when its size was taken. */
  predicate LateTimeout(s: State, t: State) {
    TimesOut(s, t, false) && s.sentAt.Some? && s.place.size > s.sentAt.value
  }

  /** A report that carries no offset is read after the log outgrew it. */
  ghost predicate LateReport(s: State, t: State) {
    (exists n :: ReadsReport(s, t, n)) && s.offset.value == 0 && s.sentAt.Some? && |s.log| > s.sentAt.value
  }

  lemma TooMuchAfterStep(s: State, t: State)
    requires Kept(s) && Step(s, t, false)
    ensures ShowsTooMuch(t) <==> ShowsTooMuch(s) || LateTimeout(s, t) || LateReport(s, t)
  {}

  /** In any run, whether or not timeouts look at the pipe, the launcher shows log
      written after the report exactly when a read timed out on a size taken after
      the log had outgrown a report already sent, or a report without an offset
      was read after that. */
  lemma {:induction false} ShowsTooMuchIff(run: seq<State>, i: nat)
    requires Run(run, false) && i < |run|
    ensures ShowsTooMuch(run[i])
            <==> exists k :: 0 <= k < i && (LateTimeout(run[k], run[k + 1]) || LateReport(run[k], run[k + 1]))
  {
    hide Kept, Step, LateTimeout, LateReport, ShowsTooMuch;
    RunsKeep(run, i);
    if i > 0 {
      ShowsTooMuchIff(run, i - 1);
      RunsKeep(run, i - 1);
      assert Step(run[i - 1], run[i - 1 + 1], false);
      TooMuchAfterStep(run[i - 1], run[i]);
      assert i - 1 + 1 == i;
    } else {
      StartsClean(run[0]);
    }
  }

  lemma StartsClean(s: State)
    requires Init(s)
    ensures Kept(s) && !ShowsTooMuch(s)
  {}

  lemma {:induction false} RunsKeep(run: seq<State>, i: nat)
    requires Run(run, false) && i < |run|
    ensures Kept(run[i])
  {
    hide Kept, Step;
    if i > 0 {
      RunsKeep(run, i - 1);
      assert Step(run[i - 1], run[i - 1 + 1], false);
      StepKeeps(run[i - 1], run[i]);
    } else {
      StartsClean(run[0]);
    }
  }

  /** With timeouts that look at the pipe, the only way is a report without an
      offset: the holder could not tell where its log stood. */
  lemma HonestlyTooMuchIff(run: seq<State>, i: nat)
    requires Run(run, true) && i < |run|
    ensures ShowsTooMuch(run[i]) <==> exists k :: 0 <= k < i && LateReport(run[k], run[k + 1])
  {
    hide Step, LateReport, LateTimeout, Inv;
    HonestRun(run);
    ShowsTooMuchIff(run, i);
    forall k | 0 <= k < i ensures !LateTimeout(run[k], run[k + 1]) {
      RunsKeepInv(run, k);
      RunsKeepInv(run, k + 1);
      HonestTimeout(run[k], run[k + 1]);
    }
  }

  lemma HonestRun(run: seq<State>)
    requires Run(run, true)
    ensures Run(run, false)
  {
    hide Step;
    forall k | 0 <= k < |run| - 1 ensures Step(run[k], run[k + 1], false) { HonestStep(run[k], run[k + 1]); }
  }

  lemma HonestTimeout(s: State, t: State)
    requires Inv(s) && Inv(t)
    ensures !LateTimeout(s, t)
  {}

  lemma IsStep(s: State, t: State, line: seq<char>, n: nat, honest: bool)
    requires HolderWrites(s, t, line) || HolderSeeks(s, t) || HolderSends(s, t) || TakesSize(s, t)
             || ReadsReport(s, t, n) || TimesOut(s, t, honest)
    ensures Step(s, t, honest)
  {}

  /** A read that reports a timeout without having looked, with a report in the
      pipe, lets the launcher show what the holder wrote after reporting. */
  lemma EarlyTimeoutShowsTooMuch()
    ensures exists run: seq<State> :: Run(run, false) && ShowsTooMuch(run[|run| - 1])
  {
    hide Step;
    var a := State([], None, None, 0, 0, false, Polling, 0, [], 1);
    var b := a.(log := ['x']);
    var c := b.(offset := Some(1));
    var d := c.(sentAt := Some(1), unread := 1);
    var e := d.(log := ['x', 'y']);
    var f := e.(place := Sized(2));
    var g := f.(place := Polling, shown := 2, screen := ['x', 'y']);
    IsStep(a, b, ['x'], 0, false);
    IsStep(b, c, [], 0, false);
    IsStep(c, d, [], 0, false);
    IsStep(d, e, ['y'], 0, false);
    IsStep(e, f, [], 0, false);
    assert f.log[0..2] == ['x', 'y'];
    IsStep(f, g, [], 0, false);
    hide HolderWrites, HolderSeeks, HolderSends, TakesSize, ReadsReport, TimesOut;
    var run := [a, b, c, d, e, f, g];
    assert Run(run, false);
    assert ShowsTooMuch(run[|run| - 1]);
  }

  /** A report without an offset, read after the holder wrote more, does too. */
  lemma OffsetlessReportShowsTooMuch()
    ensures exists run: seq<State> :: Run(run, true) && ShowsTooMuch(run[|run| - 1])
  {
    hide Step;
    var a := State([], None, None, 0, 0, false, Polling, 0, [], 1);
    var b := a.(offset := Some(0));
    var c := b.(sentAt := Some(0), unread := 1);
    var d := c.(log := ['x']);
    var e := d.(place := Sized(1));
    var f := e.(unread := 0, taken := 1, place := Reported, shown := 1, screen := ['x']);
    IsStep(a, b, [], 0, true);
    IsStep(b, c, [], 0, true);
    IsStep(c, d, ['x'], 0, true);
    IsStep(d, e, [], 0, true);
    assert e.log[0..1] == ['x'];
    IsStep(e, f, [], 1, true);
    hide HolderWrites, HolderSeeks, HolderSends, TakesSize, ReadsReport, TimesOut;
    var run := [a, b, c, d, e, f];
    assert Run(run, true);
    assert ShowsTooMuch(run[|run| - 1]);
  }
}
