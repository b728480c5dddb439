/** The journal: an append-only record of what was attempted, one line an entry. */
module Journal {
  import opened Lifecycle
  import opened Wrappers

  /** Journal entries are stamped when appended, so the zero time only ever
      means "not set yet" and no entry carries it. */
  type Instant = t: int | 0 < t witness 1

  /** Why a rig ended, and whether that ending states as evidence that the
      provider held nothing carrying the rig's label. */
  datatype Ending = Ending(summary: string, nothingCreated: bool)

  datatype Entry = Entry(
    at: Instant,
    rig: string,
    from: State,
    to: State,
    instance: Option<string>,
    price: real,       // hourly rate while running; not positive when unknown
    storage: real,     // hourly rate while stopped; not positive when unknown
    billedRates: bool, // written under the current rate rules
    end: Option<Ending>)

  predicate NothingCreated(e: Entry) {
    e.end.Some? && e.end.value.nothingCreated
  }

  /** The entries of one rig, oldest first. */
  function EntriesFor(es: seq<Entry>, rig: string): seq<Entry> {
    if es == [] then []
    else
      var rest := EntriesFor(es[..|es| - 1], rig);
      if es[|es| - 1].rig == rig then rest + [es[|es| - 1]] else rest
  }

  method FilterEntries(es: seq<Entry>, rig: string) returns (out: seq<Entry>)
    ensures out == EntriesFor(es, rig)
  {
    out := [];
    for i := 0 to |es|
      invariant out == EntriesFor(es[..i], rig)
    {
      assert es[..i + 1][..i] == es[..i];
      if es[i].rig == rig { out := out + [es[i]]; }
    }
    assert es[..|es|] == es;
  }

  // ---- the file ----------------------------------------------------------

  /** A line this long or longer stops the reader. */
  const MAX_LINE := 0x10_0000

  /** How entries become lines, and lines entries. */
  datatype Codec = Codec(enc: Entry -> string, dec: string -> Option<Entry>)

  predicate OneLine(s: string) {
    forall i :: 0 <= i < |s| ==> s[i] != '\n'
  }

  /** What a JSON object on a line of its own gives: it reads back whole, and no
      piece of it reads. */
  predicate WritesLine(c: Codec, e: Entry) {
    && OneLine(c.enc(e)) && 0 < |c.enc(e)| < 1048576 && c.dec(c.enc(e)) == Some(e)
    && (forall n :: 0 < n < |c.enc(e)| ==> c.dec(c.enc(e)[..n]) == None)
  }

  /** Nor does an object with something in front of it on the same line. */
  predicate NeverGlued(c: Codec, tail: string, e: Entry) {
    tail != "" ==> c.dec(tail + c.enc(e)) == None
  }

  function LineEnd(text: string): (i: nat)
    ensures i <= |text| && OneLine(text[..i]) && (i < |text| ==> text[i] == '\n')
  {
    if text == "" || text[0] == '\n' then 0 else 1 + LineEnd(text[1..])
  }

  /** The entries read, and whether an over-long line ended the reading. */
  datatype Reading = Reading(entries: seq<Entry>, tooLong: bool) {
    function Then(r: Reading): Reading {
      if tooLong then this else Reading(entries + r.entries, r.tooLong)
    }
  }

  function ReadLine(c: Codec, line: string): Reading {
    if |line| >= MAX_LINE then Reading([], true)
    else if line == "" || c.dec(line).None? then Reading([], false)
    else Reading([c.dec(line).value], false)
  }

  /** Every line that reads as an entry, oldest first, up to an over-long one; the
      others are dropped. */
  function ReadText(c: Codec, text: string): Reading {
    var i := LineEnd(text);
    if i == |text| then ReadLine(c, text) else ReadLine(c, text[..i]).Then(ReadText(c, text[i + 1..]))
  }

  method ReadJournal(c: Codec, text: string) returns (out: seq<Entry>, tooLong: bool)
    ensures Reading(out, tooLong) == ReadText(c, text)
  {
    hide ReadText, LineEnd, ReadLine;
    out := [];
    var rest := text;
    NothingToRead(c);
    while rest != ""
      invariant Reading(out, false).Then(ReadText(c, rest)) == ReadText(c, text)
      decreases |rest|
    {
      var i := LineEnd(rest);
      var line := rest[..i];
      ReadStep(c, rest);
      ReadLineIs(c, line);
      if i >= MAX_LINE { return out, true; }
      rest := if i < |rest| then rest[i + 1..] else "";
      if line == "" { continue; }
      var e := c.dec(line);
      if e.None? { continue; }
      out := out + [e.value];
    }
    tooLong := false;
  }

  lemma NothingToRead(c: Codec)
    ensures ReadText(c, "") == Reading([], false)
  {}

  lemma ReadLineIs(c: Codec, line: string)
    ensures ReadLine(c, line) == if |line| >= MAX_LINE then Reading([], true)
                                 else Reading(if line == "" || c.dec(line).None? then [] else [c.dec(line).value], false)
  {}

  lemma ReadStep(c: Codec, text: string)
    requires text != ""
    ensures var i := LineEnd(text);
            ReadText(c, text) == ReadLine(c, text[..i]).Then(ReadText(c, if i < |text| then text[i + 1..] else ""))
  {
    hide LineEnd;
    NothingToRead(c);
    assert text[..|text|] == text;
  }

  /** Every line before the end of the text is complete. */
  predicate Terminated(text: string) {
    text == "" || text[|text| - 1] == '\n'
  }

  /** Whole lines read the same whatever follows them. */
  lemma {:induction false} ReadAfterWholeLines(c: Codec, body: string, tail: string)
    requires Terminated(body)
    ensures ReadText(c, body + tail) == ReadText(c, body).Then(ReadText(c, tail))
    decreases |body|
  {
    if body == "" {
      assert body + tail == tail;
    } else {
      hide ReadLine;
      var i := LineEnd(body);
      assert i < |body|;
      LineEndIs(body + tail, i);
      assert (body + tail)[..i] == body[..i] && (body + tail)[i + 1..] == body[i + 1..] + tail;
      ReadAfterWholeLines(c, body[i + 1..], tail);
      ThenIsAssociative(ReadLine(c, body[..i]), ReadText(c, body[i + 1..]), ReadText(c, tail));
    }
  }

  lemma ThenIsAssociative(x: Reading, y: Reading, z: Reading)
    ensures x.Then(y).Then(z) == x.Then(y.Then(z))
  {}

  lemma {:induction false} LineEndIs(text: string, i: nat)
    requires i <= |text| && OneLine(text[..i]) && (i < |text| ==> text[i] == '\n')
    ensures LineEnd(text) == i
  {
    if i > 0 {
      assert text[0] == text[..i][0];
      assert text[1..][..i - 1] == text[..i][1..];
      LineEndIs(text[1..], i - 1);
    }
  }

  lemma ReadOneLine(c: Codec, line: string)
    requires OneLine(line)
    ensures ReadText(c, line) == ReadLine(c, line) && ReadText(c, line + "\n") == ReadLine(c, line)
  {
    hide ReadLine;
    assert line[..|line|] == line;
    LineEndIs(line, |line|);
    assert (line + "\n")[..|line|] == line && (line + "\n")[|line| + 1..] == "";
    LineEndIs(line + "\n", |line|);
    NothingToRead(c);
    ThenNothing(ReadLine(c, line));
  }

  lemma ThenNothing(r: Reading)
    ensures r.Then(Reading([], false)) == r
  {}

  /** A crash while one entry is appended to a whole file loses that entry at most. */
  lemma CrashLosesOnlyTheLastEntry(c: Codec, body: string, e: Entry, n: nat)
    requires WritesLine(c, e) && Terminated(body) && n <= |c.enc(e)| + 1
    ensures ReadText(c, body + (c.enc(e) + "\n")[..n])
            == ReadText(c, body).Then(Reading(if n < |c.enc(e)| then [] else [e], false))
  {
    hide ReadText;
    var line := c.enc(e);
    var tail := (line + "\n")[..n];
    ReadAfterWholeLines(c, body, tail);
    if n <= |line| {
      assert tail == line[..n];
      ReadOneLine(c, tail);
      assert line[..|line|] == line;
    } else {
      assert tail == line + "\n";
      ReadOneLine(c, line);
    }
  }

  /** Whatever crashes left at the end of a file, an entry appended next is read
      back exactly when the file ended in a newline and could be read to there.
      Otherwise it is glued to what was left, and both are lost. */
  lemma AppendIsReadIffTerminated(c: Codec, body: string, tail: string, e: Entry)
    requires WritesLine(c, e) && NeverGlued(c, tail, e)
    requires Terminated(body) && OneLine(tail)
    ensures var text := body + tail;
            var after := ReadText(c, text + c.enc(e) + "\n");
            && (Terminated(text) <==> tail == "")
            && (after.entries == ReadText(c, text).entries + [e] <==> Terminated(text) && !ReadText(c, text).tooLong)
            && (!Terminated(text) ==> after.entries == ReadText(c, body).entries)
  {
    hide ReadText;
    var line := c.enc(e);
    var text := body + tail;
    assert text + line + "\n" == body + (tail + line + "\n");
    ReadAfterWholeLines(c, body, tail + line + "\n");
    ReadAfterWholeLines(c, body, tail);
    OneLineConcat(tail, line);
    ReadOneLine(c, tail + line);
    ReadOneLine(c, tail);
    if tail == "" {
      assert tail + line == line && text == body;
    } else {
      assert text[|text| - 1] == tail[|tail| - 1];
    }
  }

  lemma OneLineConcat(a: string, b: string)
    requires OneLine(a) && OneLine(b)
    ensures OneLine(a + b)
  {}

  /** An entry whose line is over-long hides itself and every later one. */
  lemma OverlongLineHidesTheRest(c: Codec, body: string, line: string, more: string)
    requires Terminated(body) && OneLine(line) && |line| >= 1048576
    ensures ReadText(c, body + (line + "\n") + more) == ReadText(c, body).Then(Reading([], true))
  {
    hide ReadText;
    assert body + (line + "\n") + more == body + ((line + "\n") + more);
    ReadAfterWholeLines(c, body, (line + "\n") + more);
    ReadAfterWholeLines(c, line + "\n", more);
    ReadOneLine(c, line);
  }
}
