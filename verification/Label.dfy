/** The marker stamped on a provider resource, and what a reader recovers from
    however much of it survives. Strings are bytes. */
module Label {
  import opened Wrappers
  import opened Decimal

  const LABEL_KEY := "larri"
  const LABEL_VERSION := 1
  const DEFAULT_LIMIT := 255
  const NAME_LIMIT := 64

  /** The price is in ten-thousandths of a dollar when printed; a reader may
      meet any decimal. */
  datatype Label = Label(
    rigId: string, version: Int64, created: Option<Int64>, runtime: string, port: Int64,
    price: real, served: string, model: string, seal: bool)

  function Blank(rigId: string): Label {
    Label(rigId, LABEL_VERSION, None, "", 0, 0.0, "", "", false)
  }

  /** What a key turns fields into, and its inverse. */
  datatype Sealer = Sealer(seal: string -> Option<string>, open: string -> Option<string>)

  // ---- fields ------------------------------------------------------------

  /** The fields in the order they are written, by the letter that names them. */
  const KEYS := "vtrpcnm"

  function SanitiseChar(c: char): char {
    if c == '|' || c == '=' || c == '\n' || c == ' ' then '_' else c
  }

  function Sanitise(s: string): string {
    var t := seq(|s|, i requires 0 <= i < |s| => SanitiseChar(s[i]));
    if |t| > NAME_LIMIT then t[..NAME_LIMIT] else t
  }

  function VersionOf(l: Label): Int64 {
    if l.version == 0 then LABEL_VERSION else l.version
  }

  function TenThousandths(price: real): nat {
    if price <= 0.0 then 0 else (price * 10000.0).Floor
  }

  /** What field i of a label is written as; empty when it is left out. */
  function Text(l: Label, i: nat): string
    requires i < 7
  {
    if i == 0 then PrintInt(VersionOf(l))
    else if i == 1 then (if l.created.Some? then PrintInt(l.created.value) else "")
    else if i == 2 then l.runtime
    else if i == 3 then (if l.port > 0 then PrintInt(l.port) else "")
    else if i == 4 then (if l.price > 0.0 then PrintPrice(TenThousandths(l.price)) else "")
    else if i == 5 then Sanitise(l.served)
    else Sanitise(l.model)
  }

  function Segment(l: Label, i: nat): string
    requires i < 7
  {
    if Text(l, i) == "" then "" else "|" + [KEYS[i]] + "=" + Text(l, i)
  }

  /** Fields i up to m, written out. */
  function Segments(l: Label, i: nat, m: nat): string
    requires i <= m <= 7
    decreases m - i
  {
    if i == m then "" else Segment(l, i) + Segments(l, i + 1, m)
  }

  function Head(l: Label): string {
    LABEL_KEY + ":" + l.rigId
  }

  /** The first field, from i on, that does not fit after that much text. */
  function FirstUnfit(l: Label, i: nat, used: nat, limit: int): (m: nat)
    requires i <= 7
    ensures i <= m <= 7
    decreases 7 - i
  {
    if i == 7 || (Segment(l, i) != "" && used + |Segment(l, i)| > limit) then i
    else FirstUnfit(l, i + 1, used + |Segment(l, i)|, limit)
  }

  /** How many fields a label within a limit keeps. */
  function Room(l: Label, limit: int): (m: nat)
    ensures m <= 7
  {
    if |Head(l)| > limit then 0 else FirstUnfit(l, 0, |Head(l)|, limit)
  }

  // ---- encoding ----------------------------------------------------------

  method EncodePlain(l: Label, limit: int) returns (out: string)
    ensures out == Head(l) + Segments(l, 0, Room(l, limit))
    ensures |out| <= limit || out == Head(l)
  {
    hide Text, FirstUnfit, Segments;
    var head := Head(l);
    if |head| > limit {
      NoSegments(l, 0);
      assert head + "" == head;
      return head;
    }
    NoSegments(l, 0);
    var fields: seq<string> := [];
    for i := 0 to 7
      invariant |fields| == i && forall j :: 0 <= j < i ==> fields[j] == Segment(l, j)
    {
      var v := Text(l, i);
      fields := fields + [if v == "" then "" else "|" + [KEYS[i]] + "=" + v];
    }
    hide Segment;
    assert head + "" == head;
    out := head;
    var n := 0;
    while n < |fields|
      invariant 0 <= n <= 7 && |out| <= limit
      invariant out == head + Segments(l, 0, n)
      invariant Room(l, limit) == FirstUnfit(l, n, |out|, limit)
    {
      var seg := fields[n];
      UnfitStep(l, n, |out|, limit);
      if |out| + |seg| > limit { return; }
      SegmentsSnoc(l, 0, n);
      assert head + Segments(l, 0, n) + seg == head + (Segments(l, 0, n) + seg);
      out := out + seg;
      n := n + 1;
    }
    UnfitEnd(l, |out|, limit);
  }

  lemma NoSegments(l: Label, i: nat)
    requires i <= 7
    ensures Segments(l, i, i) == ""
  {}

  lemma UnfitEnd(l: Label, used: nat, limit: int)
    ensures FirstUnfit(l, 7, used, limit) == 7
  {}

  lemma UnfitStep(l: Label, i: nat, used: nat, limit: int)
    requires i < 7 && used <= limit
    ensures FirstUnfit(l, i, used, limit) ==
            if used + |Segment(l, i)| > limit then i else FirstUnfit(l, i + 1, used + |Segment(l, i)|, limit)
  {
    hide Segment;
  }

  lemma {:induction false} SegmentsSnoc(l: Label, i: nat, m: nat)
    requires i <= m < 7
    ensures Segments(l, i, m + 1) == Segments(l, i, m) + Segment(l, m)
    decreases m - i
  {
    hide Segment;
    if i < m { SegmentsSnoc(l, i + 1, m); }
  }

  function EncodeFields(l: Label): string {
    "v=" + PrintInt(VersionOf(l)) + Detail(l, 1) + Detail(l, 2) + Detail(l, 3) + Detail(l, 4) + Detail(l, 5)
    + Detail(l, 6)
  }

  /** One detail of the sealed payload, under the payload's own conditions. */
  function Detail(l: Label, i: nat): string
    requires 0 < i < 7
  {
    if i == 1 then (if l.created.Some? then "|t=" + PrintInt(l.created.value) else "")
    else if i == 2 then (if l.runtime != "" then "|r=" + l.runtime else "")
    else if i == 3 then (if l.port > 0 then "|p=" + PrintInt(l.port) else "")
    else if i == 4 then (if l.price > 0.0 then "|c=" + PrintPrice(TenThousandths(l.price)) else "")
    else if i == 5 then (if l.served != "" then "|n=" + Sanitise(l.served) else "")
    else (if l.model != "" then "|m=" + Sanitise(l.model) else "")
  }

  method EncodeLabel(l: Label, limit: int, sealer: Option<Sealer>) returns (out: string)
    ensures out == Encoded(l, limit, sealer)
    ensures Head(l) <= out
    ensures |out| <= (if limit <= 0 then DEFAULT_LIMIT else limit) || out == Head(l)
  {
    var most := if limit <= 0 then DEFAULT_LIMIT else limit;
    var head := Head(l);
    if sealer.None? {
      out := EncodePlain(l, most);
      return;
    }
    var sealed := sealer.value.seal(EncodeFields(l));
    if sealed.None? { return head; }
    var full := head + "|e=" + sealed.value;
    if |full| > most { return head; }
    return full;
  }

  /** What a label is stamped as. */
  function Encoded(l: Label, limit: int, sealer: Option<Sealer>): string {
    var most := if limit <= 0 then DEFAULT_LIMIT else limit;
    if sealer.None? then Head(l) + Segments(l, 0, Room(l, most))
    else
      var sealed := sealer.value.seal(EncodeFields(l));
      if sealed.Some? && |Head(l) + "|e=" + sealed.value| <= most then Head(l) + "|e=" + sealed.value else Head(l)
  }

  // ---- what is stamped ----------------------------------------------------

  /** Codes 10, 32, 61 and 124, which would break a label up, become '_'; and no more
      than 64 characters are kept. */
  lemma SanitiseIs(s: string)
    ensures |Sanitise(s)| == if |s| <= 64 then |s| else 64
    ensures forall i :: 0 <= i < |Sanitise(s)| ==>
              Sanitise(s)[i] as int == if s[i] as int in {10, 32, 61, 124} then 95 else s[i] as int
  {}

  /** A label that fits is stamped with every field it has, in order. */
  lemma StampedInFull(l: Label, limit: int)
    requires l.created.Some? && l.runtime != "" && l.port > 0 && l.price > 0.0 && l.served != "" && l.model != ""
    requires |"larri:" + l.rigId + "|" + Fields(l)| <= (if limit > 0 then limit else 255)
    ensures Encoded(l, limit, None) == "larri:" + l.rigId + "|" + Fields(l)
  {
    hide Text, Fields, Segments, Segment, FirstUnfit, Head;
    var most := if limit > 0 then limit else 255;
    HeadIs(l);
    AllSegments(l);
    Appended(Head(l), "|", Fields(l));
    AllFit(l, 0, |Head(l)|, most);
    assert Room(l, most) == 7;
  }

  lemma HeadIs(l: Label)
    ensures Head(l) == "larri:" + l.rigId
  {
    assert "larri" + ":" == "larri:";
  }

  /** And sealed, what is sealed is those fields. */
  lemma SealedInFull(l: Label)
    requires l.created.Some? && l.runtime != "" && l.port > 0 && l.price > 0.0 && l.served != "" && l.model != ""
    ensures EncodeFields(l) == Fields(l)
  {
    hide PrintInt, PrintPrice, Sanitise, Joined;
    Details(l, PrintInt(VersionOf(l)), PrintInt(l.created.value), PrintInt(l.port), PrintPrice(TenThousandths(l.price)));
  }

  lemma Details(l: Label, v: string, t: string, p: string, c: string)
    requires l.created.Some? && l.runtime != "" && l.port > 0 && l.price > 0.0 && l.served != "" && l.model != ""
    requires v == PrintInt(VersionOf(l)) && t == PrintInt(l.created.value) && p == PrintInt(l.port) && c == PrintPrice(TenThousandths(l.price))
    ensures EncodeFields(l) == Joined(v, t, l.runtime, p, c, Sanitise(l.served), Sanitise(l.model))
  {
    hide PrintInt, PrintPrice, Sanitise;
    var n, m := Sanitise(l.served), Sanitise(l.model);
    assert Detail(l, 1) == "|t=" + t && Detail(l, 2) == "|r=" + l.runtime && Detail(l, 3) == "|p=" + p;
    assert Detail(l, 4) == "|c=" + c && Detail(l, 5) == "|n=" + n && Detail(l, 6) == "|m=" + m;
    hide Detail, VersionOf, TenThousandths;
    Appended("v=" + v, "|t=", t);
    Appended("v=" + v + "|t=" + t, "|r=", l.runtime);
    Appended("v=" + v + "|t=" + t + "|r=" + l.runtime, "|p=", p);
    Appended("v=" + v + "|t=" + t + "|r=" + l.runtime + "|p=" + p, "|c=", c);
    Appended("v=" + v + "|t=" + t + "|r=" + l.runtime + "|p=" + p + "|c=" + c, "|n=", n);
    Appended("v=" + v + "|t=" + t + "|r=" + l.runtime + "|p=" + p + "|c=" + c + "|n=" + n, "|m=", m);
  }

  lemma Appended(a: string, key: string, text: string)
    ensures a + key + text == a + (key + text)
  {}

  function Fields(l: Label): string {
    Joined(PrintInt(if l.version == 0 then 1 else l.version), PrintInt(if l.created.Some? then l.created.value else 0),
           l.runtime, PrintInt(l.port), PrintPrice(if l.price > 0.0 then (l.price * 10000.0).Floor else 0),
           Sanitise(l.served), Sanitise(l.model))
  }

  function Joined(v: string, t: string, r: string, p: string, c: string, n: string, m: string): string {
    "v=" + v + "|t=" + t + "|r=" + r + "|p=" + p + "|c=" + c + "|n=" + n + "|m=" + m
  }

  lemma AllSegments(l: Label)
    requires l.created.Some? && l.runtime != "" && l.port > 0 && l.price > 0.0 && l.served != "" && l.model != ""
    ensures Segments(l, 0, 7) == "|" + Fields(l)
  {
    hide Segment, Segments, PrintInt, PrintPrice, Sanitise, Joined, Text;
    SegmentsInTurn(l);
    EachSegment(l);
    JoinedIs(Text(l, 0), Text(l, 1), Text(l, 2), Text(l, 3), Text(l, 4), Text(l, 5), Text(l, 6));
    Texts(l);
  }

  lemma Texts(l: Label)
    requires l.created.Some? && l.port > 0 && l.price > 0.0
    ensures Fields(l) == Joined(Text(l, 0), Text(l, 1), Text(l, 2), Text(l, 3), Text(l, 4), Text(l, 5), Text(l, 6))
  {
    hide PrintInt, PrintPrice, Sanitise, Joined;
  }

  lemma EachSegment(l: Label)
    requires l.created.Some? && l.runtime != "" && l.port > 0 && l.price > 0.0 && l.served != "" && l.model != ""
    ensures Segment(l, 0) == "|v=" + Text(l, 0) && Segment(l, 1) == "|t=" + Text(l, 1) && Segment(l, 2) == "|r=" + Text(l, 2)
    ensures Segment(l, 3) == "|p=" + Text(l, 3) && Segment(l, 4) == "|c=" + Text(l, 4) && Segment(l, 5) == "|n=" + Text(l, 5)
    ensures Segment(l, 6) == "|m=" + Text(l, 6)
  {
    hide PrintInt, PrintPrice, Sanitise;
    Printed(VersionOf(l));
    Printed(l.created.value);
    Printed(l.port);
    PricePrinted(TenThousandths(l.price));
    SanitiseIs(l.served);
    SanitiseIs(l.model);
    assert "|" + ['v'] + "=" == "|v=" && "|" + ['t'] + "=" == "|t=" && "|" + ['r'] + "=" == "|r=" && "|" + ['p'] + "=" == "|p=";
    assert "|" + ['c'] + "=" == "|c=" && "|" + ['n'] + "=" == "|n=" && "|" + ['m'] + "=" == "|m=";
  }

  lemma JoinedIs(v: string, t: string, r: string, p: string, c: string, n: string, m: string)
    ensures "|" + Joined(v, t, r, p, c, n, m)
            == ("|v=" + v) + ("|t=" + t) + ("|r=" + r) + ("|p=" + p) + ("|c=" + c) + ("|n=" + n) + ("|m=" + m)
  {
    var a := "v=" + v;
    assert "|" + a == "|v=" + v;
    Prefixed(a, "|t=", t);
    Prefixed(a + "|t=" + t, "|r=", r);
    Prefixed(a + "|t=" + t + "|r=" + r, "|p=", p);
    Prefixed(a + "|t=" + t + "|r=" + r + "|p=" + p, "|c=", c);
    Prefixed(a + "|t=" + t + "|r=" + r + "|p=" + p + "|c=" + c, "|n=", n);
    Prefixed(a + "|t=" + t + "|r=" + r + "|p=" + p + "|c=" + c + "|n=" + n, "|m=", m);
  }

  lemma Prefixed(a: string, key: string, text: string)
    ensures "|" + (a + key + text) == ("|" + a) + (key + text)
  {}

  lemma Printed(n: Int64)
    ensures PrintInt(n) != ""
  {
    IntReadsBack(n);
  }

  lemma PricePrinted(c: nat)
    ensures PrintPrice(c) != ""
  {}

  lemma SegmentsInTurn(l: Label)
    ensures Segments(l, 0, 7) == Segment(l, 0) + Segment(l, 1) + Segment(l, 2) + Segment(l, 3) + Segment(l, 4) + Segment(l, 5) + Segment(l, 6)
  {
    hide Segment;
    assert Segments(l, 0, 0) == "";
    SegmentsSnoc(l, 0, 0);
    SegmentsSnoc(l, 0, 1);
    SegmentsSnoc(l, 0, 2);
    SegmentsSnoc(l, 0, 3);
    SegmentsSnoc(l, 0, 4);
    SegmentsSnoc(l, 0, 5);
    SegmentsSnoc(l, 0, 6);
  }

  lemma {:induction false} AllFit(l: Label, i: nat, used: nat, limit: int)
    requires i <= 7 && used + |Segments(l, i, 7)| <= limit
    ensures FirstUnfit(l, i, used, limit) == 7
    decreases 7 - i
  {
    hide Segment;
    if i < 7 { AllFit(l, i + 1, used + |Segment(l, i)|, limit); }
  }

  // ---- decoding ----------------------------------------------------------

  function Split(s: string): (parts: seq<string>)
    ensures |parts| > 0
  {
    if s == "" then [""]
    else
      var rest := Split(s[1..]);
      if s[0] == '|' then [""] + rest else [[s[0]] + rest[0]] + rest[1..]
  }

  function EqualsAt(s: string): (i: nat)
    ensures i <= |s| && (i < |s| ==> s[i] == '=')
  {
    if s == "" || s[0] == '=' then 0 else 1 + EqualsAt(s[1..])
  }

  /** One part of a label read into what is known so far. */
  function Apply(x: Label, p: string): Label {
    var i := EqualsAt(p);
    if i == |p| then x
    else
      var k, v := p[..i], p[i + 1..];
      var n := ParseInt(v);
      if k == "v" then (if n.Some? then x.(version := n.value) else x)
      else if k == "t" then (if n.Some? then x.(created := Some(n.value)) else x)
      else if k == "r" then x.(runtime := v)
      else if k == "p" then (if n.Some? then x.(port := n.value) else x)
      else if k == "c" then (if ParsePrice(v).Some? then x.(price := ParsePrice(v).value) else x)
      else if k == "n" then x.(served := v)
      else if k == "m" then x.(model := v)
      else x
  }

  function ApplyAll(x: Label, parts: seq<string>): Label
    decreases |parts|
  {
    if parts == [] then x else ApplyAll(Apply(x, parts[0]), parts[1..])
  }

  predicate IsSeal(p: string) {
    |p| >= 2 && p[..2] == "e="
  }

  /** The first seal among the parts that opens. */
  function Opened(parts: seq<string>, sealer: Option<Sealer>): Option<string> {
    if parts == [] then None
    else if IsSeal(parts[0]) && sealer.Some? && sealer.value.open(parts[0][2..]).Some? then
      sealer.value.open(parts[0][2..])
    else Opened(parts[1..], sealer)
  }

  function Unprefixed(s: string): Option<string> {
    var prefix := LABEL_KEY + ":";
    if |s| >= |prefix| && s[..|prefix|] == prefix then Some(s[|prefix|..]) else None
  }

  /** A label read without a key. */
  function DecodePlain(s: string): Option<Label> {
    var rest := Unprefixed(s);
    if rest.None? || rest.value == "" then None
    else
      var parts := Split(rest.value);
      if parts[0] == "" then None
      else Some(ApplyAll(Blank(parts[0]).(seal := exists i :: 1 <= i < |parts| && IsSeal(parts[i])), parts[1..]))
  }

  function Decoded(s: string, sealer: Option<Sealer>): Option<Label> {
    var rest := Unprefixed(s);
    if rest.None? || rest.value == "" then None
    else
      var parts := Split(rest.value);
      if parts[0] == "" then None
      else
        var plain := Opened(parts[1..], sealer);
        if plain.None? then DecodePlain(s)
        else
          var inner := DecodePlain(LABEL_KEY + ":" + parts[0] + "|" + plain.value);
          if inner.None? then Some(Blank(parts[0])) else Some(inner.value.(rigId := parts[0]))
  }

  method DecodeLabelWith(s: string, sealer: Option<Sealer>) returns (out: Option<Label>)
    ensures out == Decoded(s, sealer)
  {
    hide Apply, Split;
    var rest := Unprefixed(s);
    if rest.None? || rest.value == "" { return None; }
    var parts := Split(rest.value);
    var l := Blank(parts[0]);
    if l.rigId == "" { return None; }
    var i := 1;
    while i < |parts|
      invariant 1 <= i <= |parts|
      invariant Opened(parts[1..], sealer) == Opened(parts[i..], sealer)
      invariant l == Blank(parts[0]).(seal := exists j :: 1 <= j < i && IsSeal(parts[j]))
    {
      if IsSeal(parts[i]) {
        if sealer.Some? {
          var plain := sealer.value.open(parts[i][2..]);
          if plain.Some? {
            var inner := DecodePlain(LABEL_KEY + ":" + l.rigId + "|" + plain.value);
            return if inner.None? then Some(Blank(l.rigId)) else Some(inner.value.(rigId := l.rigId));
          }
        }
        l := l.(seal := true);
      }
      i := i + 1;
    }
    ghost var blank := l;
    i := 1;
    while i < |parts|
      invariant 1 <= i <= |parts|
      invariant ApplyAll(blank, parts[1..]) == ApplyAll(l, parts[i..])
    {
      l := Apply(l, parts[i]);
      i := i + 1;
    }
    return Some(l);
  }

  // ---- what survives -----------------------------------------------------

  predicate NoBar(s: string) {
    forall i :: 0 <= i < |s| ==> s[i] != '|'
  }

  /** A label as it is stamped: names sanitised, the version filled in, fields
      that are not positive left out. */
  function Cut(l: Label, m: nat): Label {
    Label(l.rigId,
          if m > 0 then VersionOf(l) else LABEL_VERSION,
          if m > 1 then l.created else None,
          if m > 2 then l.runtime else "",
          if m > 3 && l.port > 0 then l.port else 0,
          if m > 4 && l.price > 0.0 then l.price else 0.0,
          if m > 5 then Sanitise(l.served) else "",
          if m > 6 then Sanitise(l.model) else "",
          false)
  }

  /** What a label must be for its text to be unambiguous: the rig ID and the
      runtime carry no separator, the price is whole ten-thousandths. */
  predicate Stampable(l: Label) {
    l.rigId != "" && NoBar(l.rigId) && NoBar(l.runtime)
    && (l.price > 0.0 ==> l.price == TenThousandths(l.price) as real / 10000.0)
  }

  function Parts(t: string): seq<string> {
    if t == "" then [] else Split(t[1..])
  }

  predicate Boundary(t: string) {
    t == "" || t[0] == '|'
  }

  lemma {:induction false} SplitPart(p: string, t: string)
    requires NoBar(p) && Boundary(t)
    ensures Split(p + t) == [p] + Parts(t)
  {
    if p == "" {
      assert p + t == t;
      if t != "" { assert Split(t) == [""] + Split(t[1..]); }
    } else {
      assert (p + t)[1..] == p[1..] + t;
      SplitPart(p[1..], t);
      assert [p[0]] + p[1..] == p;
    }
  }

  lemma TextIsPlain(l: Label, i: nat)
    requires Stampable(l) && i < 7
    ensures NoBar(Text(l, i))
  {
    hide PrintInt, PrintPrice, TenThousandths, Sanitise;
    IntHasNoBar(VersionOf(l));
    if l.created.Some? { IntHasNoBar(l.created.value); }
    IntHasNoBar(l.port);
    PriceHasNoBar(TenThousandths(l.price));
    SanitisedHasNoBar(l.served);
    SanitisedHasNoBar(l.model);
  }

  lemma IntHasNoBar(n: Int64)
    ensures NoBar(PrintInt(n))
  {
    hide PrintInt;
    IntReadsBack(n);
  }

  lemma PriceHasNoBar(c: nat)
    ensures NoBar(PrintPrice(c))
  {
    hide PrintPrice;
    PriceReadsBack(c);
  }

  lemma SanitisedHasNoBar(s: string)
    ensures NoBar(Sanitise(s)) && (Sanitise(s) == "" <==> s == "")
  {}

  /** Reading back what field i was written as sets exactly that field. */
  lemma ApplyText(l: Label, i: nat)
    requires Stampable(l) && i < 7 && Text(l, i) != ""
    ensures Apply(Cut(l, i), [KEYS[i]] + "=" + Text(l, i)) == Cut(l, i + 1)
  {
    hide PrintInt, PrintPrice, ParsePrice, ParseInt, Sanitise;
    var p := [KEYS[i]] + "=" + Text(l, i);
    assert EqualsAt(p) == 1 by { assert p[0] != '=' && p[1] == '='; }
    assert p[..1] == [KEYS[i]] && p[2..] == Text(l, i);
    IntReadsBack(VersionOf(l));
    if l.created.Some? { IntReadsBack(l.created.value); }
    IntReadsBack(l.port);
    PriceReadsBack(TenThousandths(l.price));
  }

  lemma AbsentText(l: Label, i: nat)
    requires Stampable(l) && i < 7 && Text(l, i) == ""
    ensures Cut(l, i + 1) == Cut(l, i)
  {
    hide PrintInt, PrintPrice, Sanitise;
    Printed(VersionOf(l));
    if l.created.Some? { Printed(l.created.value); }
    Printed(l.port);
    PricePrinted(TenThousandths(l.price));
  }

  lemma SegmentParts(l: Label, i: nat, t: string)
    requires Stampable(l) && i < 7 && Boundary(t)
    ensures Parts(Segment(l, i) + t) ==
            (if Text(l, i) == "" then [] else [[KEYS[i]] + "=" + Text(l, i)]) + Parts(t)
    ensures Boundary(Segment(l, i) + t)
  {
    hide Text;
    TextIsPlain(l, i);
    if Text(l, i) == "" {
      assert Segment(l, i) + t == t;
    } else {
      var p := [KEYS[i]] + "=" + Text(l, i);
      assert (Segment(l, i) + t)[1..] == p + t;
      SplitPart(p, t);
    }
  }

  lemma {:induction false} SegmentsDecode(l: Label, i: nat, m: nat, t: string)
    requires Stampable(l) && i <= m <= 7 && Boundary(t)
    ensures Boundary(Segments(l, i, m) + t)
    ensures ApplyAll(Cut(l, i), Parts(Segments(l, i, m) + t)) == ApplyAll(Cut(l, m), Parts(t))
    decreases m - i
  {
    hide Text, Apply, Cut, Parts, Segment;
    if i == m {
      assert Segments(l, i, m) + t == t;
    } else {
      SegmentsDecode(l, i + 1, m, t);
      var rest := Segments(l, i + 1, m) + t;
      assert Segments(l, i, m) + t == Segment(l, i) + rest;
      SegmentParts(l, i, rest);
      if Text(l, i) == "" {
        AbsentText(l, i);
        assert [] + Parts(rest) == Parts(rest);
      } else {
        var p := [KEYS[i]] + "=" + Text(l, i);
        ApplyText(l, i);
        assert ([p] + Parts(rest))[0] == p && ([p] + Parts(rest))[1..] == Parts(rest);
      }
    }
  }

  ghost predicate NoSeals(parts: seq<string>) {
    forall i :: 0 <= i < |parts| ==> !IsSeal(parts[i])
  }

  lemma {:induction false} SegmentsHaveNoSeal(l: Label, i: nat, m: nat, t: string)
    requires Stampable(l) && i <= m <= 7 && Boundary(t) && NoSeals(Parts(t))
    ensures NoSeals(Parts(Segments(l, i, m) + t)) && Boundary(Segments(l, i, m) + t)
    decreases m - i
  {
    hide Text, Parts, Segment;
    if i == m {
      assert Segments(l, i, m) + t == t;
    } else {
      SegmentsHaveNoSeal(l, i + 1, m, t);
      var rest := Segments(l, i + 1, m) + t;
      assert Segments(l, i, m) + t == Segment(l, i) + rest;
      SegmentParts(l, i, rest);
      assert forall j :: 0 <= j < 7 ==> KEYS[j] != 'e';
      assert ([KEYS[i]] + "=" + Text(l, i))[..2][0] == KEYS[i];
    }
  }

  lemma {:induction false} NothingOpens(parts: seq<string>, sealer: Option<Sealer>)
    requires NoSeals(parts)
    ensures Opened(parts, sealer) == None
  {
    if parts != [] {
      assert !IsSeal(parts[0]);
      NothingOpens(parts[1..], sealer);
    }
  }

  /** A stamped head with any parts after it that hold no seal. */
  lemma HeadDecodes(l: Label, t: string, sealer: Option<Sealer>)
    requires Stampable(l) && Boundary(t) && NoSeals(Parts(t))
    ensures Decoded(Head(l) + t, sealer) == DecodePlain(Head(l) + t) == Some(ApplyAll(Blank(l.rigId), Parts(t)))
  {
    hide Parts, Apply;
    var s := Head(l) + t;
    assert s[..6] == LABEL_KEY + ":" && s[6..] == l.rigId + t;
    SplitPart(l.rigId, t);
    var parts := [l.rigId] + Parts(t);
    assert parts[1..] == Parts(t);
    NothingOpens(Parts(t), sealer);
    forall i | 1 <= i < |parts| ensures !IsSeal(parts[i]) { assert parts[i] == Parts(t)[i - 1]; }
  }

  lemma NothingAfter()
    ensures Parts("") == [] && Boundary("") && NoSeals(Parts(""))
  {}

  lemma CutNothing(l: Label)
    ensures Cut(l, 0) == Blank(l.rigId)
  {}

  /** An encoded label decodes to the stamped label cut to an initial run of its
      fields, however its names are spelled. */
  lemma PlainRoundTrip(l: Label, limit: int, sealer: Option<Sealer>)
    requires Stampable(l)
    ensures Decoded(Encoded(l, limit, None), sealer)
            == Some(Cut(l, Room(l, if limit <= 0 then DEFAULT_LIMIT else limit)))
  {
    hide Text, Cut, Segments, Parts, Room, ApplyAll, Decoded, DecodePlain;
    var m := Room(l, if limit <= 0 then DEFAULT_LIMIT else limit);
    NothingAfter();
    SegmentsDecode(l, 0, m, "");
    SegmentsHaveNoSeal(l, 0, m, "");
    assert Segments(l, 0, m) + "" == Segments(l, 0, m);
    HeadDecodes(l, Segments(l, 0, m), sealer);
    CutNothing(l);
    ApplyNone(Cut(l, m));
  }

  lemma ApplyNone(x: Label)
    ensures ApplyAll(x, []) == x
  {}

  // ---- truncation --------------------------------------------------------

  /** Two labels that differ in field i at most. */
  predicate SameBut(x: Label, y: Label, i: nat) {
    && x.rigId == y.rigId && x.seal == y.seal
    && (i == 0 || x.version == y.version) && (i == 1 || x.created == y.created)
    && (i == 2 || x.runtime == y.runtime) && (i == 3 || x.port == y.port)
    && (i == 4 || x.price == y.price) && (i == 5 || x.served == y.served)
    && (i == 6 || x.model == y.model)
  }

  /** A segment cut short can touch only the field it names. */
  lemma CutSegment(l: Label, i: nat, r: nat)
    requires Stampable(l) && i < 7 && r < |Segment(l, i)|
    ensures var t := Segment(l, i)[..r];
            Boundary(t) && NoSeals(Parts(t)) && SameBut(ApplyAll(Cut(l, i), Parts(t)), Cut(l, i), i)
  {
    hide Text, Cut;
    TextIsPlain(l, i);
    var t := Segment(l, i)[..r];
    if r > 0 {
      var p := t[1..];
      assert p == ([KEYS[i]] + "=" + Text(l, i))[..r - 1];
      assert p + "" == p;
      SplitPart(p, "");
      assert Parts(t) == [p];
      CutPart(Cut(l, i), i, Text(l, i), r - 1);
      ApplyOne(Cut(l, i), p);
    }
  }

  lemma ApplyOne(x: Label, p: string)
    ensures ApplyAll(x, [p]) == Apply(x, p)
  {
    hide Apply;
    assert [p][1..] == [];
  }

  lemma CutPart(x: Label, i: nat, text: string, n: nat)
    requires i < 7 && n < 2 + |text|
    ensures var p := ([KEYS[i]] + "=" + text)[..n];
            SameBut(Apply(x, p), x, i) && !IsSeal(p)
  {
    hide ParseInt, ParsePrice;
    var p := ([KEYS[i]] + "=" + text)[..n];
    assert KEYS[i] != '=' && KEYS[i] != 'e';
    if n >= 2 {
      assert p[0] == KEYS[i] && p[1] == '=';
      assert EqualsAt(p) == 1;
      assert p[..1] == [KEYS[i]];
    } else if n == 1 {
      assert p == [KEYS[i]];
      assert EqualsAt(p) == 1;
    }
  }

  lemma {:induction false} WhereCut(l: Label, i: nat, m: nat, n: nat) returns (j: nat, r: nat)
    requires i <= m <= 7 && n < |Segments(l, i, m)|
    ensures i <= j < m && r < |Segment(l, j)|
    ensures Segments(l, i, m)[..n] == Segments(l, i, j) + Segment(l, j)[..r]
    decreases m - i
  {
    hide Segment;
    var s := Segment(l, i);
    assert Segments(l, i, m) == s + Segments(l, i + 1, m);
    if n < |s| {
      j, r := i, n;
      assert Segments(l, i, m)[..n] == s[..n];
      assert Segments(l, i, i) + s[..n] == s[..n];
    } else {
      j, r := WhereCut(l, i + 1, m, n - |s|);
      assert Segments(l, i, m)[..n] == s + Segments(l, i + 1, m)[..n - |s|];
      assert s + (Segments(l, i + 1, j) + Segment(l, j)[..r]) == s + Segments(l, i + 1, j) + Segment(l, j)[..r];
    }
  }

  /** Whatever length a provider cuts a label to, past its head, the rig ID and
      every field before the cut one survive, and nothing after it appears. */
  lemma TruncationKeepsWhatCameBefore(l: Label, limit: int, sealer: Option<Sealer>, n: nat) returns (j: nat)
    requires Stampable(l)
    requires |Head(l)| <= n < |Encoded(l, limit, None)|
    ensures j < 7
    ensures Decoded(Encoded(l, limit, None)[..n], sealer).Some?
    ensures SameBut(Decoded(Encoded(l, limit, None)[..n], sealer).value, Cut(l, j), j)
    ensures |Head(l)| + |Segments(l, 0, j)| <= n < |Head(l)| + |Segments(l, 0, j)| + |Segment(l, j)|
  {
    hide Text, Cut, Segment, Parts, Room, ApplyAll, Decoded, DecodePlain, SameBut;
    var m := Room(l, if limit <= 0 then DEFAULT_LIMIT else limit);
    var r;
    j, r := WhereCut(l, 0, m, n - |Head(l)|);
    var t := Segment(l, j)[..r];
    CutSegment(l, j, r);
    SegmentsDecode(l, 0, j, t);
    SegmentsHaveNoSeal(l, 0, j, t);
    assert Encoded(l, limit, None)[..n] == Head(l) + (Segments(l, 0, j) + t);
    HeadDecodes(l, Segments(l, 0, j) + t, sealer);
    CutNothing(l);
  }

  // ---- the sealed form ---------------------------------------------------

  lemma FieldsAreSegments(l: Label)
    requires Stampable(l)
    ensures "|" + EncodeFields(l) == Segments(l, 0, 7)
  {
    hide Segment, Detail, PrintInt;
    FirstSegment(l);
    DetailIsSegment(l, 1);
    DetailIsSegment(l, 2);
    DetailIsSegment(l, 3);
    DetailIsSegment(l, 4);
    DetailIsSegment(l, 5);
    DetailIsSegment(l, 6);
    SevenSegments(l);
    assert "|" + EncodeFields(l) == "|v=" + PrintInt(VersionOf(l)) + Segment(l, 1) + Segment(l, 2) + Segment(l, 3)
                                    + Segment(l, 4) + Segment(l, 5) + Segment(l, 6);
  }

  lemma FirstSegment(l: Label)
    ensures Segment(l, 0) == "|v=" + PrintInt(VersionOf(l))
  {
    hide PrintInt;
    IntReadsBack(VersionOf(l));
    assert KEYS[0] == 'v';
  }

  lemma DetailIsSegment(l: Label, i: nat)
    requires 0 < i < 7
    ensures Detail(l, i) == Segment(l, i)
  {
    hide PrintInt, PrintPrice, Sanitise, TenThousandths;
    if l.created.Some? { IntReadsBack(l.created.value); }
    IntReadsBack(l.port);
    PriceNotEmpty(TenThousandths(l.price));
    SanitisedHasNoBar(l.served);
    SanitisedHasNoBar(l.model);
    assert KEYS[1] == 't' && KEYS[2] == 'r' && KEYS[3] == 'p' && KEYS[4] == 'c' && KEYS[5] == 'n' && KEYS[6] == 'm';
  }

  lemma PriceNotEmpty(c: nat)
    ensures PrintPrice(c) != ""
  {}

  lemma SevenSegments(l: Label)
    ensures Segments(l, 0, 7) == Segment(l, 0) + Segment(l, 1) + Segment(l, 2) + Segment(l, 3) + Segment(l, 4)
                                 + Segment(l, 5) + Segment(l, 6)
  {
    hide Segment;
    SegmentsSnoc(l, 0, 6);
    SegmentsSnoc(l, 0, 5);
    SegmentsSnoc(l, 0, 4);
    SegmentsSnoc(l, 0, 3);
    SegmentsSnoc(l, 0, 2);
    SegmentsSnoc(l, 0, 1);
    SegmentsSnoc(l, 0, 0);
    assert "" + Segment(l, 0) == Segment(l, 0);
  }

  /** Sealed, a label decodes to all of its fields with the key that sealed it,
      or to the rig ID alone when the seal did not fit or could not be made. */
  lemma SealedRoundTrip(l: Label, limit: int, sealer: Sealer)
    requires Stampable(l)
    requires sealer.seal(EncodeFields(l)).Some? ==>
               sealer.open(sealer.seal(EncodeFields(l)).value) == Some(EncodeFields(l))
               && NoBar(sealer.seal(EncodeFields(l)).value)
    ensures var s := Encoded(l, limit, Some(sealer));
            s != Head(l) ==> Decoded(s, Some(sealer)) == Some(Cut(l, 7))
                             && Decoded(s, None) == Some(Blank(l.rigId).(seal := true))
    ensures Decoded(Head(l), Some(sealer)) == Some(Blank(l.rigId))
  {
    hide Text, Segments, Segment, EncodeFields, Apply, ApplyAll, Split, Sanitise;
    NothingAfter();
    HeadDecodes(l, "", Some(sealer));
    ApplyNone(Blank(l.rigId));
    assert Head(l) + "" == Head(l);
    var s := Encoded(l, limit, Some(sealer));
    if s != Head(l) {
      var token := sealer.seal(EncodeFields(l)).value;
      SealedParts(l, token);
      var parts := Split(l.rigId + ("|e=" + token));
      assert parts[1..] == ["e=" + token] && IsSeal(parts[1]);
      assert Opened(parts[1..], Some(sealer)) == Some(EncodeFields(l));
      assert Opened(parts[1..], None) == None;
      assert IsSeal("e=" + token) && ("e=" + token)[2..] == token;
      ApplySeal(Blank(l.rigId).(seal := true), token);
      PlainInside(l);
    }
  }

  lemma ApplySeal(x: Label, token: string)
    ensures ApplyAll(x, ["e=" + token]) == x
  {
    var p := "e=" + token;
    assert p[0] == 'e' && p[1] == '=' && EqualsAt(p) == 1 && p[..1] == "e";
    ApplyOne(x, p);
  }

  lemma SealedParts(l: Label, token: string)
    requires Stampable(l) && NoBar(token)
    ensures Unprefixed(Head(l) + "|e=" + token) == Some(l.rigId + ("|e=" + token))
    ensures Split(l.rigId + ("|e=" + token)) == [l.rigId, "e=" + token]
  {
    var t := "|e=" + token;
    var s := Head(l) + "|e=" + token;
    assert s[..6] == LABEL_KEY + ":" && s[6..] == l.rigId + t;
    SplitPart(l.rigId, t);
    assert t[1..] == "e=" + token && "e=" + token + "" == "e=" + token;
    SplitPart("e=" + token, "");
  }

  lemma PlainInside(l: Label)
    requires Stampable(l)
    ensures DecodePlain(LABEL_KEY + ":" + l.rigId + "|" + EncodeFields(l)) == Some(Cut(l, 7))
  {
    hide Text, Cut, Segments, Parts, ApplyAll, Decoded, DecodePlain, EncodeFields;
    FieldsAreSegments(l);
    NothingAfter();
    SegmentsDecode(l, 0, 7, "");
    SegmentsHaveNoSeal(l, 0, 7, "");
    assert Segments(l, 0, 7) + "" == Segments(l, 0, 7);
    HeadDecodes(l, Segments(l, 0, 7), None);
    assert LABEL_KEY + ":" + l.rigId + "|" + EncodeFields(l) == Head(l) + Segments(l, 0, 7);
    CutNothing(l);
    ApplyNone(Cut(l, 7));
  }

  lemma {:induction false} ApplyKeepsRig(x: Label, parts: seq<string>)
    ensures ApplyAll(x, parts).rigId == x.rigId && ApplyAll(x, parts).seal == x.seal
    decreases |parts|
  {
    hide ParseInt, ParsePrice;
    if parts != [] { ApplyKeepsRig(Apply(x, parts[0]), parts[1..]); }
  }

  /** Whatever follows the head, cut, tampered with or sealed under another key,
      the label still names its rig. */
  lemma AttributionSurvives(l: Label, t: string, sealer: Option<Sealer>)
    requires l.rigId != "" && NoBar(l.rigId) && Boundary(t)
    ensures Decoded(Head(l) + t, sealer).Some? && Decoded(Head(l) + t, sealer).value.rigId == l.rigId
  {
    hide Parts, Apply, ApplyAll, Split;
    var s := Head(l) + t;
    assert s[..6] == LABEL_KEY + ":" && s[6..] == l.rigId + t;
    SplitPart(l.rigId, t);
    var parts := [l.rigId] + Parts(t);
    ApplyKeepsRig(Blank(l.rigId).(seal := exists i :: 1 <= i < |parts| && IsSeal(parts[i])), parts[1..]);
  }
}
