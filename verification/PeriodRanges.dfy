/**
 What a period value means, from what is written: the point a bound states, the span from the first second of
 one to the last second of the other, and the errors (src/period_parser.py:88-274). Seconds are counted here by
 the calendar unit stated and the time of day, not by filling in components.
 */
module PeriodRanges {
  import opened Common
  import opened Spans
  import opened Calendar
  import opened PointText
  import opened PeriodParser
  import opened PeriodTheorems

  // ---------- What is written ----------

  /** The text is that of p with whitespace around it. */
  ghost predicate Writes(text: string, p: Parts) {
    Writable(p) && exists left, right :: Spaces(left) && Spaces(right) && text == left + Render(p) + right
  }

  /** The ASCII characters that Python counts as whitespace. */
  lemma SpacesAre(t: string)
    ensures Spaces(t) <==> forall c :: c in t ==> c as int in {9, 10, 11, 12, 13, 28, 29, 30, 31, 32}
  {
    forall c ensures IsSpace(c) <==> c as int in {9, 10, 11, 12, 13, 28, 29, 30, 31, 32} {}
    assert Spaces(t) <==> forall c :: c in t ==> IsSpace(c);
  }

  /** What a point looks like written out. */
  lemma TextExample()
    ensures Render(Parts(2031, Some(12), Some(5), Some(7), Some(48), Some(59), Some(Shift(false, 2, 30))))
         == "2031-12-05T07:48:59-02:30"
  {
    TextPieces();
    hide Four, Piece, Two, OffsetText;
    TextJoins();
  }

  lemma TextJoins()
    ensures "2031" + ("-12" + ("-05" + ("T07" + (":48" + (":59" + "-02:30"))))) == "2031-12-05T07:48:59-02:30"
  {}

  lemma TextPieces()
    ensures Four(2031) == "2031" && Piece('-', Some(12)) == "-12" && Piece('-', Some(5)) == "-05"
    ensures Piece('T', Some(7)) == "T07" && Piece(':', Some(48)) == ":48" && Piece(':', Some(59)) == ":59"
    ensures OffsetText(Some(Shift(false, 2, 30))) == "-02:30"
  {}

  /** The value states p: as text, as an integer year or as a date. */
  ghost predicate States(v: Value, p: Parts) {
    match v
    case Str(text) => Writes(text, p)
    case Int(n) => 1000 <= n <= 9999 && p == OnlyYear(n)
    case DateObject(d) => p == OnlyYear(d.year).(month := Some(d.month), day := Some(d.day))
    case _ => false
  }

  /** How far ahead of UTC, in seconds. */
  function Ahead(o: Option<Offset>): int {
    match o
    case Some(Shift(true, hours, minutes)) => 3600 * hours + 60 * minutes
    case Some(Shift(false, hours, minutes)) => -(3600 * hours + 60 * minutes)
    case _ => 0
  }

  /** The date or the span of dates and the time of day exist. */
  predicate Exists(p: Parts) {
    && ValidUnit(UnitOf(p)) && -86_400 < Ahead(p.offset) < 86_400
    && (p.hour.Some? ==> p.hour.value < 24)
    && (p.minute.Some? ==> p.minute.value < 60)
    && (p.second.Some? ==> p.second.value < 60)
  }

  /** The first UTC second of what p states. */
  function First(p: Parts): int {
    UnitStart(UnitOf(p)) * 86_400
    + (if p.hour.Some? then p.hour.value * 3600 else 0)
    + (if p.minute.Some? then p.minute.value * 60 else 0)
    + (if p.second.Some? then p.second.value else 0)
    - Ahead(p.offset)
  }

  /** How many seconds it lasts. */
  function Lasts(p: Parts): int {
    if p.second.Some? then 1
    else if p.minute.Some? then 60
    else if p.hour.Some? then 3600
    else UnitDays(UnitOf(p)) * 86_400
  }

  function Edge(p: Parts, end: bool): int {
    if end then First(p) + Lasts(p) - 1 else First(p)
  }

  predicate Meant(p: Parts, end: bool) {
    Exists(p) && 0 <= Edge(p, end) < EndOfTime()
  }

  // ---------- Points ----------

  lemma DatesExist(p: Parts, end: bool)
    requires Writable(p)
    ensures ValidDate(PartsDate(p, end)) <==> ValidUnit(UnitOf(p))
    ensures ValidUnit(UnitOf(p)) ==>
      Ordinal(PartsDate(p, end)) == UnitStart(UnitOf(p)) + if end then UnitDays(UnitOf(p)) - 1 else 0
  {
    var u := UnitOf(p);
    var m := Or(p.month, if end then 12 else 1);
    MonthLengths(p.year, m);
    if ValidUnit(u) {
      UnitEnds(u);
    }
  }

  lemma OffsetIsAhead(o: Option<Offset>)
    ensures OffsetMinutes(o) * 60 == Ahead(o)
  {}

  /** The time of day asked for, when it exists. */
  lemma TimesExist(p: Parts, end: bool)
    requires Writable(p)
    ensures ValidTime(PartsTime(p, end)) <==>
      && (p.hour.Some? ==> p.hour.value < 24)
      && (p.minute.Some? ==> p.minute.value < 60)
      && (p.second.Some? ==> p.second.value < 60)
    ensures SecondOfDay(PartsTime(p, end))
      == (if p.hour.Some? then p.hour.value * 3600 else 0)
       + (if p.minute.Some? then p.minute.value * 60 else 0)
       + (if p.second.Some? then p.second.value else 0)
       + (if !end || p.second.Some? then 0 else if p.minute.Some? then 59 else if p.hour.Some? then 3599 else 86_399)
  {}

  lemma HoursAreInDays(p: Parts)
    requires Writable(p) && p.hour.Some?
    ensures UnitDays(UnitOf(p)) == 1
  {}

  lemma ResolveIs(p: Parts, end: bool)
    requires Writable(p)
    ensures Resolve(p, end) == if Meant(p, end) then Some(Edge(p, end) * 1_000_000) else None
  {
    hide DaysBeforeYear, DaysBeforeMonth, DaysInMonth, DaysInYear, EndOfTime, UnitStart, UnitDays, UnitOf, PartsDate,
      Ordinal, ValidUnit, ValidDate, SecondOfDay, Second, PartsTime, ValidTime, Writable, Ahead, OffsetMinutes;
    DatesExist(p, end);
    TimesExist(p, end);
    OffsetIsAhead(p.offset);
    SecondSplit(PartsDate(p, end), PartsTime(p, end));
    WritableChain(p);
    if p.hour.Some? {
      HoursAreInDays(p);
    }
  }

  // ---------- Texts ----------

  lemma {:induction false} StripLeftSplits(t: string) returns (left: string)
    ensures Spaces(left) && t == left + StripLeft(t)
  {
    if t != "" && IsSpace(t[0]) {
      var rest := StripLeftSplits(t[1..]);
      left := [t[0]] + rest;
    } else {
      left := "";
    }
  }

  lemma {:induction false} StripRightSplits(t: string) returns (right: string)
    ensures Spaces(right) && t == StripRight(t) + right
    decreases |t|
  {
    if t != "" && IsSpace(t[|t| - 1]) {
      var rest := StripRightSplits(t[..|t| - 1]);
      right := rest + [t[|t| - 1]];
    } else {
      right := "";
    }
  }

  /** What stands between the whitespace of a text. */
  lemma WritesIsStrip(text: string, p: Parts)
    ensures Writes(text, p) <==> Writable(p) && Strip(text) == Render(p)
  {
    hide Render, Writable;
    if Writes(text, p) {
      var left, right :| Spaces(left) && Spaces(right) && text == left + Render(p) + right;
      RenderNoSpaces(p);
      StripPads(left, Render(p), right);
    }
    if Writable(p) && Strip(text) == Render(p) {
      var left := StripLeftSplits(text);
      var right := StripRightSplits(StripLeft(text));
      assert text == left + Render(p) + right;
    }
  }

  /** The text that stands for a value writes exactly the point that the value states. */
  lemma AsTextWrites(v: Value, p: Parts)
    ensures States(v, p) <==> AsText(v).Text? && Writes(AsText(v).text, p)
  {
    hide Writes, Render;
    match v
    case Int(n) =>
      if 1000 <= n <= 9999 {
        WritesItself(OnlyYear(n), p);
      }
    case DateObject(d) =>
      MonthLengths(d.year, d.month);
      WritesItself(DateParts(d), p);
    case _ =>
  }

  /** A text that is written out is that of one point only. */
  lemma WritesItself(q: Parts, p: Parts)
    requires Writable(q)
    ensures Writes(Render(q), p) <==> p == q
  {
    hide Render, Writable, MatchPoint, Writes;
    WritesIsStrip(Render(q), q);
    WritesIsStrip(Render(q), p);
    RenderNoSpaces(q);
    StripPads("", Render(q), "");
    assert "" + Render(q) + "" == Render(q);
    PatternIsExact(Render(q), q);
    PatternIsExact(Render(q), p);
  }

  /** A value states one point at most. */
  lemma StatesOne(v: Value, p: Parts, q: Parts)
    requires States(v, p) && States(v, q)
    ensures p == q
  {
    hide Render, Writable, MatchPoint, Writes;
    AsTextWrites(v, p);
    AsTextWrites(v, q);
    var text := AsText(v).text;
    WritesIsStrip(text, p);
    WritesIsStrip(text, q);
    PatternIsExact(Strip(text), p);
    PatternIsExact(Strip(text), q);
  }

  // ---------- Bounds ----------

  /** The instant at which the point that v states begins or ends. */
  ghost predicate Bound(v: Value, end: bool, at: Instant) {
    exists p :: States(v, p) && Meant(p, end) && at == Edge(p, end) * 1_000_000
  }

  /** Why v gives no point for this end. */
  ghost predicate Faulty(v: Value, end: bool, kind: Kind) {
    match v
    case Bool(_) => kind == GotBool
    case DateTime => kind == CoercedDateTime
    case List(_) => kind == WrongType
    case Dict(_) => kind == WrongType
    case OtherValue => kind == WrongType
    case Int(n) =>
      if n < 1000 || n > 9999 then kind == NotAYear else kind == BadDate && forall p :: States(v, p) ==> !Meant(p, end)
    case _ =>
      if exists p :: States(v, p) then kind == BadDate && forall p :: States(v, p) ==> !Meant(p, end)
      else kind == BadSyntax
  }

  /** A text resolves exactly if it writes a point that is meant, to the edge of that point. */
  lemma TextIs(text: string, end: bool)
    ensures var m := MatchPoint(Strip(text));
      && (m.Some? ==> Writes(text, m.value))
      && (forall p :: Writes(text, p) ==> m == Some(p))
      && ResolveText(text, end)
         == (if m.None? then Failed(BadSyntax)
             else if Meant(m.value, end) then Point(Edge(m.value, end) * 1_000_000, m.value.hour.Some?)
             else Failed(BadDate))
  {
    hide Render, Writable, MatchPoint, Writes, Resolve, Meant, Edge;
    var m := MatchPoint(Strip(text));
    if m.Some? {
      PatternIsExact(Strip(text), m.value);
      WritesIsStrip(text, m.value);
      ResolveIs(m.value, end);
    }
    forall p | Writes(text, p) ensures m == Some(p) {
      WritesIsStrip(text, p);
      PatternIsExact(Strip(text), p);
    }
  }

  /** A bound is the first or the last second of what it states, or one error that says what is wrong. */
  lemma PointIs(v: Value, end: bool, place: Label)
    ensures forall at :: PointOf(v, end, place) == Parsed(Some(at), []) <==> Bound(v, end, at)
    ensures forall kind :: PointOf(v, end, place) == Parsed(None, [Error(place, kind)]) <==> Faulty(v, end, kind)
    ensures PointOf(v, end, place).result.Some? ==> PointOf(v, end, place).errors == []
    ensures PointOf(v, end, place).result == None ==>
      exists kind :: PointOf(v, end, place) == Parsed(None, [Error(place, kind)])
  {
    hide Render, Writable, MatchPoint, Writes, Resolve, ResolveText, Meant, Edge;
    forall p ensures States(v, p) <==> AsText(v).Text? && Writes(AsText(v).text, p) {
      AsTextWrites(v, p);
    }
    if AsText(v).Text? {
      TextIs(AsText(v).text, end);
      var m := MatchPoint(Strip(AsText(v).text));
      assert forall p :: States(v, p) <==> m == Some(p);
      assert v.Int? ==> States(v, OnlyYear(v.n));
      if m.Some? {
        assert States(v, m.value);
      }
    }
  }

  // ---------- Spans ----------

  predicate IsRange(entries: map<string, Value>) {
    entries != map[] && forall key :: key in entries ==> key == "from" || key == "until"
  }

  /** The end of the span that this key decides: open without it, else the edge of what it states. */
  ghost predicate Ends(entries: map<string, Value>, key: string, end: bool, at: Option<Instant>) {
    if key in entries then at.Some? && Bound(entries[key], end, at.value) else at == None
  }

  /** The errors about one key: none if it is absent or states a point, else what is wrong with it. */
  ghost predicate Complaints(entries: map<string, Value>, key: string, end: bool, place: Label, errors: seq<Error>) {
    if key !in entries || exists at :: Bound(entries[key], end, at) then errors == []
    else |errors| == 1 && errors[0].place == place && Faulty(entries[key], end, errors[0].kind)
  }

  /**
   A from/until mapping is the span from the first second of what from states to the last second of what until
   states, open where a key is missing, unless the first comes after the last.
   */
  lemma RangeIs(entries: map<string, Value>, place: Label, span: Span)
    ensures RangeOf(entries, place) == Parsed(Some(span), []) <==>
      && IsRange(entries)
      && Ends(entries, "from", false, span.start) && Ends(entries, "until", true, span.end)
      && (span.start.Some? && span.end.Some? ==> span.start.value <= span.end.value)
  {
    hide PointOf, Bound;
    KeysOfRange(entries);
    if "from" in entries {
      PointIs(entries["from"], false, place + [From]);
    }
    if "until" in entries {
      PointIs(entries["until"], true, place + [Until]);
    }
  }

  lemma KeysOfRange(entries: map<string, Value>)
    ensures entries.Keys - {"from", "until"} == {} <==>
      (forall key :: key in entries ==> key == "from" || key == "until")
    ensures entries.Keys - {"from", "until"} != {} <==>
      exists key :: key in entries && key != "from" && key != "until"
    ensures IsRange(entries) <==> entries.Keys - {"from", "until"} == {} && ("from" in entries || "until" in entries)
  {
    forall key | key in entries && key != "from" && key != "until" ensures key in entries.Keys - {"from", "until"} {}
    if entries.Keys - {"from", "until"} == {} && entries != map[] {
      var key :| key in entries;
    }
  }

  /** The errors of a mapping, in order: a key it may not have, no key, each bad bound, or a start after the end. */
  lemma RangeErrors(entries: map<string, Value>, place: Label)
    ensures RangeOf(entries, place).errors == [] <==> RangeOf(entries, place).result.Some?
    ensures RangeOf(entries, place).errors == [Error(place, UnknownKeys)] <==>
      exists key :: key in entries && key != "from" && key != "until"
    ensures RangeOf(entries, place).errors == [Error(place, NoBounds)] <==> entries == map[]
    ensures RangeOf(entries, place).errors == [Error(place, Inverted)] <==>
      && IsRange(entries)
      && exists start, end :: Ends(entries, "from", false, Some(start)) && Ends(entries, "until", true, Some(end))
                              && start > end
    ensures IsRange(entries) && RangeOf(entries, place).errors != [Error(place, Inverted)] ==>
      exists first, last :: Complaints(entries, "from", false, place + [From], first)
        && Complaints(entries, "until", true, place + [Until], last) && RangeOf(entries, place).errors == first + last
  {
    hide PointOf, Bound;
    KeysOfRange(entries);
    var start := BoundOf(entries, "from", false, place + [From]);
    var end := BoundOf(entries, "until", true, place + [Until]);
    BoundIs(entries, "from", false, place + [From]);
    BoundIs(entries, "until", true, place + [Until]);
    assert |place + [From]| > |place| && |place + [Until]| > |place|;
    if start.errors != [] {
      assert (start.errors + end.errors)[0] == start.errors[0];
    }
    assert [] + end.errors == end.errors;
  }

  lemma BoundIs(entries: map<string, Value>, key: string, end: bool, place: Label)
    ensures var b := BoundOf(entries, key, end, place);
      && (b.errors == [] ==> Ends(entries, key, end, b.result))
      && (forall at :: Ends(entries, key, end, at) ==> b == Parsed(at, []))
      && Complaints(entries, key, end, place, b.errors)
      && (b.errors != [] ==> |b.errors| == 1 && b.errors[0].place == place)
  {
    hide PointOf, Bound;
    if key in entries {
      PointIs(entries[key], end, place);
    }
  }

  /** The whole of what p states, in microseconds, to its last whole second. */
  function Whole(p: Parts): Span {
    Span(Some(Edge(p, false) * 1_000_000), Some(Edge(p, true) * 1_000_000))
  }

  /** A date, a month or a year that exists begins and ends within the calendar. */
  lemma UnitsAreMeant(p: Parts)
    requires Writable(p) && p.hour == None && Exists(p)
    ensures Meant(p, false) && Meant(p, true)
  {
    hide EndOfTime, UnitStart, UnitDays;
    WritableChain(p);
    assert UnitParts(UnitOf(p)) == OnlyYear(p.year).(month := p.month, day := p.day);
    UnitLength(UnitOf(p));
  }

  /** A bare value is the whole of the date, month or year it states; a time of day is refused. */
  lemma BareIs(v: Value, place: Label)
    ensures forall span :: BareOf(v, place) == Parsed(Some(span), []) <==>
      exists p :: States(v, p) && p.hour == None && Exists(p) && span == Whole(p)
    ensures forall kind :: BareOf(v, place) == Parsed(None, [Error(place, kind)]) <==>
      Faulty(v, false, kind)
      || (kind == FinerThanDay && exists p :: States(v, p) && p.hour.Some? && Meant(p, false))
    ensures BareOf(v, place).result.Some? <==> BareOf(v, place).errors == []
  {
    hide Render, MatchPoint, Writes, Resolve, ResolveText, Edge, Writable;
    PointIs(v, false, place);
    forall p ensures States(v, p) <==> AsText(v).Text? && Writes(AsText(v).text, p) {
      AsTextWrites(v, p);
    }
    if AsText(v).Text? {
      TextIs(AsText(v).text, false);
      TextIs(AsText(v).text, true);
      var m := MatchPoint(Strip(AsText(v).text));
      assert forall p :: States(v, p) <==> m == Some(p);
      if m.Some? && m.value.hour == None && Exists(m.value) {
        assert Writable(m.value) by {
          WritesIsStrip(AsText(v).text, m.value);
        }
        UnitsAreMeant(m.value);
      }
    }
  }

  // ---------- Lists ----------

  function Flatten<T>(xss: seq<seq<T>>): seq<T> {
    if xss == [] then [] else xss[0] + Flatten(xss[1..])
  }

  lemma {:induction false} FlattenSnoc<T>(xss: seq<seq<T>>, xs: seq<T>)
    ensures Flatten(xss + [xs]) == Flatten(xss) + xs
  {
    if xss == [] {
      assert [xs][1..] == [];
    } else {
      assert (xss + [xs])[1..] == xss[1..] + [xs];
      FlattenSnoc(xss[1..], xs);
    }
  }

  /** A list is all its items, one after the other, each under its own index; an item may not be a list. */
  lemma {:induction false} ItemsAre(items: seq<Value>, place: Label, n: nat)
    returns (spans: seq<seq<Span>>, errors: seq<seq<Error>>)
    requires n <= |items|
    ensures |spans| == |errors| == n
    ensures forall i :: 0 <= i < n ==> (if items[i].List? then
                                          spans[i] == [] && errors[i] == [Error(place + [Item(i)], NestedList)]
                                        else
                                          PeriodOf(items[i], place + [Item(i)]) == Parsed(spans[i], errors[i]))
    ensures ItemsOf(items, place, n) == Parsed(Flatten(spans), Flatten(errors))
  {
    hide OneOf;
    if n == 0 {
      spans, errors := [], [];
    } else {
      spans, errors := ItemsAre(items, place, n - 1);
      var item := ItemOf(items[n - 1], place + [Item(n - 1)]);
      FlattenSnoc(spans, item.result);
      FlattenSnoc(errors, item.errors);
      spans, errors := spans + [item.result], errors + [item.errors];
    }
  }

  lemma ListIs(items: seq<Value>, place: Label) returns (spans: seq<seq<Span>>, errors: seq<seq<Error>>)
    ensures PeriodOf(List([]), place) == Parsed([], [Error(place, EmptyList)])
    ensures |spans| == |errors| == |items|
    ensures forall i :: 0 <= i < |items| ==> (if items[i].List? then
                                                spans[i] == [] && errors[i] == [Error(place + [Item(i)], NestedList)]
                                              else
                                                PeriodOf(items[i], place + [Item(i)]) == Parsed(spans[i], errors[i]))
    ensures items != [] ==> PeriodOf(List(items), place) == Parsed(Flatten(spans), Flatten(errors))
  {
    spans, errors := ItemsAre(items, place, |items|);
  }

  /** A value that is not a list gives the one span that its mapping or its bare value stands for. */
  lemma PeriodIs(v: Value, place: Label, span: Span)
    requires !v.List?
    ensures span in PeriodOf(v, place).result <==> PeriodOf(v, place) == Parsed([span], [])
    ensures v.Dict? ==> (PeriodOf(v, place) == Parsed([span], []) <==>
      && IsRange(v.entries)
      && Ends(v.entries, "from", false, span.start) && Ends(v.entries, "until", true, span.end)
      && (span.start.Some? && span.end.Some? ==> span.start.value <= span.end.value))
    ensures !v.Dict? ==> (PeriodOf(v, place) == Parsed([span], []) <==>
      exists p :: States(v, p) && p.hour == None && Exists(p) && span == Whole(p))
  {
    hide RangeOf, BareOf, Writes, States;
    if v.Dict? {
      RangeIs(v.entries, place, span);
      RangeErrors(v.entries, place);
    } else {
      BareIs(v, place);
      assert PeriodOf(v, place) == Parsed([span], []) <==> BareOf(v, place) == Parsed(Some(span), []);
    }
  }
}
