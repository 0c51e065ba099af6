/** What the period parser guarantees: round trips, containment of truncations, and a gapless calendar. */
module PeriodTheorems {
  import opened Common
  import opened Spans
  import opened Calendar
  import opened PointText
  import opened PeriodParser

  // ---------- Text to points ----------

  predicate Spaces(t: string) {
    forall i :: 0 <= i < |t| ==> IsSpace(t[i])
  }

  predicate NoSpaces(t: string) {
    forall i :: 0 <= i < |t| ==> !IsSpace(t[i])
  }

  lemma {:induction false} StripLeftPad(pad: string, t: string)
    requires Spaces(pad) && t != "" && !IsSpace(t[0])
    ensures StripLeft(pad + t) == t
  {
    if pad == "" {
      assert pad + t == t;
    } else {
      assert (pad + t)[1..] == pad[1..] + t;
      StripLeftPad(pad[1..], t);
    }
  }

  lemma {:induction false} StripRightPad(t: string, pad: string)
    requires Spaces(pad) && t != "" && !IsSpace(t[|t| - 1])
    ensures StripRight(t + pad) == t
    decreases |pad|
  {
    if pad == "" {
      assert t + pad == t;
    } else {
      var n := |pad| - 1;
      assert (t + pad)[..|t + pad| - 1] == t + pad[..n];
      StripRightPad(t, pad[..n]);
    }
  }

  lemma StripPads(left: string, t: string, right: string)
    requires Spaces(left) && Spaces(right) && t != "" && NoSpaces(t)
    ensures Strip(left + t + right) == t
  {
    assert left + t + right == left + (t + right);
    StripLeftPad(left, t + right);
    StripRightPad(t, right);
  }

  lemma TwoNoSpaces(n: nat)
    requires n < 100
    ensures NoSpaces(Two(n))
  {}

  lemma JoinNoSpaces(a: string, b: string)
    requires NoSpaces(a) && NoSpaces(b)
    ensures NoSpaces(a + b)
  {}

  lemma PieceNoSpaces(c: char, n: Option<nat>, rest: string)
    requires Short(n) && !IsSpace(c) && NoSpaces(rest)
    ensures NoSpaces(Piece(c, n) + rest)
  {
    if n.Some? {
      TwoNoSpaces(n.value);
      JoinNoSpaces([c], Two(n.value));
    }
    JoinNoSpaces(Piece(c, n), rest);
  }

  lemma OffsetNoSpaces(o: Option<Offset>)
    requires OffsetWritable(o)
    ensures NoSpaces(OffsetText(o))
  {
    if o.Some? && o.value.Shift? {
      TwoNoSpaces(o.value.hours);
      TwoNoSpaces(o.value.minutes);
    }
  }

  lemma RenderNoSpaces(p: Parts)
    requires Writable(p)
    ensures NoSpaces(Render(p)) && Render(p) != ""
  {
    OffsetNoSpaces(p.offset);
    var s := Piece(':', p.second) + OffsetText(p.offset);
    PieceNoSpaces(':', p.second, OffsetText(p.offset));
    PieceNoSpaces(':', p.minute, s);
    PieceNoSpaces('T', p.hour, Piece(':', p.minute) + s);
    PieceNoSpaces('-', p.day, Piece('T', p.hour) + (Piece(':', p.minute) + s));
    PieceNoSpaces('-', p.month, Piece('-', p.day) + (Piece('T', p.hour) + (Piece(':', p.minute) + s)));
    TwoNoSpaces(p.year / 100);
    TwoNoSpaces(p.year % 100);
    JoinNoSpaces(Two(p.year / 100), Two(p.year % 100));
    hide Piece;
    JoinNoSpaces(Four(p.year), MonthText(p));
    RenderSplit(p);
  }

  function Outcome(p: Parts, end: bool): Resolved {
    var at := Resolve(p, end);
    if at.None? then Failed(BadDate) else Point(at.value, p.hour.Some?)
  }

  /** A written point, with any whitespace around it, resolves as its components say. */
  lemma WrittenResolves(p: Parts, left: string, right: string, end: bool)
    requires Writable(p) && Spaces(left) && Spaces(right)
    ensures ResolveText(left + Render(p) + right, end) == Outcome(p, end)
  {
    hide Render, Resolve, MatchPoint;
    RenderNoSpaces(p);
    StripPads(left, Render(p), right);
    PatternIsExact(Render(p), p);
  }

  lemma WrittenPlain(p: Parts, end: bool)
    requires Writable(p)
    ensures ResolveText(Render(p), end) == Outcome(p, end)
  {
    hide Render, ResolveText, Outcome, Writable;
    WrittenResolves(p, "", "", end);
    assert "" + Render(p) + "" == Render(p);
  }

  /** Nothing else resolves: a text that gives a point is a written point with whitespace around it. */
  lemma OnlyWrittenResolves(text: string, end: bool)
    requires ResolveText(text, end).Point?
    ensures exists p: Parts :: Writable(p) && Strip(text) == Render(p) && ResolveText(text, end) == Outcome(p, end)
  {
    hide Render, Resolve, MatchPoint;
    var p := MatchPoint(Strip(text)).value;
    PatternIsExact(Strip(text), p);
  }

  function FullParts(d: Date, t: Time, o: Option<Offset>): Parts
    requires ValidDate(d) && ValidTime(t)
  {
    Parts(d.year, Some(d.month), Some(d.day), Some(t.hour), Some(t.minute), Some(t.second), o)
  }

  lemma MonthLengths(y: int, m: int)
    ensures 28 <= DaysInMonth(y, m) <= 31
  {}

  /**
   A full timestamp gives the same point as a start and as an end: the UTC second it names, or an error
   exactly if its offset is a day or more or leads out of the years 1 to 9999.
   */
  lemma TimestampResolves(d: Date, t: Time, o: Option<Offset>, end: bool)
    requires ValidDate(d) && ValidTime(t) && OffsetWritable(o)
    ensures Writable(FullParts(d, t, o))
    ensures var s := Second(d, t) - 60 * OffsetMinutes(o);
      ResolveText(Render(FullParts(d, t, o)), end) ==
        if -1440 < OffsetMinutes(o) < 1440 && 0 <= s < EndOfTime() then Point(s * 1_000_000, true) else Failed(BadDate)
  {
    hide Render, Resolve, ResolveText, Second, EndOfTime, OffsetMinutes, Writable, FullParts, ValidDate, ValidTime,
      OffsetWritable;
    FullWritable(d, t, o);
    FullResolves(d, t, o, end);
    WrittenPlain(FullParts(d, t, o), end);
  }

  lemma FullWritable(d: Date, t: Time, o: Option<Offset>)
    requires ValidDate(d) && ValidTime(t) && OffsetWritable(o)
    ensures Writable(FullParts(d, t, o)) && FullParts(d, t, o).hour.Some?
  {
    MonthLengths(d.year, d.month);
    hide DaysInMonth;
  }

  lemma FullResolves(d: Date, t: Time, o: Option<Offset>, end: bool)
    requires ValidDate(d) && ValidTime(t)
    ensures var s := Second(d, t) - 60 * OffsetMinutes(o);
      Resolve(FullParts(d, t, o), end) ==
        if -1440 < OffsetMinutes(o) < 1440 && 0 <= s < EndOfTime() then Some(s * 1_000_000) else None
  {
    var p := FullParts(d, t, o);
    assert PartsDate(p, end) == d && PartsTime(p, end) == t;
    hide Second, EndOfTime, OffsetMinutes, PartsDate, PartsTime, ValidDate, ValidTime;
  }

  /** A UTC second as text. */
  function SecondText(s: int, o: Option<Offset>): string
    requires 0 <= s < EndOfTime() && OffsetWritable(o)
  {
    DayInRange(s);
    var d, t := DateOf(s / 86_400), TimeOf(s % 86_400);
    MonthLengths(d.year, d.month);
    Render(FullParts(d, t, o))
  }

  lemma DayInRange(s: int)
    requires 0 <= s < EndOfTime()
    ensures 0 <= s / 86_400 < DaysBeforeYear(LAST_YEAR + 1)
  {}

  /** Every whole second of the years 1 to 9999 survives writing and parsing, whichever end is asked for. */
  lemma SecondRoundTrips(s: int, o: Option<Offset>, end: bool)
    requires 0 <= s < EndOfTime() && OffsetWritable(o) && OffsetMinutes(o) == 0
    ensures ResolveText(SecondText(s, o), end) == Point(s * 1_000_000, true)
  {
    hide Render, EndOfTime, ResolveText, Second, DateOf, TimeOf, OffsetMinutes, OffsetWritable, Writable, FullParts;
    DayInRange(s);
    SecondIs(s);
    TimestampResolves(DateOf(s / 86_400), TimeOf(s % 86_400), o, end);
  }

  lemma SecondIs(s: int)
    requires 0 <= s < EndOfTime()
    ensures s / 86_400 < DaysBeforeYear(LAST_YEAR + 1) && Second(DateOf(s / 86_400), TimeOf(s % 86_400)) == s
  {
    hide EndOfTime, Ordinal, SecondOfDay, DateOf, TimeOf;
    DayInRange(s);
  }

  // ---------- Dropping trailing components ----------

  predicate Kept(fine: Option<nat>, coarse: Option<nat>) {
    coarse == fine || coarse == None
  }

  /** coarse is fine with trailing components dropped; neither has an offset. */
  predicate Truncates(fine: Parts, coarse: Parts) {
    && Writable(fine) && Writable(coarse) && fine.offset == None && coarse.offset == None
    && fine.year == coarse.year && Kept(fine.month, coarse.month) && Kept(fine.day, coarse.day)
    && Kept(fine.hour, coarse.hour) && Kept(fine.minute, coarse.minute) && Kept(fine.second, coarse.second)
  }

  predicate DateBefore(d: Date, e: Date) {
    d.year < e.year || (d.year == e.year && (d.month < e.month || (d.month == e.month && d.day < e.day)))
  }

  lemma DateOrder(d: Date, e: Date)
    requires ValidDate(d) && ValidDate(e) && DateBefore(d, e)
    ensures Ordinal(d) < Ordinal(e)
  {
    hide DaysBeforeYear, DaysBeforeMonth, DaysInMonth;
    DateBounds(d);
    DateBounds(e);
    if d.year < e.year {
      YearsOrdered(d.year, e.year);
    } else if d.month < e.month {
      MonthsOrdered(d.year, d.month, e.month);
    }
  }

  lemma SecondOrder(d: Date, t: Time, e: Date, u: Time)
    requires ValidDate(d) && ValidTime(t) && ValidDate(e) && ValidTime(u)
    requires DateBefore(d, e) || (d == e && SecondOfDay(t) <= SecondOfDay(u))
    ensures Second(d, t) <= Second(e, u)
  {
    if DateBefore(d, e) {
      DateOrder(d, e);
      assert SecondOfDay(t) < 86_400 <= 86_400 + SecondOfDay(u);
      assert Ordinal(d) * 86_400 + 86_400 <= Ordinal(e) * 86_400;
      hide Ordinal, SecondOfDay;
    }
  }

  /** Without an offset, dropping trailing components gives a span that contains the finer one. */
  lemma TruncationContains(fine: Parts, coarse: Parts)
    requires Truncates(fine, coarse) && Resolve(fine, false).Some? && Resolve(fine, true).Some?
    ensures Resolve(coarse, false).Some? && Resolve(coarse, true).Some?
    ensures Resolve(coarse, false).value <= Resolve(fine, false).value <= Resolve(fine, true).value
    ensures Resolve(fine, true).value <= Resolve(coarse, true).value
  {
    hide Resolve, Second, SecondOfDay, Short, Writable;
    ResolvedParts(coarse, false);
    ResolvedParts(coarse, true);
    ResolvedParts(fine, false);
    ResolvedParts(fine, true);
    WritableChain(fine);
    WritableChain(coarse);
    CoarserStart(fine, coarse);
    CoarserEnd(fine, coarse);
    FinerOrder(fine);
    hide ValidDate, ValidTime, PartsDate, PartsTime, Truncates;
  }

  lemma WritableChain(p: Parts)
    requires Writable(p)
    ensures (p.day.Some? ==> p.month.Some?) && (p.hour.Some? ==> p.day.Some?)
    ensures (p.minute.Some? ==> p.hour.Some?) && (p.second.Some? ==> p.minute.Some?)
  {}

  predicate Valid(p: Parts, end: bool) {
    ValidDate(PartsDate(p, end)) && ValidTime(PartsTime(p, end))
  }

  function At(p: Parts, end: bool): int {
    Second(PartsDate(p, end), PartsTime(p, end))
  }

  lemma CoarserStart(fine: Parts, coarse: Parts)
    requires Truncates(fine, coarse) && Valid(fine, false)
    ensures Valid(coarse, false) && At(coarse, false) <= At(fine, false)
  {
    hide Second, DaysBeforeYear, DaysBeforeMonth, Short;
    MonthLengths(fine.year, PartsDate(coarse, false).month);
    var d, t := PartsDate(coarse, false), PartsTime(coarse, false);
    var e, u := PartsDate(fine, false), PartsTime(fine, false);
    assert DateBefore(d, e) || (d == e && SecondOfDay(t) <= SecondOfDay(u));
    SecondOrder(d, t, e, u);
  }

  lemma CoarserEnd(fine: Parts, coarse: Parts)
    requires Truncates(fine, coarse) && Valid(fine, true)
    ensures Valid(coarse, true) && At(fine, true) <= At(coarse, true)
  {
    hide Second, DaysBeforeYear, DaysBeforeMonth, Short;
    MonthLengths(fine.year, PartsDate(coarse, true).month);
    var d, t, e, u := PartsDate(fine, true), PartsTime(fine, true), PartsDate(coarse, true), PartsTime(coarse, true);
    assert DateBefore(d, e) || (d == e && SecondOfDay(t) <= SecondOfDay(u));
    SecondOrder(d, t, e, u);
  }

  lemma FinerOrder(p: Parts)
    requires Writable(p) && Valid(p, false) && Valid(p, true)
    ensures At(p, false) <= At(p, true)
  {
    hide Second, DaysBeforeYear, DaysBeforeMonth, Short;
    var d, t, e, u := PartsDate(p, false), PartsTime(p, false), PartsDate(p, true), PartsTime(p, true);
    MonthLengths(p.year, e.month);
    assert DateBefore(d, e) || (d == e && SecondOfDay(t) <= SecondOfDay(u));
    SecondOrder(d, t, e, u);
  }

  lemma ResolvedParts(p: Parts, end: bool)
    requires p.offset == None
    ensures var d, t := PartsDate(p, end), PartsTime(p, end);
      Resolve(p, end) == if ValidDate(d) && ValidTime(t) then Some(Second(d, t) * 1_000_000) else None
  {
    var d, t := PartsDate(p, end), PartsTime(p, end);
    if ValidDate(d) && ValidTime(t) {
      SecondBounds(d, t);
    }
    assert OffsetMinutes(p.offset) == 0;
    hide Second, EndOfTime, PartsDate, PartsTime, ValidDate;
  }

  /** The same for texts: the coarser text is accepted too, and its span contains that of the finer. */
  lemma TruncatedTextContains(fine: Parts, coarse: Parts)
    requires Truncates(fine, coarse)
    requires ResolveText(Render(fine), false).Point? && ResolveText(Render(fine), true).Point?
    ensures var from, until := ResolveText(Render(coarse), false), ResolveText(Render(coarse), true);
      && from.Point? && until.Point?
      && from.at <= ResolveText(Render(fine), false).at <= ResolveText(Render(fine), true).at <= until.at
  {
    hide Render, Resolve, ResolveText;
    forall p, end | (p == fine || p == coarse) && end in {false, true}
      ensures ResolveText(Render(p), end) == Outcome(p, end)
    {
      WrittenPlain(p, end);
    }
    TruncationContains(fine, coarse);
  }

  // ---------- Bare values are whole calendar units ----------

  datatype Unit = Year(year: int) | Month(year: int, month: int) | Day(date: Date)

  predicate ValidUnit(u: Unit) {
    match u
    case Year(y) => FIRST_YEAR <= y <= LAST_YEAR
    case Month(y, m) => ValidMonth(y, m)
    case Day(d) => ValidDate(d)
  }

  /** The first day of a unit, as a day number. */
  function UnitStart(u: Unit): int {
    match u
    case Year(y) => DaysBeforeYear(y)
    case Month(y, m) => DaysBeforeYear(y) + DaysBeforeMonth(y, m)
    case Day(d) => Ordinal(d)
  }

  function UnitDays(u: Unit): int {
    match u
    case Year(y) => DaysInYear(y)
    case Month(y, m) => DaysInMonth(y, m)
    case Day(_) => 1
  }

  /** From the first second of the unit to its last, both included. */
  function UnitSpan(u: Unit): Span {
    Span(Some(UnitStart(u) * 86_400 * 1_000_000), Some(((UnitStart(u) + UnitDays(u)) * 86_400 - 1) * 1_000_000))
  }

  function UnitParts(u: Unit): Parts
    requires ValidUnit(u)
  {
    match u
    case Year(y) => OnlyYear(y)
    case Month(y, m) => OnlyYear(y).(month := Some(m))
    case Day(d) => DateParts(d)
  }

  lemma UnitWritable(u: Unit)
    requires ValidUnit(u)
    ensures Writable(UnitParts(u)) && UnitParts(u).hour == None && UnitParts(u).offset == None
  {
    if u.Day? {
      MonthLengths(u.date.year, u.date.month);
    }
  }

  lemma SecondSplit(d: Date, t: Time)
    ensures Second(d, t) == Ordinal(d) * 86_400 + SecondOfDay(t)
  {
    hide Ordinal, SecondOfDay;
  }

  lemma DayEnds()
    ensures SecondOfDay(Time(0, 0, 0)) == 0 && SecondOfDay(Time(23, 59, 59)) == 86_399
  {}

  lemma LastSecond(d: Date)
    ensures Second(d, Time(0, 0, 0)) == Ordinal(d) * 86_400
    ensures Second(d, Time(23, 59, 59)) == (Ordinal(d) + 1) * 86_400 - 1
  {
    hide Ordinal, SecondOfDay, Second;
    SecondSplit(d, Time(0, 0, 0));
    SecondSplit(d, Time(23, 59, 59));
    DayEnds();
  }

  lemma UnitDates(u: Unit)
    requires ValidUnit(u)
    ensures var p := UnitParts(u);
      && ValidDate(PartsDate(p, false)) && PartsTime(p, false) == Time(0, 0, 0)
      && ValidDate(PartsDate(p, true)) && PartsTime(p, true) == Time(23, 59, 59)
  {
    var p := UnitParts(u);
    MonthLengths(p.year, PartsDate(p, false).month);
    MonthLengths(p.year, PartsDate(p, true).month);
    hide DaysInMonth;
  }

  lemma UnitResolves(u: Unit)
    requires ValidUnit(u)
    ensures var p, s := UnitParts(u), UnitSpan(u);
      Resolve(p, false) == s.start && Resolve(p, true) == s.end
  {
    hide Resolve, Second, Ordinal, DaysInMonth, UnitStart, UnitDays, Writable, PartsDate, PartsTime, ValidDate;
    var p := UnitParts(u);
    UnitWritable(u);
    ResolvedParts(p, false);
    ResolvedParts(p, true);
    UnitDates(u);
    LastSecond(PartsDate(p, false));
    LastSecond(PartsDate(p, true));
    UnitEnds(u);
  }

  /** A unit's first and last day. */
  lemma UnitEnds(u: Unit)
    requires ValidUnit(u)
    ensures var d, e := PartsDate(UnitParts(u), false), PartsDate(UnitParts(u), true);
      Ordinal(d) == UnitStart(u) && Ordinal(e) + 1 == UnitStart(u) + UnitDays(u)
  {
    match u
    case Year(y) =>
      MonthsStart(y, 12);
      MonthsTile(y);
    case Month(y, m) => MonthsStart(y, m);
    case Day(d) =>
  }

  lemma UnitBounded(u: Unit)
    ensures UnitSpan(u).start.Some? && UnitSpan(u).end.Some?
  {
    hide UnitStart, UnitDays;
  }

  /** A year, month or day, written out, is accepted and stands for exactly its own seconds. */
  lemma UnitsAreAccepted(u: Unit, left: string, right: string, place: Label)
    requires ValidUnit(u) && Spaces(left) && Spaces(right)
    ensures Writable(UnitParts(u))
    ensures BareOf(Str(left + Render(UnitParts(u)) + right), place) == Parsed(Some(UnitSpan(u)), [])
  {
    hide Render, Resolve, ResolveText, UnitSpan, Writable, UnitParts;
    UnitBounded(u);
    UnitWritable(u);
    UnitResolves(u);
    WrittenResolves(UnitParts(u), left, right, false);
    WrittenResolves(UnitParts(u), left, right, true);
  }

  /** Integer years and date objects mean what their text means. */
  lemma CoercionsAreUnits(y: int, d: PyDate, place: Label)
    ensures 1000 <= y <= 9999 ==> BareOf(Int(y), place) == Parsed(Some(UnitSpan(Year(y))), [])
    ensures BareOf(DateObject(d), place) == Parsed(Some(UnitSpan(Day(d))), [])
  {
    hide Render, Resolve, ResolveText, UnitSpan, MatchPoint;
    if 1000 <= y <= 9999 {
      UnitsAreAccepted(Year(y), "", "", place);
      assert "" + Render(OnlyYear(y)) + "" == Render(OnlyYear(y));
    }
    UnitsAreAccepted(Day(d), "", "", place);
    assert "" + DateText(d) + "" == DateText(d);
  }

  /** The unit that parts without an hour denote. */
  function UnitOf(p: Parts): Unit {
    if p.month.None? then Year(p.year)
    else if p.day.None? then Month(p.year, p.month.value)
    else Day(Date(p.year, p.month.value, p.day.value))
  }

  lemma ResolvedUnit(p: Parts)
    requires Writable(p) && p.hour == None && Resolve(p, false).Some?
    ensures ValidUnit(UnitOf(p)) && UnitParts(UnitOf(p)) == p
  {
    hide Resolve, Second;
    ResolvedParts(p, false);
  }

  /** Nothing but a calendar unit is accepted as a bare value. */
  lemma BareValuesAreUnits(v: Value, place: Label)
    requires BareOf(v, place).result.Some?
    ensures exists u: Unit :: ValidUnit(u) && BareOf(v, place) == Parsed(Some(UnitSpan(u)), [])
  {
    hide Render, Resolve, MatchPoint, UnitSpan, Writable;
    var text := AsText(v).text;
    var p := MatchPoint(Strip(text)).value;
    PatternIsExact(Strip(text), p);
    ResolvedUnit(p);
    UnitResolves(UnitOf(p));
  }

  /** The span of a unit is not inverted and is exactly as long as the unit, to its last whole second. */
  lemma UnitLength(u: Unit)
    requires ValidUnit(u)
    ensures var s := UnitSpan(u);
      && s.end.value - s.start.value == (UnitDays(u) * 86_400 - 1) * 1_000_000
      && 0 <= s.start.value <= s.end.value < EndOfTime() * 1_000_000
  {
    UnitWithin(u);
    hide UnitStart, UnitDays;
  }

  lemma UnitWithin(u: Unit)
    requires ValidUnit(u)
    ensures UnitDays(u) >= 1 && 0 <= UnitStart(u)
    ensures UnitStart(u) + UnitDays(u) <= DaysBeforeYear(LAST_YEAR + 1)
  {
    UnitEnds(u);
    var d, e := PartsDate(UnitParts(u), false), PartsDate(UnitParts(u), true);
    MonthLengths(d.year, d.month);
    MonthLengths(e.year, e.month);
    DateBounds(d);
    DateBounds(e);
    hide Ordinal, DaysBeforeYear, DaysBeforeMonth, UnitStart;
    assert Ordinal(e) * 86_400 + 86_400 <= DaysBeforeYear(LAST_YEAR + 1) * 86_400;
  }

  // ---------- The calendar has no gaps but the last instants of seconds ----------

  predicate Alike(u: Unit, v: Unit) {
    (u.Year? <==> v.Year?) && (u.Month? <==> v.Month?)
  }

  /** The unit of the same kind as model that a day belongs to. */
  function UnitAt(n: int, model: Unit): Unit
    requires 0 <= n < DaysBeforeYear(LAST_YEAR + 1)
  {
    var d := DateOf(n);
    match model
    case Year(_) => Year(d.year)
    case Month(_, _) => Month(d.year, d.month)
    case Day(_) => Day(d)
  }

  lemma UnitAtHolds(n: int, model: Unit)
    requires 0 <= n < DaysBeforeYear(LAST_YEAR + 1)
    ensures var u := UnitAt(n, model);
      Alike(u, model) && ValidUnit(u) && UnitStart(u) <= n < UnitStart(u) + UnitDays(u)
  {
    var d := DateOf(n);
    DateBounds(d);
    MonthsStart(d.year, d.month);
    YearsTile(d.year);
    hide DaysBeforeYear, DaysBeforeMonth, Ordinal, DaysInMonth;
  }

  /** Two units of a kind that share a day are the same. */
  lemma UnitsAreDisjoint(u: Unit, v: Unit, n: int)
    requires ValidUnit(u) && ValidUnit(v) && Alike(u, v)
    requires UnitStart(u) <= n < UnitStart(u) + UnitDays(u)
    requires UnitStart(v) <= n < UnitStart(v) + UnitDays(v)
    ensures u == v
  {
    hide DaysBeforeYear, DaysInMonth, DaysBeforeMonth, Ordinal, DaysInYear;
    UnitYear(u);
    UnitYear(v);
    if YearOf(u) < YearOf(v) {
      YearsOrdered(YearOf(u), YearOf(v));
    } else if YearOf(v) < YearOf(u) {
      YearsOrdered(YearOf(v), YearOf(u));
    } else if u.Month? {
      MonthsStart(u.year, u.month);
      MonthsStart(v.year, v.month);
      if u.month < v.month {
        MonthsOrdered(u.year, u.month, v.month);
      } else if v.month < u.month {
        MonthsOrdered(u.year, v.month, u.month);
      }
    } else if u.Day? {
      DatesDiffer(u.date, v.date);
    }
  }

  function YearOf(u: Unit): int {
    if u.Day? then u.date.year else u.year
  }

  lemma UnitYear(u: Unit)
    requires ValidUnit(u)
    ensures DaysBeforeYear(YearOf(u)) <= UnitStart(u)
    ensures UnitStart(u) + UnitDays(u) <= DaysBeforeYear(YearOf(u) + 1)
  {
    var y := YearOf(u);
    YearsTile(y);
    if u.Month? {
      MonthsStart(y, u.month);
      MonthsTile(y);
      hide DaysBeforeYear, DaysBeforeMonth, DaysInMonth;
      MonthsOrdered(y, 1, u.month);
      MonthsOrdered(y, u.month + 1, 13);
    } else if u.Day? {
      DateBounds(u.date);
    }
  }

  /** Whether an instant comes after the last whole second of the unit it is in. */
  predicate AfterLastSecond(u: Unit, now: Instant) {
    now > ((UnitStart(u) + UnitDays(u)) * 86_400 - 1) * 1_000_000
  }

  lemma ContainsDay(u: Unit, now: Instant)
    requires 0 <= now < EndOfTime() * 1_000_000
    ensures var n := now / (86_400 * 1_000_000);
      && 0 <= n < DaysBeforeYear(LAST_YEAR + 1)
      && (UnitSpan(u).Contains(now) <==> UnitStart(u) <= n < UnitStart(u) + UnitDays(u) && !AfterLastSecond(u, now))
  {
    hide UnitStart, UnitDays, DaysBeforeYear;
  }

  /**
   Of the years, of the months and of the days, exactly one contains a given instant,
   unless the instant falls into the fraction after the last second of its unit: then none does.
   */
  lemma UnitsTile(now: Instant, model: Unit)
    requires 0 <= now < EndOfTime() * 1_000_000
    ensures now / (86_400 * 1_000_000) < DaysBeforeYear(LAST_YEAR + 1)
    ensures var here := UnitAt(now / (86_400 * 1_000_000), model);
      && ValidUnit(here) && Alike(here, model)
      && (UnitSpan(here).Contains(now) <==> !AfterLastSecond(here, now))
      && forall u :: ValidUnit(u) && Alike(u, model) && UnitSpan(u).Contains(now) ==> u == here
  {
    hide UnitSpan, UnitStart, UnitDays, AfterLastSecond, UnitAt, ValidUnit;
    ContainsDay(model, now);
    var n := now / (86_400 * 1_000_000);
    var here := UnitAt(n, model);
    UnitAtHolds(n, model);
    ContainsDay(here, now);
    forall u | ValidUnit(u) && Alike(u, model) && UnitSpan(u).Contains(now) ensures u == here {
      ContainsDay(u, now);
      UnitsAreDisjoint(u, here, n);
    }
  }

  /** Half a second before the first midnight: in no day at all. */
  lemma GapExample(u: Unit)
    requires ValidUnit(u) && u.Day?
    ensures !UnitSpan(u).Contains(86_399_500_000)
  {
    hide UnitSpan, UnitStart, UnitDays, UnitAt, ValidUnit;
    if UnitSpan(u).Contains(86_399_500_000) {
      UnitsTile(86_399_500_000, u);
      DayLasts(u);
      ContainsDay(u, 86_399_500_000);
    }
  }

  lemma DayLasts(u: Unit)
    ensures u.Day? ==> UnitDays(u) == 1
  {}

  /** Whole seconds are never in the gap. */
  lemma SecondsAreCovered(s: int, model: Unit)
    requires 0 <= s < EndOfTime()
    ensures exists u :: ValidUnit(u) && Alike(u, model) && UnitSpan(u).Contains(s * 1_000_000)
  {
    hide UnitSpan, UnitStart, UnitDays, ValidUnit;
    UnitsTile(s * 1_000_000, model);
    var n := s * 1_000_000 / (86_400 * 1_000_000);
    var here := UnitAt(n, model);
    UnitAtHolds(n, model);
    assert (n + 1) * 86_400 * 1_000_000 > s * 1_000_000;
    assert (n + 1) * 86_400 <= (UnitStart(here) + UnitDays(here)) * 86_400;
    assert UnitSpan(here).Contains(s * 1_000_000);
  }

  // ---------- Whole period values ----------

  predicate Upright(spans: seq<Span>) {
    forall i :: 0 <= i < |spans| ==> !spans[i].Inverted()
  }

  /** A value that is not a list gives one span and no error, or no span and at least one error. */
  lemma OneSpanOrErrors(v: Value, place: Label)
    ensures var r := OneOf(v, place);
      (|r.result| == 1 && r.errors == []) || (r.result == [] && r.errors != [])
    ensures Upright(OneOf(v, place).result)
  {
    hide AsText, ResolveText, UnitSpan;
    if !v.Dict? && BareOf(v, place).result.Some? {
      BareValuesAreUnits(v, place);
      var u: Unit :| ValidUnit(u) && BareOf(v, place) == Parsed(Some(UnitSpan(u)), []);
      UnitUpright(u);
    }
  }

  lemma UnitUpright(u: Unit)
    requires ValidUnit(u)
    ensures !UnitSpan(u).Inverted()
  {
    UnitLength(u);
  }

  lemma NothingUpright()
    ensures Upright([])
  {}

  lemma UprightConcat(a: seq<Span>, b: seq<Span>)
    requires Upright(a) && Upright(b)
    ensures Upright(a + b)
  {}

  lemma ItemUpright(v: Value, place: Label)
    ensures var r := ItemOf(v, place);
      Upright(r.result) && ((|r.result| == 1 && r.errors == []) || (r.result == [] && r.errors != []))
  {
    OneSpanOrErrors(v, place);
    hide OneOf;
  }

  lemma {:induction false} ItemsUpright(items: seq<Value>, place: Label, n: nat)
    requires n <= |items|
    ensures var r := ItemsOf(items, place, n);
      Upright(r.result) && |r.result| <= n && (|r.result| == n <==> r.errors == [])
  {
    hide OneOf, ItemsOf, Upright, ItemOf;
    ItemsStart(items, place);
    if n == 0 {
      NothingUpright();
    } else {
      ItemsUpright(items, place, n - 1);
      ItemUpright(items[n - 1], place + [Item(n - 1)]);
      ItemsStep(items, place, n - 1);
      UprightConcat(ItemsOf(items, place, n - 1).result, ItemOf(items[n - 1], place + [Item(n - 1)]).result);
    }
  }

  /** No period value ever yields an inverted span. */
  lemma NeverInverted(v: Value, place: Label)
    ensures Upright(PeriodOf(v, place).result)
  {
    hide OneOf, ItemsOf;
    OneSpanOrErrors(v, place);
    if v.List? {
      ItemsUpright(v.items, place, |v.items|);
    }
  }

  /** A value is free of errors exactly if every one of its items gave a span. */
  lemma ErrorFreeMeansComplete(v: Value, place: Label)
    ensures var r := PeriodOf(v, place);
      r.errors == [] <==> r.result != [] && |r.result| == (if v.List? then |v.items| else 1)
  {
    hide OneOf, ItemsOf;
    OneSpanOrErrors(v, place);
    if v.List? {
      ItemsUpright(v.items, place, |v.items|);
    }
  }

  ghost predicate SomeItemActive(items: seq<Value>, place: Label, n: nat, now: Instant)
    requires n <= |items|
  {
    exists i :: 0 <= i < n && SpansActive(ItemOf(items[i], place + [Item(i)]).result, now)
  }

  lemma ActiveConcat(a: seq<Span>, b: seq<Span>, now: Instant)
    ensures SpansActive(a + b, now) <==> SpansActive(a, now) || SpansActive(b, now)
  {
    if SpansActive(a, now) {
      var i :| 0 <= i < |a| && a[i].Contains(now);
      assert (a + b)[i].Contains(now);
    }
    if SpansActive(b, now) {
      var i :| 0 <= i < |b| && b[i].Contains(now);
      assert (a + b)[|a| + i].Contains(now);
    }
  }

  lemma SomeStep(items: seq<Value>, place: Label, n: nat, now: Instant)
    requires n < |items|
    ensures SomeItemActive(items, place, n + 1, now)
      <==> SomeItemActive(items, place, n, now) || SpansActive(ItemOf(items[n], place + [Item(n)]).result, now)
  {
    hide ItemOf, SpansActive;
  }

  lemma NoItemsActive(items: seq<Value>, place: Label, now: Instant)
    ensures !SpansActive(ItemsOf(items, place, 0).result, now) && !SomeItemActive(items, place, 0, now)
  {
    hide ItemOf;
    ItemsStart(items, place);
  }

  lemma {:induction false} ItemsActive(items: seq<Value>, place: Label, n: nat, now: Instant)
    requires n <= |items|
    ensures SpansActive(ItemsOf(items, place, n).result, now) <==> SomeItemActive(items, place, n, now)
  {
    hide ItemOf, SpansActive, ItemsOf, SomeItemActive;
    if n == 0 {
      NoItemsActive(items, place, now);
    } else {
      ItemsActive(items, place, n - 1, now);
      ItemsStep(items, place, n - 1);
      SomeStep(items, place, n - 1, now);
      ActiveConcat(ItemsOf(items, place, n - 1).result, ItemOf(items[n - 1], place + [Item(n - 1)]).result, now);
    }
  }

  /** A list is active exactly when one of its items is. */
  lemma ListIsUnion(items: seq<Value>, place: Label, now: Instant)
    ensures SpansActive(PeriodOf(List(items), place).result, now) <==> SomeItemActive(items, place, |items|, now)
  {
    ItemsActive(items, place, |items|, now);
  }

  // ---------- Periods that are over ----------

  /** Spans are reported as all past exactly when there are some and none will ever be active again. */
  lemma AllPastMeansNeverAgain(spans: seq<Span>, now: Instant)
    requires Upright(spans)
    ensures SpansAllPast(spans, now) <==> spans != [] && NeverAgain(spans, now)
  {
    if SpansAllPast(spans, now) {
      forall later: Instant | now <= later ensures !SpansActive(spans, later) {
        forall i | 0 <= i < |spans| ensures !spans[i].Contains(later) {
          assert spans[i].IsPast(now);
        }
      }
    } else if spans != [] {
      var i :| 0 <= i < |spans| && !spans[i].IsPast(now);
      var later := if spans[i].start.Some? then Max(now, spans[i].start.value) else now;
      assert spans[i].Contains(later);
      assert SpansActive(spans, later);
    }
  }

  ghost predicate NeverAgain(spans: seq<Span>, now: Instant) {
    forall later: Instant :: now <= later ==> !SpansActive(spans, later)
  }
}
