/** Periods and deadlines in truncated ISO 8601 (src/period_parser.py:88-284). */
module PeriodParser {
  import opened Common
  import opened Spans
  import opened Calendar
  import opened PointText

  type PyDate = d: Date | ValidDate(d) witness Date(1, 1, 1)

  /** A period value as YAML hands it over. */
  datatype Value =
    | Bool(b: bool)
    | Int(n: int)
    | DateTime
    | DateObject(date: PyDate)
    | Str(text: string)
    | List(items: seq<Value>)
    | Dict(entries: map<string, Value>)
    | OtherValue

  datatype LabelPart = Named(name: string) | Item(index: nat) | From | Until

  type Label = seq<LabelPart>

  datatype Kind =
    | BadSyntax | BadDate | GotBool | NotAYear | CoercedDateTime | WrongType | FinerThanDay
    | UnknownKeys | NoBounds | Inverted | EmptyList | NestedList

  datatype Error = Error(place: Label, kind: Kind)

  // ---------- Resolving a string ----------

  /** The whitespace str.strip removes, as far as it is ASCII. */
  predicate IsSpace(c: char) {
    c == ' ' || 9 <= c as int <= 13 || 28 <= c as int <= 31
  }

  function StripLeft(t: string): string {
    if t != "" && IsSpace(t[0]) then StripLeft(t[1..]) else t
  }

  function StripRight(t: string): string {
    if t != "" && IsSpace(t[|t| - 1]) then StripRight(t[..|t| - 1]) else t
  }

  function Strip(t: string): string {
    StripRight(StripLeft(t))
  }

  /** The minutes an offset lies ahead of UTC. */
  function OffsetMinutes(o: Option<Offset>): int {
    match o
    case None => 0
    case Some(Zulu) => 0
    case Some(Shift(plus, hours, minutes)) => (if plus then 1 else -1) * (60 * hours + minutes)
  }

  function Or(n: Option<nat>, otherwise: int): int {
    if n.Some? then n.value else otherwise
  }

  function PartsDate(p: Parts, end: bool): Date {
    var month := Or(p.month, if end then 12 else 1);
    Date(p.year, month, Or(p.day, if end then DaysInMonth(p.year, month) else 1))
  }

  function PartsTime(p: Parts, end: bool): Time {
    Time(Or(p.hour, if end then 23 else 0), Or(p.minute, if end then 59 else 0), Or(p.second, if end then 59 else 0))
  }

  /** The UTC boundary, or None for a field or offset out of range or a result outside the calendar. */
  function Resolve(p: Parts, end: bool): Option<Instant> {
    var minutes := OffsetMinutes(p.offset);
    var d, t := PartsDate(p, end), PartsTime(p, end);
    if minutes <= -1440 || minutes >= 1440 || !ValidDate(d) || !ValidTime(t) then None
    else
      var s := Second(d, t) - minutes * 60;
      if 0 <= s < EndOfTime() then Some(s * 1_000_000) else None
  }

  datatype Resolved = Point(at: Instant, hasTime: bool) | Failed(kind: Kind)

  function ResolveText(text: string, end: bool): Resolved {
    var m := MatchPoint(Strip(text));
    if m.None? then Failed(BadSyntax)
    else
      var at := Resolve(m.value, end);
      if at.None? then Failed(BadDate) else Point(at.value, m.value.hour.Some?)
  }

  function DateText(d: PyDate): string {
    Render(DateParts(d))
  }

  function DateParts(d: PyDate): Parts {
    Parts(d.year, Some(d.month), Some(d.day), None, None, None, None)
  }

  datatype Textual = Text(text: string) | Unusable(kind: Kind)

  /** The text that stands for a value, with YAML's coercions undone where they are unambiguous. */
  function AsText(v: Value): Textual {
    match v
    case Bool(_) => Unusable(GotBool)
    case Int(n) => if 1000 <= n <= 9999 then Text(Render(OnlyYear(n))) else Unusable(NotAYear)
    case DateTime => Unusable(CoercedDateTime)
    case DateObject(d) => Text(DateText(d))
    case Str(text) => Text(text)
    case _ => Unusable(WrongType)
  }

  // ---------- Points, spans and periods as functions ----------

  /** What a call yields and what it appends to the error list. */
  datatype Parsed<+T> = Parsed(result: T, errors: seq<Error>)

  function PointOf(v: Value, end: bool, place: Label): Parsed<Option<Instant>> {
    var t := AsText(v);
    if t.Unusable? then Parsed(None, [Error(place, t.kind)])
    else
      var r := ResolveText(t.text, end);
      if r.Failed? then Parsed(None, [Error(place, r.kind)]) else Parsed(Some(r.at), [])
  }

  function BareOf(v: Value, place: Label): Parsed<Option<Span>> {
    var t := AsText(v);
    if t.Unusable? then Parsed(None, [Error(place, t.kind)])
    else
      var start := ResolveText(t.text, false);
      if start.Failed? then Parsed(None, [Error(place, start.kind)])
      else if start.hasTime then Parsed(None, [Error(place, FinerThanDay)])
      else
        var end := ResolveText(t.text, true);
        if end.Failed? then Parsed(None, [Error(place, end.kind)])
        else Parsed(Some(Span(Some(start.at), Some(end.at))), [])
  }

  function BoundOf(entries: map<string, Value>, key: string, end: bool, place: Label): Parsed<Option<Instant>> {
    if key in entries then PointOf(entries[key], end, place) else Parsed(None, [])
  }

  function RangeOf(entries: map<string, Value>, place: Label): Parsed<Option<Span>> {
    if entries.Keys - {"from", "until"} != {} then Parsed(None, [Error(place, UnknownKeys)])
    else if "from" !in entries && "until" !in entries then Parsed(None, [Error(place, NoBounds)])
    else
      var start := BoundOf(entries, "from", false, place + [From]);
      var end := BoundOf(entries, "until", true, place + [Until]);
      var errors := start.errors + end.errors;
      if errors != [] then Parsed(None, errors)
      else
        var span := Span(start.result, end.result);
        if span.Inverted() then Parsed(None, [Error(place, Inverted)]) else Parsed(Some(span), [])
  }

  function OneOf(v: Value, place: Label): Parsed<seq<Span>> {
    var one := if v.Dict? then RangeOf(v.entries, place) else BareOf(v, place);
    Parsed(if one.result.Some? then [one.result.value] else [], one.errors)
  }

  function ItemOf(v: Value, place: Label): Parsed<seq<Span>> {
    if v.List? then Parsed([], [Error(place, NestedList)]) else OneOf(v, place)
  }

  /** The first n items of a list, their spans and errors in item order. */
  function ItemsOf(items: seq<Value>, place: Label, n: nat): Parsed<seq<Span>>
    requires n <= |items|
  {
    if n == 0 then Parsed([], [])
    else
      var before := ItemsOf(items, place, n - 1);
      var item := ItemOf(items[n - 1], place + [Item(n - 1)]);
      Parsed(before.result + item.result, before.errors + item.errors)
  }

  function PeriodOf(v: Value, place: Label): Parsed<seq<Span>> {
    if !v.List? then OneOf(v, place)
    else if v.items == [] then Parsed([], [Error(place, EmptyList)])
    else ItemsOf(v.items, place, |v.items|)
  }

  lemma ItemsStart(items: seq<Value>, place: Label)
    ensures ItemsOf(items, place, 0) == Parsed([], [])
  {}

  lemma ItemsStep(items: seq<Value>, place: Label, n: nat)
    requires n < |items|
    ensures var before, item := ItemsOf(items, place, n), ItemOf(items[n], place + [Item(n)]);
      ItemsOf(items, place, n + 1) == Parsed(before.result + item.result, before.errors + item.errors)
  {}

  // ---------- The parser, appending to a shared error list ----------

  class ErrorList {
    var errors: seq<Error>

    constructor ()
      ensures errors == []
    {
      errors := [];
    }

    method Append(place: Label, kind: Kind)
      modifies this
      ensures errors == old(errors) + [Error(place, kind)]
    {
      errors := errors + [Error(place, kind)];
    }
  }

  method ResolveStringPoint(text: string, end: bool, errors: ErrorList, place: Label)
      returns (point: Option<Instant>, hasTime: bool)
    modifies errors
    ensures var r := ResolveText(text, end);
      if r.Failed? then
        point == None && !hasTime && errors.errors == old(errors.errors) + [Error(place, r.kind)]
      else
        point == Some(r.at) && hasTime == r.hasTime && errors.errors == old(errors.errors)
  {
    var m := MatchPoint(Strip(text));
    if m.None? {
      errors.Append(place, BadSyntax);
      return None, false;
    }
    point := Resolve(m.value, end);
    if point.None? {
      errors.Append(place, BadDate);
      return None, false;
    }
    hasTime := m.value.hour.Some?;
  }

  method ParsePoint(v: Value, end: bool, errors: ErrorList, place: Label) returns (point: Option<Instant>)
    modifies errors
    ensures point == PointOf(v, end, place).result
    ensures errors.errors == old(errors.errors) + PointOf(v, end, place).errors
  {
    var t := AsText(v);
    if t.Unusable? {
      errors.Append(place, t.kind);
      return None;
    }
    var hasTime;
    point, hasTime := ResolveStringPoint(t.text, end, errors, place);
  }

  method ParseBareSpan(v: Value, errors: ErrorList, place: Label) returns (span: Option<Span>)
    modifies errors
    ensures span == BareOf(v, place).result
    ensures errors.errors == old(errors.errors) + BareOf(v, place).errors
  {
    var t := AsText(v);
    if t.Unusable? {
      errors.Append(place, t.kind);
      return None;
    }
    var startErrors := new ErrorList();
    var start, hasTime := ResolveStringPoint(t.text, false, startErrors, place);
    if startErrors.errors != [] {
      errors.errors := errors.errors + startErrors.errors;
      return None;
    }
    if hasTime {
      errors.Append(place, FinerThanDay);
      return None;
    }
    var end, _ := ResolveStringPoint(t.text, true, errors, place);
    if end.None? {
      return None;
    }
    return Some(Span(start, end));
  }

  method ParseRange(entries: map<string, Value>, errors: ErrorList, place: Label) returns (span: Option<Span>)
    modifies errors
    ensures span == RangeOf(entries, place).result
    ensures errors.errors == old(errors.errors) + RangeOf(entries, place).errors
  {
    hide PointOf;
    var unknown := entries.Keys - {"from", "until"};
    if unknown != {} {
      errors.Append(place, UnknownKeys);
      return None;
    }
    if "from" !in entries && "until" !in entries {
      errors.Append(place, NoBounds);
      return None;
    }
    var start, end := None, None;
    var before := |errors.errors|;
    if "from" in entries {
      start := ParsePoint(entries["from"], false, errors, place + [From]);
    }
    if "until" in entries {
      end := ParsePoint(entries["until"], true, errors, place + [Until]);
    }
    if |errors.errors| > before {
      return None;
    }
    if start.Some? && end.Some? && start.value > end.value {
      errors.Append(place, Inverted);
      return None;
    }
    return Some(Span(start, end));
  }

  method ParsePeriod(v: Value, errors: ErrorList, place: Label) returns (spans: seq<Span>)
    modifies errors
    ensures spans == PeriodOf(v, place).result
    ensures errors.errors == old(errors.errors) + PeriodOf(v, place).errors
    decreases v
  {
    hide RangeOf, BareOf, ItemsOf;
    if v.List? {
      ItemsStart(v.items, place);
      if v.items == [] {
        errors.Append(place, EmptyList);
        return [];
      }
      spans := [];
      for i := 0 to |v.items|
        invariant spans == ItemsOf(v.items, place, i).result
        invariant errors.errors == old(errors.errors) + ItemsOf(v.items, place, i).errors
      {
        ItemsStep(v.items, place, i);
        if v.items[i].List? {
          errors.Append(place + [Item(i)], NestedList);
        } else {
          var more := ParsePeriod(v.items[i], errors, place + [Item(i)]);
          spans := spans + more;
        }
      }
      return;
    }
    var span: Option<Span>;
    if v.Dict? {
      span := ParseRange(v.entries, errors, place);
    } else {
      span := ParseBareSpan(v, errors, place);
    }
    spans := if span.Some? then [span.value] else [];
  }
}
