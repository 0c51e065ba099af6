/**
 The text of a truncated ISO 8601 point, YYYY[-MM[-DD[Thh[:mm[:ss]][offset]]]], after section 4.1.2.3
 of ISO 8601:2004 for reduced accuracy, and the pattern that takes it apart
 (src/period_parser.py:36-47, :79-85). Digits are the ASCII ones.
 */
module PointText {
  import opened Common

  datatype Offset = Zulu | Shift(plus: bool, hours: nat, minutes: nat)

  /** The named groups of the pattern; a group that took no part in the match is None. */
  datatype Parts = Parts(year: nat, month: Option<nat>, day: Option<nat>, hour: Option<nat>,
                         minute: Option<nat>, second: Option<nat>, offset: Option<Offset>)

  // ---------- Digits ----------

  predicate IsDigit(c: char) {
    '0' <= c <= '9'
  }

  function DigitValue(c: char): nat
    requires IsDigit(c)
  {
    c as int - '0' as int
  }

  function Digit(n: nat): (c: char)
    requires n < 10
    ensures IsDigit(c) && DigitValue(c) == n
  {
    ('0' as int + n) as char
  }

  lemma DigitBack(c: char)
    requires IsDigit(c)
    ensures DigitValue(c) < 10 && Digit(DigitValue(c)) == c
  {}

  function Two(n: nat): string
    requires n < 100
  {
    [Digit(n / 10), Digit(n % 10)]
  }

  function Four(n: nat): string
    requires n < 10000
  {
    Two(n / 100) + Two(n % 100)
  }

  predicate TwoDigits(t: string, i: nat) {
    i + 2 <= |t| && IsDigit(t[i]) && IsDigit(t[i + 1])
  }

  function TwoValue(t: string, i: nat): (n: nat)
    requires TwoDigits(t, i)
    ensures n < 100 && t[i..i + 2] == Two(n)
  {
    DigitBack(t[i]);
    DigitBack(t[i + 1]);
    DigitValue(t[i]) * 10 + DigitValue(t[i + 1])
  }

  lemma TwoRead(n: nat, t: string, i: nat)
    requires n < 100 && i + 2 <= |t| && t[i..i + 2] == Two(n)
    ensures TwoDigits(t, i) && TwoValue(t, i) == n
  {
    assert t[i] == t[i..i + 2][0] && t[i + 1] == t[i..i + 2][1];
  }

  // ---------- The pattern ----------

  function MatchOffset(p: Parts, t: string): Option<Parts> {
    if t == "" then Some(p)
    else if t == "Z" then Some(p.(offset := Some(Zulu)))
    else if |t| == 6 && (t[0] == '+' || t[0] == '-') && TwoDigits(t, 1) && t[3] == ':' && TwoDigits(t, 4) then
      Some(p.(offset := Some(Shift(t[0] == '+', TwoValue(t, 1), TwoValue(t, 4)))))
    else None
  }

  function MatchSecond(p: Parts, t: string): Option<Parts> {
    if |t| >= 3 && t[0] == ':' && TwoDigits(t, 1) then MatchOffset(p.(second := Some(TwoValue(t, 1))), t[3..])
    else MatchOffset(p, t)
  }

  function MatchMinute(p: Parts, t: string): Option<Parts> {
    if |t| >= 3 && t[0] == ':' && TwoDigits(t, 1) then MatchSecond(p.(minute := Some(TwoValue(t, 1))), t[3..])
    else MatchOffset(p, t)
  }

  function MatchHour(p: Parts, t: string): Option<Parts> {
    if t == "" then Some(p)
    else if |t| >= 3 && t[0] == 'T' && TwoDigits(t, 1) then MatchMinute(p.(hour := Some(TwoValue(t, 1))), t[3..])
    else None
  }

  function MatchDay(p: Parts, t: string): Option<Parts> {
    if t == "" then Some(p)
    else if |t| >= 3 && t[0] == '-' && TwoDigits(t, 1) then MatchHour(p.(day := Some(TwoValue(t, 1))), t[3..])
    else None
  }

  function MatchMonth(p: Parts, t: string): Option<Parts> {
    if t == "" then Some(p)
    else if |t| >= 3 && t[0] == '-' && TwoDigits(t, 1) then MatchDay(p.(month := Some(TwoValue(t, 1))), t[3..])
    else None
  }

  function OnlyYear(y: nat): Parts {
    Parts(y, None, None, None, None, None, None)
  }

  /** The pattern applied to a whole text. */
  function MatchPoint(t: string): Option<Parts> {
    if |t| >= 4 && TwoDigits(t, 0) && TwoDigits(t, 2) then
      MatchMonth(OnlyYear(TwoValue(t, 0) * 100 + TwoValue(t, 2)), t[4..])
    else None
  }

  // ---------- Rendering ----------

  predicate Short(n: Option<nat>) {
    n.Some? ==> n.value < 100
  }

  predicate OffsetWritable(o: Option<Offset>) {
    o.Some? && o.value.Shift? ==> o.value.hours < 100 && o.value.minutes < 100
  }

  /** Every component is preceded by all coarser ones, and an offset by an hour. */
  predicate Writable(p: Parts) {
    && p.year < 10000 && Short(p.month) && Short(p.day) && Short(p.hour) && Short(p.minute) && Short(p.second)
    && OffsetWritable(p.offset)
    && (p.day.Some? ==> p.month.Some?)
    && (p.hour.Some? ==> p.day.Some?)
    && (p.minute.Some? ==> p.hour.Some?)
    && (p.second.Some? ==> p.minute.Some?)
    && (p.offset.Some? ==> p.hour.Some?)
  }

  function OffsetText(o: Option<Offset>): string
    requires OffsetWritable(o)
  {
    match o
    case None => ""
    case Some(Zulu) => "Z"
    case Some(Shift(plus, hours, minutes)) => (if plus then "+" else "-") + Two(hours) + ":" + Two(minutes)
  }

  function Piece(c: char, n: Option<nat>): string
    requires Short(n)
  {
    if n.Some? then [c] + Two(n.value) else ""
  }

  function Render(p: Parts): string
    requires Writable(p)
  {
    Four(p.year) + (Piece('-', p.month) + (Piece('-', p.day) + (Piece('T', p.hour)
      + (Piece(':', p.minute) + (Piece(':', p.second) + OffsetText(p.offset))))))
  }

  // ---------- The pattern and the rendering are inverse ----------

  lemma OffsetExact(q: Parts, t: string, p: Parts)
    requires q.offset == None
    ensures MatchOffset(q, t) == Some(p)
      <==> p == q.(offset := p.offset) && OffsetWritable(p.offset) && t == OffsetText(p.offset)
  {
    if MatchOffset(q, t) == Some(p) {
      if |t| == 6 {
        assert t == [t[0]] + t[1..3] + [t[3]] + t[4..6];
      }
    }
    if p == q.(offset := p.offset) && OffsetWritable(p.offset) && t == OffsetText(p.offset)
      && p.offset.Some? && p.offset.value.Shift? {
      assert t[1..3] == Two(p.offset.value.hours) && t[4..6] == Two(p.offset.value.minutes);
      TwoRead(p.offset.value.hours, t, 1);
      TwoRead(p.offset.value.minutes, t, 4);
    }
  }

  lemma PieceRead(c: char, n: nat, rest: string)
    requires n < 100
    ensures var t := Piece(c, Some(n)) + rest;
      |t| >= 3 && t[0] == c && TwoDigits(t, 1) && TwoValue(t, 1) == n && t[3..] == rest
  {
    var t := Piece(c, Some(n)) + rest;
    assert t[1..3] == Two(n);
    TwoRead(n, t, 1);
  }

  lemma PieceSplit(c: char, t: string)
    requires |t| >= 3 && t[0] == c && TwoDigits(t, 1)
    ensures t == Piece(c, Some(TwoValue(t, 1))) + t[3..]
  {
    assert t == [t[0]] + t[1..3] + t[3..];
  }

  /** No offset text starts like a minute or second. */
  lemma OffsetStart(o: Option<Offset>)
    requires OffsetWritable(o)
    ensures var t := OffsetText(o); t == "" || t[0] == 'Z' || t[0] == '+' || t[0] == '-'
  {}

  lemma SecondExact(q: Parts, t: string, p: Parts)
    requires q.second == None && q.offset == None
    ensures MatchSecond(q, t) == Some(p)
      <==> (p == q.(second := p.second, offset := p.offset) && Short(p.second) && OffsetWritable(p.offset)
            && t == Piece(':', p.second) + OffsetText(p.offset))
  {
    if |t| >= 3 && t[0] == ':' && TwoDigits(t, 1) {
      PieceSplit(':', t);
      OffsetExact(q.(second := Some(TwoValue(t, 1))), t[3..], p);
    } else {
      OffsetExact(q, t, p);
    }
    if Short(p.second) && OffsetWritable(p.offset) && t == Piece(':', p.second) + OffsetText(p.offset) {
      OffsetStart(p.offset);
      if p.second.Some? {
        PieceRead(':', p.second.value, OffsetText(p.offset));
      }
    }
  }

  lemma MinuteExact(q: Parts, t: string, p: Parts)
    requires q.minute == None && q.second == None && q.offset == None
    ensures MatchMinute(q, t) == Some(p)
      <==> (p == q.(minute := p.minute, second := p.second, offset := p.offset)
            && Short(p.minute) && Short(p.second) && OffsetWritable(p.offset) && (p.second.Some? ==> p.minute.Some?)
            && t == Piece(':', p.minute) + (Piece(':', p.second) + OffsetText(p.offset)))
  {
    if |t| >= 3 && t[0] == ':' && TwoDigits(t, 1) {
      PieceSplit(':', t);
      SecondExact(q.(minute := Some(TwoValue(t, 1))), t[3..], p);
    } else {
      OffsetExact(q, t, p);
    }
    if Short(p.minute) && Short(p.second) && OffsetWritable(p.offset)
      && t == Piece(':', p.minute) + (Piece(':', p.second) + OffsetText(p.offset)) {
      OffsetStart(p.offset);
      if p.minute.Some? {
        PieceRead(':', p.minute.value, Piece(':', p.second) + OffsetText(p.offset));
      }
    }
  }

  predicate FromHour(p: Parts) {
    && Short(p.hour) && Short(p.minute) && Short(p.second) && OffsetWritable(p.offset)
    && (p.second.Some? ==> p.minute.Some?) && (p.minute.Some? ==> p.hour.Some?) && (p.offset.Some? ==> p.hour.Some?)
  }

  function HourText(p: Parts): string
    requires FromHour(p)
  {
    Piece('T', p.hour) + (Piece(':', p.minute) + (Piece(':', p.second) + OffsetText(p.offset)))
  }

  lemma HourExact(q: Parts, t: string, p: Parts)
    requires q.hour == None && q.minute == None && q.second == None && q.offset == None
    ensures MatchHour(q, t) == Some(p)
      <==> (p == q.(hour := p.hour, minute := p.minute, second := p.second, offset := p.offset)
            && FromHour(p) && t == HourText(p))
  {
    if t != "" && |t| >= 3 && t[0] == 'T' && TwoDigits(t, 1) {
      PieceSplit('T', t);
      MinuteExact(q.(hour := Some(TwoValue(t, 1))), t[3..], p);
    }
    if FromHour(p) && t == HourText(p) && p.hour.Some? {
      PieceRead('T', p.hour.value, Piece(':', p.minute) + (Piece(':', p.second) + OffsetText(p.offset)));
    }
  }

  predicate FromDay(p: Parts) {
    Short(p.day) && FromHour(p) && (p.hour.Some? ==> p.day.Some?)
  }

  function DayText(p: Parts): string
    requires FromDay(p)
  {
    Piece('-', p.day) + HourText(p)
  }

  lemma DayExact(q: Parts, t: string, p: Parts)
    requires q == OnlyYear(q.year).(month := q.month)
    ensures MatchDay(q, t) == Some(p)
      <==> (p.year == q.year && p.month == q.month && FromDay(p) && t == DayText(p))
  {
    if t != "" && |t| >= 3 && t[0] == '-' && TwoDigits(t, 1) {
      PieceSplit('-', t);
      HourExact(q.(day := Some(TwoValue(t, 1))), t[3..], p);
    }
    if FromDay(p) && t == DayText(p) && p.day.Some? {
      PieceRead('-', p.day.value, HourText(p));
    }
  }

  predicate FromMonth(p: Parts) {
    Short(p.month) && FromDay(p) && (p.day.Some? ==> p.month.Some?)
  }

  function MonthText(p: Parts): string
    requires FromMonth(p)
  {
    Piece('-', p.month) + DayText(p)
  }

  lemma MonthExact(y: nat, t: string, p: Parts)
    ensures MatchMonth(OnlyYear(y), t) == Some(p) <==> (p.year == y && FromMonth(p) && t == MonthText(p))
  {
    if t != "" && |t| >= 3 && t[0] == '-' && TwoDigits(t, 1) {
      PieceSplit('-', t);
      DayExact(OnlyYear(y).(month := Some(TwoValue(t, 1))), t[3..], p);
    }
    if FromMonth(p) && t == MonthText(p) && p.month.Some? {
      PieceRead('-', p.month.value, DayText(p));
    }
  }

  lemma FourRead(n: nat, rest: string)
    requires n < 10000
    ensures var t := Four(n) + rest;
      |t| >= 4 && TwoDigits(t, 0) && TwoDigits(t, 2) && TwoValue(t, 0) * 100 + TwoValue(t, 2) == n && t[4..] == rest
  {
    var t := Four(n) + rest;
    assert t[0..2] == Two(n / 100) && t[2..4] == Two(n % 100);
    TwoRead(n / 100, t, 0);
    TwoRead(n % 100, t, 2);
  }

  lemma FourSplit(t: string)
    requires |t| >= 4 && TwoDigits(t, 0) && TwoDigits(t, 2)
    ensures t == Four(TwoValue(t, 0) * 100 + TwoValue(t, 2)) + t[4..]
  {
    FourOf(TwoValue(t, 0), TwoValue(t, 2));
    hide Two, Four;
    assert t == t[0..2] + t[2..4] + t[4..];
  }

  lemma FourOf(high: nat, low: nat)
    requires high < 100 && low < 100
    ensures Four(high * 100 + low) == Two(high) + Two(low)
  {
    assert (high * 100 + low) / 100 == high && (high * 100 + low) % 100 == low;
  }

  lemma RenderSplit(p: Parts)
    requires Writable(p)
    ensures FromMonth(p) && p.year < 10000 && Render(p) == Four(p.year) + MonthText(p)
  {
    hide Four, Piece, OffsetText;
  }

  lemma MatchSplit(t: string)
    requires MatchPoint(t).Some?
    ensures |t| >= 4 && TwoDigits(t, 0) && TwoDigits(t, 2)
    ensures MatchPoint(t) == MatchMonth(OnlyYear(TwoValue(t, 0) * 100 + TwoValue(t, 2)), t[4..])
  {
    hide MatchMonth;
  }

  /** The pattern takes a text apart into p exactly if the text is how p is written. */
  lemma PatternIsExact(t: string, p: Parts)
    ensures MatchPoint(t) == Some(p) <==> (Writable(p) && t == Render(p))
  {
    if MatchPoint(t) == Some(p) {
      ReadIsWritten(t, p);
    }
    if Writable(p) && t == Render(p) {
      WrittenIsRead(p);
    }
  }

  lemma ReadIsWritten(t: string, p: Parts)
    requires MatchPoint(t) == Some(p)
    ensures Writable(p) && t == Render(p)
  {
    MatchSplit(t);
    hide MatchPoint, MatchMonth, MonthText, Four, TwoDigits, TwoValue;
    FourSplit(t);
    MonthExact(TwoValue(t, 0) * 100 + TwoValue(t, 2), t[4..], p);
    RenderSplit(p);
  }

  lemma WrittenIsRead(p: Parts)
    requires Writable(p)
    ensures MatchPoint(Render(p)) == Some(p)
  {
    hide MatchMonth, MonthText, Four, Render, Writable, TwoDigits, TwoValue, FromMonth;
    RenderSplit(p);
    FourRead(p.year, MonthText(p));
    MonthExact(p.year, MonthText(p), p);
  }
}
