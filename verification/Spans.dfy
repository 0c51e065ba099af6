/** Time spans and the questions asked of them (src/period_parser.py:50-76, :277-284). */
module Spans {
  import opened Common

  /** An instant, in microseconds. Parsed boundaries are whole seconds; the clock is not. */
  type Instant = int

  /** A span inclusive on both ends; None leaves that end open. */
  datatype Span = Span(start: Option<Instant>, end: Option<Instant>) {
    predicate Contains(now: Instant) {
      if start.Some? && now < start.value then false
      else !(end.Some? && now > end.value)
    }

    predicate IsPast(now: Instant) {
      end.Some? && now > end.value
    }

    predicate Inverted() {
      start.Some? && end.Some? && start.value > end.value
    }
  }

  predicate SpansActive(spans: seq<Span>, now: Instant) {
    exists i :: 0 <= i < |spans| && spans[i].Contains(now)
  }

  predicate SpansAllPast(spans: seq<Span>, now: Instant) {
    spans != [] && forall i :: 0 <= i < |spans| ==> spans[i].IsPast(now)
  }
}
