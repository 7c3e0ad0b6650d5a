/** Dates as the client compares them. `new Date(x)` is taken as given (a parameter of the
    operations that parse); what matters here is that an unparsable value is an invalid date,
    and every `<` or `>` comparison involving one is false. */
module Dates {

  /** A parsed date: a time value in milliseconds, or an invalid date (time value NaN). */
  datatype Instant = At(ms: int) | InvalidDate

  /** `a < b` on two `Date` objects. */
  predicate Before(a: Instant, b: Instant)
  {
    a.At? && b.At? && a.ms < b.ms
  }

  /** `Before` is a strict order on valid dates and never holds for an invalid one. */
  lemma BeforeFacts(a: Instant, b: Instant)
    ensures Before(a, b) ==> !Before(b, a) && a != b
    ensures a.InvalidDate? || b.InvalidDate? ==> !Before(a, b)
  {
  }
}
