/**
 * The inclusive creation-date filter written out twice, identically, in
 * src/pages/ProductList.tsx (`printAllProducts`) and
 * src/pages/AdminManagement.tsx (`downloadReport`). An empty date input is
 * `None`; a filled one is the instant it parses to.
 */
module DateFilter {
  import opened Common
  import opened Records

  /**
   * The filter's test, branch by branch: both bounds set, only the start,
   * only the end, neither.
   */
  predicate InRange(t: Timestamp, start: Option<Timestamp>, end: Option<Timestamp>)
    ensures InRange(t, start, end) <==> (start.None? || start.value <= t) && (end.None? || t <= end.value)
  {
    if start.Some? && end.Some? then start.value <= t && t <= end.value
    else if start.Some? then t >= start.value
    else if end.Some? then t <= end.value
    else true
  }

  /**
   * With no dates every time passes, and each bound is inclusive: a start
   * date, or an end date, admits its own instant.
   */
  lemma InRangeBounds(t: Timestamp, start: Option<Timestamp>, end: Option<Timestamp>)
    ensures start.None? && end.None? ==> InRange(t, start, end)
    ensures start.Some? ==> InRange(start.value, start, None)
    ensures end.Some? ==> InRange(end.value, None, end)
  {
  }
}
