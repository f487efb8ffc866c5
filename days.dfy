/**
 * Calendar days as integer day numbers (days since some fixed epoch, in the
 * viewer's local calendar). Two instants on the same calendar day are the
 * same `Day`; the next calendar day is `d + 1`.
 */
module Days {

  type Day = int

  /** Whole calendar days from `earlier` to `later` (date-fns `differenceInCalendarDays(later, earlier)`). */
  function CalendarDaysBetween(later: Day, earlier: Day): int
  {
    later - earlier
  }

  /**
   * Every calendar day from `start` to `end`, both included, in ascending
   * order (date-fns `eachDayOfInterval({ start, end })`).
   */
  function EachDay(start: Day, end: Day): (days: seq<Day>)
    requires start <= end
    ensures |days| == end - start + 1
    ensures forall i :: 0 <= i < |days| ==> days[i] == start + i
    decreases end - start
  {
    if start == end then [start] else [start] + EachDay(start + 1, end)
  }

  /** A day is produced by the expansion exactly when it lies in the closed interval. */
  lemma EachDayMembership(start: Day, end: Day, d: Day)
    requires start <= end
    ensures d in EachDay(start, end) <==> start <= d <= end
  {
    var days := EachDay(start, end);
    if start <= d <= end {
      assert days[d - start] == d;
    }
  }

  /** No day is produced twice: each day of the interval occurs exactly once, others never. */
  lemma {:induction false} EachDayMultiplicity(start: Day, end: Day, d: Day)
    requires start <= end
    ensures multiset(EachDay(start, end))[d] == if start <= d <= end then 1 else 0
    decreases end - start
  {
    if start < end {
      EachDayMultiplicity(start + 1, end, d);
      assert EachDay(start, end) == [start] + EachDay(start + 1, end);
    }
  }
}
