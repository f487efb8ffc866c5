/**
 * The total price shown for the selected date range. The component
 * recomputes it whenever the selection changes.
 */
module Pricing {
  import opened Optional
  import opened Days

  /** The calendar selection; either end may be missing. */
  datatype DateRange = DateRange(startDate: Option<Day>, endDate: Option<Day>) {
    predicate Complete() { startDate.Some? && endDate.Some? }
  }

  /** A selection of one day, used for the component's initial range (today to today). */
  function SameDay(d: Day): DateRange
  {
    DateRange(Some(d), Some(d))
  }

  /**
   * The total for a range whose two ends are known: the number of nights
   * times the daily price, except that a same-day selection costs one
   * day's price. Nothing clamps a reversed range.
   */
  function TotalFor(startDate: Day, endDate: Day, price: int): (total: int)
    ensures startDate == endDate ==> total == price
    ensures startDate != endDate ==> total == (endDate - startDate) * price
  {
    var dateCount := CalendarDaysBetween(endDate, startDate);
    if dateCount != 0 && price != 0 then dateCount * price else price
  }

  /**
   * The total after the price effect has run on `range`: recomputed when
   * both ends are present, otherwise left at `current`.
   */
  function NextTotal(range: DateRange, price: int, current: int): int
  {
    if range.startDate.Some? && range.endDate.Some? then
      TotalFor(range.startDate.value, range.endDate.value, price)
    else
      current
  }

  /**
   * Running the price effect again on the same range changes nothing, and
   * for a complete range the result does not depend on the previous total.
   */
  lemma NextTotalStable(range: DateRange, price: int, current: int, other: int)
    ensures NextTotal(range, price, NextTotal(range, price, current)) == NextTotal(range, price, current)
    ensures range.Complete() ==> NextTotal(range, price, current) == NextTotal(range, price, other)
  {
  }

  /** A stay of `nights` nights at a daily price costs their product. */
  lemma StayCost(startDate: Day, nights: nat, price: int)
    requires nights >= 1
    ensures TotalFor(startDate, startDate + nights, price) == nights * price
  {
  }

  /** Three nights at 100 a day cost 300. */
  lemma ThreeNightsExample(startDate: Day)
    ensures TotalFor(startDate, startDate + 3, 100) == 300
  {
    StayCost(startDate, 3, 100);
  }

  /** For a positive price, a forward range never costs less than one day. */
  lemma MinimumCharge(startDate: Day, endDate: Day, price: int)
    requires startDate <= endDate && price > 0
    ensures TotalFor(startDate, endDate, price) >= price
  {
    if startDate != endDate {
      ScaleMonotone(1, endDate - startDate, price);
    }
  }

  /**
   * For a positive price, a range with more nights never costs less; this
   * holds over signed day counts too, reversed ranges costing least.
   */
  lemma MonotoneInLength(s1: Day, e1: Day, s2: Day, e2: Day, price: int)
    requires price > 0
    requires e1 - s1 <= e2 - s2
    ensures TotalFor(s1, e1, price) <= TotalFor(s2, e2, price)
  {
    var n1, n2 := e1 - s1, e2 - s2;
    if n1 == 0 {
      MinimumCharge(s2, e2, price);
    } else if n2 == 0 {
      ScaleMonotone(n1, 1, price);
    } else {
      ScaleMonotone(n1, n2, price);
    }
  }

  /** Only the length of the range matters, not where it falls in the calendar. */
  lemma ShiftInvariant(startDate: Day, endDate: Day, shift: int, price: int)
    ensures TotalFor(startDate + shift, endDate + shift, price) == TotalFor(startDate, endDate, price)
  {
  }

  /** A reversed range with a positive price gives a negative total: nothing clamps it. */
  lemma ReversedRangeNegative(startDate: Day, endDate: Day, price: int)
    requires endDate < startDate && price > 0
    ensures TotalFor(startDate, endDate, price) < 0
  {
    ScaleMonotone(endDate - startDate, -1, price);
  }

  /** Multiplying by a positive price keeps the order of day counts. */
  lemma {:induction false} ScaleMonotone(a: int, b: int, price: int)
    requires a <= b && price > 0
    ensures a * price <= b * price
    decreases b - a
  {
    if a < b {
      ScaleMonotone(a, b - 1, price);
      assert b * price == (b - 1) * price + price;
    }
  }
}
