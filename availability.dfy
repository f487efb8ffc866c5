/**
 * The listing's disabled dates: every day covered by an existing
 * reservation, in reservation order, each reservation's days ascending.
 * The list is not de-duplicated: a day covered by two reservations
 * occurs twice.
 */
module Availability {
  import opened Days

  /** An existing booking of the listing: `startDate` to `endDate`, both days included. */
  datatype Reservation = Reservation(startDate: Day, endDate: Day) {
    predicate WellFormed() { startDate <= endDate }
    predicate Covers(d: Day) { startDate <= d <= endDate }
    /** The number of calendar days the booking blocks. */
    function DayCount(): int { endDate - startDate + 1 }
  }

  predicate AllWellFormed(rs: seq<Reservation>)
  {
    forall i :: 0 <= i < |rs| ==> rs[i].WellFormed()
  }

  /** Specification of the disabled dates: the concatenation, in order, of each reservation's days. */
  function DisabledDates(rs: seq<Reservation>): seq<Day>
    requires AllWellFormed(rs)
  {
    if rs == [] then []
    else
      var last := rs[|rs| - 1];
      DisabledDates(rs[..|rs| - 1]) + EachDay(last.startDate, last.endDate)
  }

  /** Σ over the reservations of the days each one blocks. */
  function TotalDayCount(rs: seq<Reservation>): int
  {
    if rs == [] then 0 else TotalDayCount(rs[..|rs| - 1]) + rs[|rs| - 1].DayCount()
  }

  /** How many of the reservations cover day `d`. */
  function Coverage(rs: seq<Reservation>, d: Day): nat
  {
    if rs == [] then 0
    else Coverage(rs[..|rs| - 1], d) + (if rs[|rs| - 1].Covers(d) then 1 else 0)
  }

  predicate Overlap(a: Reservation, b: Reservation)
  {
    a.startDate <= b.endDate && b.startDate <= a.endDate
  }

  predicate PairwiseDisjoint(rs: seq<Reservation>)
  {
    forall i, j :: 0 <= i < j < |rs| ==> !Overlap(rs[i], rs[j])
  }

  /**
   * The `disabledDates` memo as the component computes it: start from the
   * empty list and, reservation by reservation, replace it by itself
   * followed by that reservation's days.
   */
  method CollectDisabledDates(reservations: seq<Reservation>) returns (dates: seq<Day>)
    requires AllWellFormed(reservations)
    ensures dates == DisabledDates(reservations)
  {
    dates := [];
    for i := 0 to |reservations|
      invariant dates == DisabledDates(reservations[..i])
    {
      var range := EachDay(reservations[i].startDate, reservations[i].endDate);
      assert reservations[..i + 1][..i] == reservations[..i];
      dates := dates + range;
    }
    assert reservations[..|reservations|] == reservations;
  }

  /** Disabled dates of a concatenation of reservation lists is the concatenation of theirs. */
  lemma {:induction false} DisabledDatesAppend(a: seq<Reservation>, b: seq<Reservation>)
    requires AllWellFormed(a) && AllWellFormed(b)
    ensures AllWellFormed(a + b)
    ensures DisabledDates(a + b) == DisabledDates(a) + DisabledDates(b)
    decreases |b|
  {
    assert AllWellFormed(a + b) by {
      forall i | 0 <= i < |a + b| ensures (a + b)[i].WellFormed() {
        if i >= |a| {
          assert (a + b)[i] == b[i - |a|];
        }
      }
    }
    if b == [] {
      assert a + b == a;
    } else {
      var init, last := b[..|b| - 1], b[|b| - 1];
      assert AllWellFormed(init) by {
        forall i | 0 <= i < |init| ensures init[i].WellFormed() {
          assert init[i] == b[i];
        }
      }
      DisabledDatesAppend(a, init);
      assert (a + b)[..|a + b| - 1] == a + init;
      assert (a + b)[|a + b| - 1] == last;
      var tail := EachDay(last.startDate, last.endDate);
      calc {
        DisabledDates(a + b);
        DisabledDates(a + init) + tail;
        (DisabledDates(a) + DisabledDates(init)) + tail;
        DisabledDates(a) + (DisabledDates(init) + tail);
      }
    }
  }

  /** The list is exactly as long as the reservations' day counts added up. */
  lemma {:induction false} DisabledDatesLength(rs: seq<Reservation>)
    requires AllWellFormed(rs)
    ensures |DisabledDates(rs)| == TotalDayCount(rs)
  {
    if rs != [] {
      DisabledDatesLength(rs[..|rs| - 1]);
    }
  }

  /** A day is disabled if and only if some reservation covers it. */
  lemma {:induction false} DisabledDatesMembership(rs: seq<Reservation>, d: Day)
    requires AllWellFormed(rs)
    ensures d in DisabledDates(rs) <==> exists i :: 0 <= i < |rs| && rs[i].Covers(d)
  {
    if rs != [] {
      var init, last := rs[..|rs| - 1], rs[|rs| - 1];
      DisabledDatesMembership(init, d);
      EachDayMembership(last.startDate, last.endDate, d);
      if exists i :: 0 <= i < |rs| && rs[i].Covers(d) {
        var i :| 0 <= i < |rs| && rs[i].Covers(d);
        if i < |rs| - 1 {
          assert init[i].Covers(d);
        }
      }
    }
  }

  /** Each day occurs in the list once per reservation that covers it. */
  lemma {:induction false} DisabledDatesMultiplicity(rs: seq<Reservation>, d: Day)
    requires AllWellFormed(rs)
    ensures multiset(DisabledDates(rs))[d] == Coverage(rs, d)
  {
    if rs != [] {
      var last := rs[|rs| - 1];
      DisabledDatesMultiplicity(rs[..|rs| - 1], d);
      EachDayMultiplicity(last.startDate, last.endDate, d);
    }
  }

  /** A reservation covering `d` contributes to its coverage. */
  lemma {:induction false} CoverageAtLeastOne(rs: seq<Reservation>, i: int, d: Day)
    requires 0 <= i < |rs| && rs[i].Covers(d)
    ensures Coverage(rs, d) >= 1
  {
    if i < |rs| - 1 {
      CoverageAtLeastOne(rs[..|rs| - 1], i, d);
    }
  }

  /** Two different reservations covering `d` make it covered at least twice. */
  lemma {:induction false} CoverageAtLeastTwo(rs: seq<Reservation>, i: int, j: int, d: Day)
    requires 0 <= i < j < |rs| && rs[i].Covers(d) && rs[j].Covers(d)
    ensures Coverage(rs, d) >= 2
  {
    var init := rs[..|rs| - 1];
    if j == |rs| - 1 {
      CoverageAtLeastOne(init, i, d);
    } else {
      CoverageAtLeastTwo(init, i, j, d);
    }
  }

  /** Among pairwise disjoint reservations no day is covered twice. */
  lemma {:induction false} CoverageAtMostOne(rs: seq<Reservation>, d: Day)
    requires PairwiseDisjoint(rs)
    ensures Coverage(rs, d) <= 1
  {
    if rs != [] {
      var init, last := rs[..|rs| - 1], rs[|rs| - 1];
      assert PairwiseDisjoint(init) by {
        forall i, j | 0 <= i < j < |init| ensures !Overlap(init[i], init[j]) {
          assert init[i] == rs[i] && init[j] == rs[j];
        }
      }
      CoverageAtMostOne(init, d);
      if last.Covers(d) && Coverage(init, d) == 1 {
        var i := CoveringIndex(init, d);
        assert Overlap(rs[i], rs[|rs| - 1]);
        assert false;
      }
    }
  }

  /** Some reservation covers every day of positive coverage. */
  lemma {:induction false} CoveringIndex(rs: seq<Reservation>, d: Day) returns (i: int)
    requires Coverage(rs, d) >= 1
    ensures 0 <= i < |rs| && rs[i].Covers(d)
  {
    var init := rs[..|rs| - 1];
    if rs[|rs| - 1].Covers(d) {
      i := |rs| - 1;
    } else {
      i := CoveringIndex(init, d);
      assert init[i] == rs[i];
    }
  }

  /** Overlapping reservations produce duplicate entries: a doubly booked day occurs at least twice. */
  lemma OverlapDuplicates(rs: seq<Reservation>, i: int, j: int, d: Day)
    requires AllWellFormed(rs)
    requires 0 <= i < j < |rs| && rs[i].Covers(d) && rs[j].Covers(d)
    ensures multiset(DisabledDates(rs))[d] >= 2
  {
    DisabledDatesMultiplicity(rs, d);
    CoverageAtLeastTwo(rs, i, j, d);
  }

  /**
   * With pairwise disjoint reservations the list has no duplicates, so the
   * set of disabled days has exactly Σ (end - start + 1) members.
   */
  lemma DisjointDisabledDates(rs: seq<Reservation>)
    requires AllWellFormed(rs) && PairwiseDisjoint(rs)
    ensures forall d :: multiset(DisabledDates(rs))[d] <= 1
    ensures |set d | d in DisabledDates(rs)| == TotalDayCount(rs)
  {
    var dates := DisabledDates(rs);
    forall d ensures multiset(dates)[d] <= 1 {
      DisabledDatesMultiplicity(rs, d);
      CoverageAtMostOne(rs, d);
    }
    var days := set d | d in dates;
    assert multiset(days) == multiset(dates);
    DisabledDatesLength(rs);
  }

  /**
   * Two bookings, days `d`..`d + 2` and `d + 4`: the disabled dates are
   * `d`, `d + 1`, `d + 2`, `d + 4`, and day `d + 3` stays selectable.
   */
  lemma TwoBookingsExample(d: Day)
    ensures AllWellFormed([Reservation(d, d + 2), Reservation(d + 4, d + 4)])
    ensures DisabledDates([Reservation(d, d + 2), Reservation(d + 4, d + 4)]) == [d, d + 1, d + 2, d + 4]
    ensures d + 3 !in DisabledDates([Reservation(d, d + 2), Reservation(d + 4, d + 4)])
  {
    var first, second := Reservation(d, d + 2), Reservation(d + 4, d + 4);
    assert [first, second][..1] == [first];
    assert [first][..0] == [];
    assert EachDay(d, d + 2) == [d, d + 1, d + 2];
    assert DisabledDates([first]) == [d, d + 1, d + 2];
    assert EachDay(d + 4, d + 4) == [d + 4];
  }
}
