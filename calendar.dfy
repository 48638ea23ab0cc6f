/**
 * Time as the staleness query sees it: timestamps are whole seconds since
 * 1970-01-01 00:00 UTC, a Thursday, and days of the week are numbered as
 * PostgreSQL's `extract(dow ...)` numbers them (0 is Sunday, 6 is Saturday).
 */
module Calendar {
  type Timestamp = int

  const Day: int := 86400
  /** The day of the week of the epoch (Thursday). */
  const EpochDow: int := 4
  const Sunday: int := 0
  const Saturday: int := 6

  /** A value handed to the access-control service: a full timestamp, or a calendar date (`.date()`). */
  datatype When = At(t: Timestamp) | OnDay(day: int)

  function DateOf(t: Timestamp): When {
    OnDay(t / Day)
  }

  function Dow(t: Timestamp): int {
    (t / Day + EpochDow) % 7
  }

  predicate IsWorkingDay(t: Timestamp) {
    Dow(t) != Sunday && Dow(t) != Saturday
  }

  /**
   * The working-day count of tasks.py: the points start, start + 1 day,
   * start + 2 days, ... that are not after `now` (so the series is empty when
   * start > now), counting only those that fall on neither Saturday nor Sunday.
   */
  function WorkingDays(start: Timestamp, now: Timestamp): nat
    decreases now - start
  {
    if start > now then 0
    else (if IsWorkingDay(start) then 1 else 0) + WorkingDays(start + Day, now)
  }

  /** The points of the one-day series from `start` up to `now` that are working days. */
  ghost function WorkingPoints(start: Timestamp, now: Timestamp): set<Timestamp> {
    set t: Timestamp | start <= t <= now && (t - start) % Day == 0 && IsWorkingDay(t)
  }

  lemma ModShift(x: int)
    ensures (x - Day) % Day == x % Day
  {
  }

  /** The count is exactly the number of working-day points of the series. */
  lemma {:induction false} WorkingDaysCountsPoints(start: Timestamp, now: Timestamp)
    ensures WorkingDays(start, now) == |WorkingPoints(start, now)|
    decreases now - start
  {
    if start > now {
      assert WorkingPoints(start, now) == {};
    } else {
      WorkingDaysCountsPoints(start + Day, now);
      var rest := WorkingPoints(start + Day, now);
      var here: set<Timestamp> := if IsWorkingDay(start) then {start} else {};
      forall t | t in WorkingPoints(start, now) && t != start
        ensures t in rest
      {
        ModShift(t - start);
      }
      forall t | t in rest
        ensures t in WorkingPoints(start, now)
      {
        ModShift(t - start);
      }
      assert WorkingPoints(start, now) == here + rest;
      assert start !in rest;
    }
  }

  /** A later `now` never lowers the count. */
  lemma {:induction false} WorkingDaysMonotone(start: Timestamp, now1: Timestamp, now2: Timestamp)
    requires now1 <= now2
    ensures WorkingDays(start, now1) <= WorkingDays(start, now2)
    decreases now2 - start
  {
    if start <= now1 {
      WorkingDaysMonotone(start + Day, now1, now2);
    }
  }

  lemma DowStep(t: Timestamp)
    ensures Dow(t + Day) == (Dow(t) + 1) % 7
  {
    assert (t + Day) / Day == t / Day + 1;
  }

  /** Any seven consecutive points of the series hold exactly five working days. */
  lemma FullWeek(start: Timestamp)
    ensures WorkingDays(start, start + 6 * Day) == 5
  {
    var now := start + 6 * Day;
    DowStep(start);
    DowStep(start + Day);
    DowStep(start + 2 * Day);
    DowStep(start + 3 * Day);
    DowStep(start + 4 * Day);
    DowStep(start + 5 * Day);
    assert WorkingDays(start + 7 * Day, now) == 0;
    assert WorkingDays(start + 6 * Day, now) == (if IsWorkingDay(start + 6 * Day) then 1 else 0);
    assert WorkingDays(start + 5 * Day, now) == (if IsWorkingDay(start + 5 * Day) then 1 else 0) + WorkingDays(start + 6 * Day, now);
    assert WorkingDays(start + 4 * Day, now) == (if IsWorkingDay(start + 4 * Day) then 1 else 0) + WorkingDays(start + 5 * Day, now);
    assert WorkingDays(start + 3 * Day, now) == (if IsWorkingDay(start + 3 * Day) then 1 else 0) + WorkingDays(start + 4 * Day, now);
    assert WorkingDays(start + 2 * Day, now) == (if IsWorkingDay(start + 2 * Day) then 1 else 0) + WorkingDays(start + 3 * Day, now);
    assert WorkingDays(start + Day, now) == (if IsWorkingDay(start + Day) then 1 else 0) + WorkingDays(start + 2 * Day, now);
  }

  // Worked examples at 08:00 UTC, the hour of the daily sweep.
  // 1970-01-02 was a Friday and 1970-01-05 a Monday.

  /** Booked Friday 09:00, swept Monday 08:00: Friday counts, the weekend does not, Monday 09:00 is still ahead. */
  lemma FridayToMonday()
    ensures WorkingDays(Day + 9 * 3600, 4 * Day + 8 * 3600) == 1
  {
    assert WorkingDays(4 * Day + 9 * 3600, 4 * Day + 8 * 3600) == 0;
    assert WorkingDays(3 * Day + 9 * 3600, 4 * Day + 8 * 3600) == 0;
    assert WorkingDays(2 * Day + 9 * 3600, 4 * Day + 8 * 3600) == 0;
    assert WorkingDays(Day + 9 * 3600, 4 * Day + 8 * 3600) == 1;
  }

  /** Booked Monday 09:00: the Thursday 08:00 sweep counts Monday, Tuesday and Wednesday only. */
  lemma MondayToThursday()
    ensures WorkingDays(4 * Day + 9 * 3600, 7 * Day + 8 * 3600) == 3
  {
    assert WorkingDays(7 * Day + 9 * 3600, 7 * Day + 8 * 3600) == 0;
    assert WorkingDays(6 * Day + 9 * 3600, 7 * Day + 8 * 3600) == 1;
    assert WorkingDays(5 * Day + 9 * 3600, 7 * Day + 8 * 3600) == 2;
    assert WorkingDays(4 * Day + 9 * 3600, 7 * Day + 8 * 3600) == 3;
  }

  /** Booked Monday 09:00: the Friday 08:00 sweep counts Monday to Thursday. */
  lemma MondayToFriday()
    ensures WorkingDays(4 * Day + 9 * 3600, 8 * Day + 8 * 3600) == 4
  {
    assert WorkingDays(8 * Day + 9 * 3600, 8 * Day + 8 * 3600) == 0;
    assert WorkingDays(7 * Day + 9 * 3600, 8 * Day + 8 * 3600) == 1;
    assert WorkingDays(6 * Day + 9 * 3600, 8 * Day + 8 * 3600) == 2;
    assert WorkingDays(5 * Day + 9 * 3600, 8 * Day + 8 * 3600) == 3;
    assert WorkingDays(4 * Day + 9 * 3600, 8 * Day + 8 * 3600) == 4;
  }

  /** The start day itself counts: at Thursday 09:00 sharp the Monday 09:00 booking is at four. */
  lemma MondayToThursdaySameHour()
    ensures WorkingDays(4 * Day + 9 * 3600, 7 * Day + 9 * 3600) == 4
  {
    assert WorkingDays(8 * Day + 9 * 3600, 7 * Day + 9 * 3600) == 0;
    assert WorkingDays(7 * Day + 9 * 3600, 7 * Day + 9 * 3600) == 1;
    assert WorkingDays(6 * Day + 9 * 3600, 7 * Day + 9 * 3600) == 2;
    assert WorkingDays(5 * Day + 9 * 3600, 7 * Day + 9 * 3600) == 3;
    assert WorkingDays(4 * Day + 9 * 3600, 7 * Day + 9 * 3600) == 4;
  }
}
