/** Calendar days, abstracted from JavaScript `Date` objects to integer day numbers. */
module Calendar {

  /** A calendar day as a day number: day 0 is 1970-01-01, day 1 is 1970-01-02, and so on.
      The source keys every record by its `YYYY-MM-DD` string; for the fixed-width keys the
      source produces, the string order is the order of these day numbers. */
  type Day = int

  /** Day of the week in `Date.getDay` numbering: 0 is Sunday, 6 is Saturday.
      1970-01-01 was a Thursday (4). */
  function Weekday(d: Day): (w: int)
    ensures 0 <= w < 7
  {
    (d + 4) % 7
  }

  /** Saturday or Sunday. */
  predicate IsWeekend(d: Day)
  {
    Weekday(d) == 0 || Weekday(d) == 6
  }

  /** Number of days in the inclusive span [start, end]; no days when start > end. */
  function DayCount(start: Day, end: Day): nat
  {
    if start <= end then end - start + 1 else 0
  }

  /** The records of `s` carry the consecutive days first, first + 1, ... in order. */
  predicate Contiguous<T>(s: seq<T>, dateOf: T -> Day, first: Day)
  {
    forall i :: 0 <= i < |s| ==> dateOf(s[i]) == first + i
  }

  /** Number of weekend days among the `n` days start, start + 1, ..., start + n - 1. */
  function WeekendDays(start: Day, n: nat): nat
    decreases n
  {
    if n == 0 then 0 else (if IsWeekend(start) then 1 else 0) + WeekendDays(start + 1, n - 1)
  }

  /** Any seven consecutive days hold exactly two weekend days. */
  lemma {:induction false} TwoWeekendDaysPerWeek(d: Day)
    ensures WeekendDays(d, 7) == 2
  {
    WeekdayNext(d); WeekdayNext(d + 1); WeekdayNext(d + 2);
    WeekdayNext(d + 3); WeekdayNext(d + 4); WeekdayNext(d + 5);
    assert WeekendDays(d + 6, 1) == (if IsWeekend(d + 6) then 1 else 0);
    assert WeekendDays(d + 4, 3) == (if IsWeekend(d + 4) then 1 else 0) + (if IsWeekend(d + 5) then 1 else 0)
                                  + WeekendDays(d + 6, 1);
    assert WeekendDays(d + 2, 5) == (if IsWeekend(d + 2) then 1 else 0) + (if IsWeekend(d + 3) then 1 else 0)
                                  + WeekendDays(d + 4, 3);
    assert WeekendDays(d, 7) == (if IsWeekend(d) then 1 else 0) + (if IsWeekend(d + 1) then 1 else 0)
                              + WeekendDays(d + 2, 5);
  }

  /** The day after a Saturday (6) is a Sunday (0); otherwise the weekday goes up by one. */
  lemma WeekdayNext(d: Day)
    ensures Weekday(d + 1) == if Weekday(d) == 6 then 0 else Weekday(d) + 1
  {
  }

  /** Number of records of `s` dated on a Saturday or a Sunday. */
  function WeekendRecords<T>(s: seq<T>, dateOf: T -> Day): nat
  {
    if s == [] then 0 else (if IsWeekend(dateOf(s[0])) then 1 else 0) + WeekendRecords(s[1..], dateOf)
  }

  /** A contiguous series has one weekend record per weekend day of its span. */
  lemma {:induction false} ContiguousWeekendRecords<T>(s: seq<T>, dateOf: T -> Day, first: Day)
    requires Contiguous(s, dateOf, first)
    ensures WeekendRecords(s, dateOf) == WeekendDays(first, |s|)
  {
    if s != [] {
      assert Contiguous(s[1..], dateOf, first + 1) by {
        forall i | 0 <= i < |s| - 1 ensures dateOf(s[1..][i]) == first + 1 + i {
          assert s[1..][i] == s[i + 1];
        }
      }
      ContiguousWeekendRecords(s[1..], dateOf, first + 1);
    }
  }
}
