/** Weekdays of day numbers and the weekly recurrence used to materialise a
    PERMANENT_SCHEDULE booking. */
module Weekly {
  import opened Common

  /** The weekday of a day, numbered as moment's `day()`: 0 = Sunday, 1 = Monday,
      ..., 6 = Saturday. Day 0 (1970-01-01) is a Thursday. */
  function Weekday(d: Day): int
  {
    (d + 4) % 7
  }

  /** Two different days on the same weekday are at least a week apart. */
  lemma SameWeekdayAtLeastWeekApart(a: Day, b: Day)
    requires a < b && Weekday(a) == Weekday(b)
    ensures a + 7 <= b
  {
  }

  /** Whether `d` is an occurrence of weekday `wd` in the inclusive range `lo..hi`. */
  predicate Occurs(d: Day, lo: Day, hi: Day, wd: int)
  {
    lo <= d <= hi && Weekday(d) == wd
  }

  /** The days from `lo` to `hi` inclusive, visited one day at a time in
      increasing order, that fall on weekday `wd`: exactly the occurrences of
      `wd` in the range, ascending, each one week after the previous. */
  function MatchingDays(lo: Day, hi: Day, wd: int): (r: seq<Day>)
    ensures forall d :: d in r <==> Occurs(d, lo, hi, wd)
    ensures forall i, j :: 0 <= i < j < |r| ==> r[i] < r[j]
    ensures forall i :: 0 < i < |r| ==> r[i] == r[i - 1] + 7
    decreases hi - lo
  {
    if lo > hi then []
    else
      var rest := MatchingDays(lo + 1, hi, wd);
      if Weekday(lo) == wd then
        NextOccurrenceIsWeekLater(lo, hi, wd, rest);
        [lo] + rest
      else rest
  }

  /** Inside the recursion of MatchingDays: the first occurrence after an
      occurrence `lo` is `lo + 7`. */
  lemma NextOccurrenceIsWeekLater(lo: Day, hi: Day, wd: int, rest: seq<Day>)
    requires Weekday(lo) == wd
    requires forall d :: d in rest <==> Occurs(d, lo + 1, hi, wd)
    requires forall i, j :: 0 <= i < j < |rest| ==> rest[i] < rest[j]
    ensures |rest| > 0 ==> rest[0] == lo + 7
  {
    if |rest| > 0 {
      assert rest[0] in rest;
      SameWeekdayAtLeastWeekApart(lo, rest[0]);
      assert Weekday(lo + 7) == wd;
      assert lo + 7 in rest;
    }
  }

  /** A sequence whose consecutive entries are a week apart is the arithmetic
      progression `r[0], r[0] + 7, r[0] + 14, ...`. */
  lemma {:induction false} WeeklyProgression(r: seq<Day>)
    requires forall i :: 0 < i < |r| ==> r[i] == r[i - 1] + 7
    ensures forall i :: 0 <= i < |r| ==> r[i] == r[0] + 7 * i
  {
    if |r| > 1 {
      WeeklyProgression(r[..|r| - 1]);
      assert forall i :: 0 <= i < |r| - 1 ==> r[..|r| - 1][i] == r[i];
      assert r[|r| - 1] == r[|r| - 2] + 7;
    }
  }

  /** The example of a four-week range: Monday 2024-01-01 (day 19723) to Monday
      2024-01-22 (day 19744) holds four Mondays, 1, 8, 15 and 22 January. */
  lemma JanuaryMondays()
    ensures MatchingDays(19723, 19744, 1) == [19723, 19730, 19737, 19744]
  {
    var r := MatchingDays(19723, 19744, 1);
    assert Occurs(19723, 19723, 19744, 1) && Occurs(19744, 19723, 19744, 1);
    assert 19723 in r && 19744 in r;
    assert r[0] == 19723 by {
      var k :| 0 <= k < |r| && r[k] == 19723;
      assert r[0] in r;
    }
    WeeklyProgression(r);
    assert |r| == 4 by {
      var k :| 0 <= k < |r| && r[k] == 19744;
      assert r[|r| - 1] in r;
    }
  }
}
