/**
 * The weekly forecast's day labels: "Today" followed by the abbreviations of
 * the six weekdays after today. The day of the week (0 = Sunday, as
 * JavaScript's `Date.getDay` numbers it) is a parameter instead of being read
 * from the clock.
 */
module Days {

  const Today: string := "Today"

  /** Weekday abbreviations, indexed by day of week from Sunday. */
  const DaysOfWeek: seq<string> := ["Sun", "Mon", "Tues", "Wed", "Thurs", "Fri", "Sat"]

  /** `s` rotated left by `k`: it starts at `s[k]` and wraps around. */
  function RotateLeft(s: seq<string>, k: nat): (r: seq<string>)
    requires k <= |s|
    ensures |r| == |s|
    ensures forall i :: 0 <= i < |s| ==> r[i] == if k + i < |s| then s[k + i] else s[k + i - |s|]
  {
    s[k..] + s[..k]
  }

  /**
   * The labels for a week that starts on day `startDay`: "Today", then the
   * week rotated to begin the day after, without its last entry (today's own).
   */
  function DayLabels(startDay: nat): (r: seq<string>)
    requires startDay < 7
    ensures |r| == 7 && r[0] == Today
  {
    [Today] + RotateLeft(DaysOfWeek, (startDay + 1) % 7)[..6]
  }

  /** Element `i` of the labels, for every position of the week. */
  lemma DayLabelsAt(startDay: nat, i: nat)
    requires startDay < 7 && i < 7
    ensures |DayLabels(startDay)| == 7
    ensures DayLabels(startDay)[i] == if i == 0 then Today else DaysOfWeek[(startDay + i) % 7]
  {
    if i > 0 {
      var k := (startDay + 1) % 7;
      WrapDay(startDay + 1);
      WrapDay(startDay + i);
      var rot := RotateLeft(DaysOfWeek, k);
      assert DayLabels(startDay) == [Today] + rot[..6];
      assert DayLabels(startDay)[i] == rot[i - 1];
    }
  }

  /** Reducing a day number below two weeks modulo 7 subtracts at most one week. */
  lemma WrapDay(n: nat)
    requires n < 14
    ensures n % 7 == if n < 7 then n else n - 7
  {
  }

  /** The abbreviations are pairwise distinct, and none of them is "Today". */
  lemma DaysOfWeekDistinct()
    ensures forall i, j :: 0 <= i < j < 7 ==> DaysOfWeek[i] != DaysOfWeek[j]
    ensures Today !in DaysOfWeek
  {
  }

  /**
   * The six weekday entries are pairwise distinct, none of them names today
   * itself, and none of them is the "Today" sentinel.
   */
  lemma WeekdaysDistinct(startDay: nat)
    requires startDay < 7
    ensures forall i, j :: 1 <= i < j < 7 ==> DayLabels(startDay)[i] != DayLabels(startDay)[j]
    ensures forall i :: 1 <= i < 7 ==> DayLabels(startDay)[i] != DaysOfWeek[startDay]
    ensures forall i :: 1 <= i < 7 ==> DayLabels(startDay)[i] != Today
  {
    DaysOfWeekDistinct();
    forall i | 1 <= i < 7
      ensures DayLabels(startDay)[i] != DaysOfWeek[startDay]
      ensures DayLabels(startDay)[i] != Today
    {
      DayLabelsAt(startDay, i);
      WrapDay(startDay + i);
      assert DaysOfWeek[(startDay + i) % 7] in DaysOfWeek;
    }
    forall i, j | 1 <= i < j < 7 ensures DayLabels(startDay)[i] != DayLabels(startDay)[j] {
      DayLabelsAt(startDay, i);
      DayLabelsAt(startDay, j);
      WrapDay(startDay + i);
      WrapDay(startDay + j);
      var a, b := (startDay + i) % 7, (startDay + j) % 7;
      assert a != b;
      if a < b { assert DaysOfWeek[a] != DaysOfWeek[b]; }
      else { assert DaysOfWeek[b] != DaysOfWeek[a]; }
    }
  }

  /**
   * After the sentinel, the labels are a contiguous run of the week repeated
   * twice, starting the day after `startDay`.
   */
  lemma WeekdaysAreRotation(startDay: nat)
    requires startDay < 7
    ensures DayLabels(startDay)[1..] == (DaysOfWeek + DaysOfWeek)[startDay + 1..startDay + 7]
  {
    var week := DaysOfWeek + DaysOfWeek;
    var run := week[startDay + 1..startDay + 7];
    var labels := DayLabels(startDay);
    DayLabelsAt(startDay, 0);
    forall i | 0 <= i < 6 ensures labels[1..][i] == run[i] {
      DayLabelsAt(startDay, i + 1);
      WrapDay(startDay + 1 + i);
      assert run[i] == week[startDay + 1 + i];
    }
  }

  /** The worked example: on a Wednesday the week reads from Thursday. */
  lemma WednesdayExample()
    ensures DayLabels(3) == ["Today", "Thurs", "Fri", "Sat", "Sun", "Mon", "Tues"]
  {
  }

  /**
   * `listDays`: start from ["Today"] and append the abbreviation of day
   * `(startDay + i) % 7` for i from 1 to 6.
   */
  method ListDays(startDay: nat) returns (days: seq<string>)
    requires startDay < 7
    ensures days == DayLabels(startDay)
    ensures |days| == 7 && days[0] == Today
    ensures forall i :: 1 <= i < 7 ==> days[i] == DaysOfWeek[(startDay + i) % 7]
  {
    days := [Today];
    for i := 1 to 7
      invariant |days| == i && days[0] == Today
      invariant forall j :: 1 <= j < i ==> days[j] == DaysOfWeek[(startDay + j) % 7]
    {
      days := days + [DaysOfWeek[(startDay + i) % 7]];
    }
    forall i | 0 <= i < 7 ensures days[i] == DayLabels(startDay)[i] {
      DayLabelsAt(startDay, i);
    }
    DayLabelsAt(startDay, 0);
  }
}
