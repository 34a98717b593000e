/** The popup's `StatsService`: its rollover-only maintenance of the stored
    record and its display helpers. It shares the calendar helpers of the
    worker, whose `isSameDay` and `isSameWeek` it repeats word for word. */
module StatsService {
  import opened Wrappers
  import opened Calendar
  import opened History
  import Accrual

  /** `updateHistoricalData`: elapsed day and week slots zeroed, totals reset
      on a change of day or week, `lastUpdated` stamped; `longestSession` is
      carried along untouched. */
  function HistoricalUpdate(stats: WatchStats, last: int, today: int): (r: WatchStats)
    ensures r.longestSession == stats.longestSession
    ensures r.lastUpdated == StartOf(today)
    ensures WithinBounds(stats) ==> WithinBounds(r)
    ensures FullHistories(stats) ==> FullHistories(r)
  {
    Rollover(stats, today - last, IsSameDay(last, today), IsSameWeek(last, today), false, StartOf(today))
  }

  /** `checkDateChanges`: the record it writes back, if any. */
  function DateCheck(stored: Option<WatchStats>, today: int): (w: Option<WatchStats>)
    ensures w.Some? ==> stored.Some? && w.value.lastUpdated == StartOf(today)
    ensures w.Some? ==> w.value.longestSession == stored.value.longestSession
  {
    if stored.None? then None
    else
      var last := DayOf(stored.value.lastUpdated);
      if !IsSameDay(last, today) || !IsSameWeek(last, today)
      then Some(HistoricalUpdate(stored.value, last, today))
      else None
  }

  /** `updateHistoricalData` as the code runs it on the record read from storage. */
  method UpdateHistoricalData(stats: WatchStats, lastUpdated: int, currentDate: int) returns (r: WatchStats)
    ensures r == HistoricalUpdate(stats, lastUpdated, currentDate)
  {
    r := RollHistories(stats, currentDate - lastUpdated, IsSameDay(lastUpdated, currentDate),
                       IsSameWeek(lastUpdated, currentDate), false, StartOf(currentDate));
  }

  /** `checkDateChanges` at instant `now` over what local storage holds;
      returns the record written back, or None when nothing is written. */
  method CheckDateChanges(stored: Option<WatchStats>, now: int) returns (written: Option<WatchStats>)
    ensures written == DateCheck(stored, DayOf(now))
  {
    if stored.None? {
      return None;
    }
    var stats := stored.value;
    var lastUpdated := DayOf(stats.lastUpdated);
    var currentDate := DayOf(now);
    if !IsSameDay(lastUpdated, currentDate) || !IsSameWeek(lastUpdated, currentDate) {
      var r := UpdateHistoricalData(stats, lastUpdated, currentDate);
      written := Some(r);
    } else {
      written := None;
    }
  }

  /** A write happens exactly when a record is stored and its day is not today. */
  lemma DateCheckWritesIffNewDay(stored: Option<WatchStats>, today: int)
    ensures DateCheck(stored, today).Some? <==> stored.Some? && DayOf(stored.value.lastUpdated) != today
  {
    if stored.Some? {
      IsSameDayIff(DayOf(stored.value.lastUpdated), today);
    }
  }

  /** After a write, `lastUpdated` is today, so an immediate second call writes nothing. */
  lemma DateCheckIdempotent(stored: Option<WatchStats>, today: int)
    requires DateCheck(stored, today).Some?
    ensures DateCheck(DateCheck(stored, today), today).None?
  {
    DateCheckWritesIffNewDay(DateCheck(stored, today), today);
  }

  /** The popup's rollover is the worker's maintenance tick except that it
      leaves `longestSession` alone. */
  lemma HistoricalUpdateMatchesWorker(stats: WatchStats, today: int)
    ensures HistoricalUpdate(stats, DayOf(stats.lastUpdated), today)
      == Accrual.MaintenanceTick(stats, today).(longestSession := stats.longestSession)
  {
  }

  /** A rendered duration: `amount` with suffix `h` (hours) or `m` (minutes). */
  datatype TimeText = TimeText(amount: real, suffix: char)

  /** `Math.round`: the nearest integer, halves rounded up. */
  function Round(x: real): (n: int)
    ensures x - 0.5 < n as real <= x + 0.5
  {
    (x + 0.5).Floor
  }

  /** `formatTime`: hours from 120 minutes on, whole minutes below. */
  function FormatTime(minutes: real): (t: TimeText)
    ensures t.suffix == 'h' <==> minutes >= 120.0
    ensures t.suffix == 'h' || t.suffix == 'm'
    ensures t.suffix == 'h' ==> t.amount * 60.0 == minutes
    ensures t.suffix == 'm' ==> minutes - 0.5 < t.amount <= minutes + 0.5
  {
    if minutes >= 120.0 then TimeText(minutes / 60.0, 'h') else TimeText(Round(minutes) as real, 'm')
  }

  /** `getBarHeight`: `value` as a percentage of `maxValue`, 0 when `maxValue` is 0. */
  function BarHeight(value: real, maxValue: real): (h: real)
    ensures maxValue == 0.0 ==> h == 0.0
    ensures 0.0 <= value <= maxValue ==> 0.0 <= h <= 100.0
    ensures value == maxValue != 0.0 ==> h == 100.0
  {
    if maxValue != 0.0 then (value / maxValue) * 100.0 else 0.0
  }

  const DayNames: seq<string> := ["Sun", "Mon", "Tue", "Wed", "Thu", "Fri", "Sat"]

  /** `getDayLabels` at instant `now`: seven labels, label `i` at
      `(today - i + 7) % 7` in the Sunday-first name list. */
  function DayLabels(now: int): (labels: seq<string>)
    ensures |labels| == 7
  {
    var today := Weekday(DayOf(now));
    seq(7, i requires 0 <= i < 7 => DayNames[(today - i + 7) % 7])
  }

  /** Label `i` names the weekday `i` days before today; label 0 is today. */
  lemma DayLabelsCountBack(now: int)
    ensures forall i :: 0 <= i < 7 ==> DayLabels(now)[i] == DayNames[Weekday(DayOf(now) - i)]
  {
    var d := DayOf(now);
    forall i | 0 <= i < 7
      ensures DayLabels(now)[i] == DayNames[Weekday(d - i)]
    {
      WeekdayBack(d, i);
    }
  }

  /** Stepping back `i` days from `Weekday(d)` around the Sunday-first wheel. */
  lemma WeekdayBack(d: int, i: int)
    requires 0 <= i < 7
    ensures (Weekday(d) - i + 7) % 7 == Weekday(d - i)
  {
  }

  /** The seven names differ pairwise. */
  lemma DayNamesDistinct(x: int, y: int)
    requires 0 <= x < y < 7
    ensures DayNames[x] != DayNames[y]
  {
    var key := "SMTWTFS";
    var second := "uouehra";
    assert forall k :: 0 <= k < 7 ==> DayNames[k][0] == key[k] && DayNames[k][1] == second[k];
    assert key[x] != key[y] || second[x] != second[y];
  }

  /** The seven labels are all different: a full week, each day once. */
  lemma DayLabelsDistinct(now: int)
    ensures forall i, j :: 0 <= i < j < 7 ==> DayLabels(now)[i] != DayLabels(now)[j]
  {
    var today := Weekday(DayOf(now));
    forall i, j | 0 <= i < j < 7
      ensures DayLabels(now)[i] != DayLabels(now)[j]
    {
      var x, y := (today - i + 7) % 7, (today - j + 7) % 7;
      assert x != y;
      if x < y { DayNamesDistinct(x, y); } else { DayNamesDistinct(y, x); }
    }
  }
}
