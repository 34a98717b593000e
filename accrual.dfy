/** What one `updateWatchTime` tick does to the `watchStats` record: the
    maintenance path taken when no session was ever started, and the
    accruing path taken once one was. */
module Accrual {
  import opened Wrappers
  import opened Calendar
  import opened History

  /** The stored record, or the zeroed one stamped with today's midnight when nothing is stored. */
  function StoredOrZero(stored: Option<WatchStats>, now: int): WatchStats
  {
    if stored.Some? then stored.value else ZeroStats(StartOf(DayOf(now)))
  }

  /** Minutes accrued by a tick: `(now - lastUpdateTime) / 60000`, not clamped. */
  function WatchedMinutes(lastUpdateTime: int, now: int): (m: real)
    ensures now == lastUpdateTime ==> m == 0.0
    ensures now > lastUpdateTime ==> m > 0.0
    ensures now < lastUpdateTime ==> m < 0.0
  {
    (now - lastUpdateTime) as real / 60000.0
  }

  /** The maintenance tick on day `today`: zero slots for the elapsed days
      and weeks, totals reset on a change of day or week (with
      `longestSession` on a change of week), `lastUpdated` stamped with
      today's midnight. */
  function MaintenanceTick(stats: WatchStats, today: int): (r: WatchStats)
    ensures r.lastUpdated == StartOf(today)
    ensures WithinBounds(stats) ==> WithinBounds(r)
    ensures FullHistories(stats) ==> FullHistories(r)
  {
    var last := DayOf(stats.lastUpdated);
    Rollover(stats, today - last, IsSameDay(last, today), IsSameWeek(last, today), true, StartOf(today))
  }

  /** The accruing tick on day `today` adding `minutes`: on a new day (week)
      the old total plus this tick's minutes is pushed onto the history and
      the total restarts at `minutes`; otherwise the total is mirrored into slot 0. */
  function ActiveTick(stats: WatchStats, today: int, minutes: real): (r: WatchStats)
    ensures r.lastUpdated == StartOf(today)
    ensures r.longestSession == stats.longestSession
    ensures WithinBounds(stats) ==> WithinBounds(r)
    ensures FullHistories(stats) ==> FullHistories(r)
  {
    var last := DayOf(stats.lastUpdated);
    Accumulate(stats, minutes, IsSameDay(last, today), IsSameWeek(last, today), StartOf(today))
  }

  /** The record a tick writes: the accruing path once a session was
      started, the maintenance path before. */
  function Tick(stored: Option<WatchStats>, started: bool, lastUpdateTime: int, now: int): (r: WatchStats)
    ensures r.lastUpdated == StartOf(DayOf(now))
    ensures stored.None? || WithinBounds(stored.value) ==> WithinBounds(r)
    ensures stored.None? || FullHistories(stored.value) ==> FullHistories(r)
  {
    var stats := StoredOrZero(stored, now);
    if started then ActiveTick(stats, DayOf(now), WatchedMinutes(lastUpdateTime, now))
    else MaintenanceTick(stats, DayOf(now))
  }

  /** Maintenance, daily part: `k = max(0, min(daysDiff, 7))` zero slots are
      inserted and the total reset exactly when the stored day differs from today. */
  lemma MaintenanceDaily(stats: WatchStats, today: int)
    ensures var last, r := DayOf(stats.lastUpdated), MaintenanceTick(stats, today);
      if last == today then
        r.dailyHistory == stats.dailyHistory && r.dailyWatchTime == stats.dailyWatchTime
      else
        r.dailyHistory == Take(Zeros(LoopCount(today - last, DailySlots)) + stats.dailyHistory, DailySlots)
        && r.dailyWatchTime == 0.0
  {
    var last := DayOf(stats.lastUpdated);
    IsSameDayIff(last, today);
    RolloverDaily(stats, today - last, IsSameDay(last, today), IsSameWeek(last, today), true, StartOf(today));
  }

  /** Maintenance, weekly part: on a change of week `max(0, min(floor(daysDiff / 7), 5))`
      zero slots are inserted and the weekly total and longest session reset. */
  lemma MaintenanceWeekly(stats: WatchStats, today: int)
    ensures var last, r := DayOf(stats.lastUpdated), MaintenanceTick(stats, today);
      if IsSameWeek(last, today) then
        r.weeklyHistory == stats.weeklyHistory && r.weeklyWatchTime == stats.weeklyWatchTime
        && r.longestSession == stats.longestSession
      else
        r.weeklyHistory == Take(Zeros(LoopCount((today - last) / 7, WeeklySlots)) + stats.weeklyHistory, WeeklySlots)
        && r.weeklyWatchTime == 0.0 && r.longestSession == 0.0
  {
    var last := DayOf(stats.lastUpdated);
    RolloverWeekly(stats, today - last, IsSameDay(last, today), IsSameWeek(last, today), true, StartOf(today));
  }

  /** A change of week seen less than 7 days after the last update inserts no
      zero slot: the weekly history is kept as it is, only the totals reset. */
  lemma ShortWeekChangeInsertsNothing(stats: WatchStats, today: int)
    requires WithinBounds(stats)
    requires var last := DayOf(stats.lastUpdated); 0 <= today - last < 7 && !IsSameWeek(last, today)
    ensures MaintenanceTick(stats, today).weeklyHistory == stats.weeklyHistory
    ensures MaintenanceTick(stats, today).weeklyWatchTime == 0.0
  {
    MaintenanceWeekly(stats, today);
    var last := DayOf(stats.lastUpdated);
    assert LoopCount((today - last) / 7, WeeklySlots) == 0;
    assert Zeros(0) + stats.weeklyHistory == stats.weeklyHistory;
  }

  /** Repeating a maintenance tick on the same day changes nothing. */
  lemma MaintenanceIdempotent(stats: WatchStats, today: int)
    ensures MaintenanceTick(MaintenanceTick(stats, today), today) == MaintenanceTick(stats, today)
  {
    var r := MaintenanceTick(stats, today);
    assert DayOf(r.lastUpdated) == today;
    RolloverDaily(r, 0, true, true, true, StartOf(today));
    RolloverWeekly(r, 0, true, true, true, StartOf(today));
  }

  /** An accruing tick on the stored day and week: both totals grow by
      exactly `minutes`, slot 0 of each history holds the new total and every
      other slot is unchanged. */
  lemma ActiveSameDay(stats: WatchStats, today: int, minutes: real)
    requires DayOf(stats.lastUpdated) == today
    requires |stats.dailyHistory| > 0 && |stats.weeklyHistory| > 0
    ensures var r := ActiveTick(stats, today, minutes);
      && r.dailyWatchTime == stats.dailyWatchTime + minutes
      && r.weeklyWatchTime == stats.weeklyWatchTime + minutes
      && r.dailyHistory == stats.dailyHistory[0 := r.dailyWatchTime]
      && r.weeklyHistory == stats.weeklyHistory[0 := r.weeklyWatchTime]
  {
    assert IsSameDay(today, today) && IsSameWeek(today, today);
    AccumulateDaily(stats, minutes, true, true, StartOf(today));
    AccumulateWeekly(stats, minutes, true, true, StartOf(today));
  }

  /** An accruing tick on a new day: exactly one slot, the old total plus this
      tick's minutes, is pushed however many days elapsed, and the daily total
      restarts at this tick's minutes. */
  lemma ActiveNewDay(stats: WatchStats, today: int, minutes: real)
    requires DayOf(stats.lastUpdated) != today
    ensures var r := ActiveTick(stats, today, minutes);
      && r.dailyHistory == Take([stats.dailyWatchTime + minutes] + stats.dailyHistory, DailySlots)
      && r.dailyWatchTime == minutes
  {
    var last := DayOf(stats.lastUpdated);
    IsSameDayIff(last, today);
    AccumulateDaily(stats, minutes, false, IsSameWeek(last, today), StartOf(today));
  }

  /** An accruing tick on a new week: one slot, the old weekly total plus this
      tick's minutes, is pushed and the weekly total restarts at `minutes`. */
  lemma ActiveNewWeek(stats: WatchStats, today: int, minutes: real)
    requires !IsSameWeek(DayOf(stats.lastUpdated), today)
    ensures var r := ActiveTick(stats, today, minutes);
      && r.weeklyHistory == Take([stats.weeklyWatchTime + minutes] + stats.weeklyHistory, WeeklySlots)
      && r.weeklyWatchTime == minutes
  {
    var last := DayOf(stats.lastUpdated);
    AccumulateWeekly(stats, minutes, IsSameDay(last, today), false, StartOf(today));
  }

  /** When slot 0 mirrors the old day's total, as a same-day accruing tick
      leaves it, a new-day tick keeps that mirror in slot 1 beside the pushed
      sum, so for now the old day occupies two slots. `NextTickRepairs` shows
      that the next tick on the same day overwrites slot 0 again. */
  lemma NewDayKeepsStaleMirror(stats: WatchStats, today: int, minutes: real)
    requires FullHistories(stats) && stats.dailyHistory[0] == stats.dailyWatchTime
    requires DayOf(stats.lastUpdated) != today
    ensures var r := ActiveTick(stats, today, minutes);
      r.dailyHistory[0] == stats.dailyWatchTime + minutes && r.dailyHistory[1] == stats.dailyWatchTime
  {
    ActiveNewDay(stats, today, minutes);
  }

  /** After a new-day tick, slot 0 mirrors the restarted total exactly when
      the old day's total was zero: otherwise it holds old total plus minutes. */
  lemma NewDayBreaksMirror(stats: WatchStats, today: int, minutes: real)
    requires FullHistories(stats)
    requires DayOf(stats.lastUpdated) != today
    ensures var r := ActiveTick(stats, today, minutes);
      r.dailyHistory[0] == r.dailyWatchTime <==> stats.dailyWatchTime == 0.0
  {
    ActiveNewDay(stats, today, minutes);
  }

  /** A second tick on the day of a new-day tick writes today's total into
      slot 0, leaving the old day's total alone in slot 1: the double count
      lasts only while the new-day tick is the last tick of its day. */
  lemma NextTickRepairs(stats: WatchStats, today: int, minutes: real, more: real)
    requires FullHistories(stats) && stats.dailyHistory[0] == stats.dailyWatchTime
    requires DayOf(stats.lastUpdated) != today
    ensures var r := ActiveTick(stats, today, minutes);
      var r2 := ActiveTick(r, today, more);
      && r2.dailyWatchTime == minutes + more
      && r2.dailyHistory[0] == minutes + more
      && r2.dailyHistory[1] == stats.dailyWatchTime
  {
    var r := ActiveTick(stats, today, minutes);
    ActiveNewDay(stats, today, minutes);
    assert r.dailyHistory[1] == stats.dailyWatchTime;
    ActiveSameDay(r, today, more);
  }

  /** The tick that `WATCHING_STARTED` runs accrues nothing: with no time
      elapsed, an accruing tick on the stored day leaves both totals as they were. */
  lemma StartTickAccruesNothing(stats: WatchStats, now: int)
    requires DayOf(stats.lastUpdated) == DayOf(now)
    ensures var r := ActiveTick(stats, DayOf(now), WatchedMinutes(now, now));
      r.dailyWatchTime == stats.dailyWatchTime && r.weeklyWatchTime == stats.weeklyWatchTime
  {
    var today := DayOf(now);
    assert IsSameDay(today, today) && IsSameWeek(today, today);
    AccumulateDaily(stats, 0.0, true, true, StartOf(today));
    AccumulateWeekly(stats, 0.0, true, true, StartOf(today));
  }

  /** The maintenance path of `updateWatchTime` as the code runs it. */
  method RolloverOnly(stats: WatchStats, currentDate: int) returns (r: WatchStats)
    ensures r == MaintenanceTick(stats, currentDate)
  {
    var lastUpdated := DayOf(stats.lastUpdated);
    r := RollHistories(stats, currentDate - lastUpdated, IsSameDay(lastUpdated, currentDate),
                       IsSameWeek(lastUpdated, currentDate), true, StartOf(currentDate));
  }

  /** The accruing path of `updateWatchTime` as the code runs it. */
  method Accrue(stats: WatchStats, currentDate: int, watchedMinutes: real) returns (r: WatchStats)
    ensures r == ActiveTick(stats, currentDate, watchedMinutes)
  {
    var lastUpdated := DayOf(stats.lastUpdated);
    r := AddMinutes(stats, watchedMinutes, IsSameDay(lastUpdated, currentDate),
                    IsSameWeek(lastUpdated, currentDate), StartOf(currentDate));
  }
}
