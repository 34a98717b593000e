/** The persisted `watchStats` record and the bounded histories inside it. */
module History {

  const DailySlots: nat := 7
  const WeeklySlots: nat := 5

  /** The `watchStats` record kept in local storage. `lastUpdated` is the
      stored ISO timestamp, modelled as an instant in local milliseconds. */
  datatype WatchStats = WatchStats(
    dailyWatchTime: real,
    weeklyWatchTime: real,
    longestSession: real,
    lastUpdated: int,
    dailyHistory: seq<real>,
    weeklyHistory: seq<real>)

  /** Histories have their bounded lengths, 7 daily and 5 weekly slots, or fewer. */
  predicate WithinBounds(s: WatchStats)
  {
    |s.dailyHistory| <= DailySlots && |s.weeklyHistory| <= WeeklySlots
  }

  /** Histories have exactly 7 daily and 5 weekly slots, as every record the worker writes. */
  predicate FullHistories(s: WatchStats)
  {
    |s.dailyHistory| == DailySlots && |s.weeklyHistory| == WeeklySlots
  }

  /** The zeroed record written on install and used when nothing is stored
      (seven and five zero slots). */
  function ZeroStats(lastUpdated: int): (s: WatchStats)
    ensures FullHistories(s)
    ensures s.dailyWatchTime == 0.0 && s.weeklyWatchTime == 0.0 && s.longestSession == 0.0
    ensures forall i :: 0 <= i < |s.dailyHistory| ==> s.dailyHistory[i] == 0.0
    ensures forall i :: 0 <= i < |s.weeklyHistory| ==> s.weeklyHistory[i] == 0.0
  {
    WatchStats(0.0, 0.0, 0.0, lastUpdated, Zeros(DailySlots), Zeros(WeeklySlots))
  }

  function Zeros(k: nat): (z: seq<real>)
    ensures |z| == k
    ensures forall i :: 0 <= i < k ==> z[i] == 0.0
  {
    seq(k, _ => 0.0)
  }

  /** `Array.prototype.slice(0, n)`: the first `n` elements, or all of them. */
  function Take(s: seq<real>, n: nat): (r: seq<real>)
    ensures |r| == if |s| < n then |s| else n
    ensures forall i :: 0 <= i < |r| ==> r[i] == s[i]
  {
    if |s| <= n then s else s[..n]
  }

  /** How many times the zero-inserting loop runs: while its counter is below the smaller of `diff` and `bound`. */
  function LoopCount(diff: int, bound: nat): (k: nat)
    ensures k <= bound
    ensures diff <= 0 ==> k == 0
    ensures 0 <= diff <= bound ==> k == diff
    ensures diff >= bound ==> k == bound
  {
    if diff <= 0 then 0 else if diff < bound then diff else bound
  }

  /** Writing index 0 of a JavaScript array: replaces slot 0, or creates it in an empty array. */
  function SetFirst(h: seq<real>, x: real): (r: seq<real>)
    ensures |r| == if |h| == 0 then 1 else |h|
    ensures r[0] == x
    ensures forall i :: 1 <= i < |h| ==> r[i] == h[i]
  {
    if |h| == 0 then [x] else h[0 := x]
  }

  /** A history after `diff` elapsed periods: that many zero slots (at most
      `bound`) pushed to the front, then truncated to `bound` slots. */
  function ShiftZeros(h: seq<real>, diff: int, bound: nat): (r: seq<real>)
    ensures var k := LoopCount(diff, bound);
      && |r| == (if |h| + k < bound then |h| + k else bound)
      && (forall i :: 0 <= i < |r| && i < k ==> r[i] == 0.0)
      && (forall i :: k <= i < |r| ==> r[i] == h[i - k])
  {
    Take(Zeros(LoopCount(diff, bound)) + h, bound)
  }

  /** A history after a change of period with a session active: the closed
      period's total pushed to the front (`unshift`), truncated to `bound`. */
  function PushTotal(h: seq<real>, total: real, bound: nat): (r: seq<real>)
    requires bound > 0
    ensures |r| == if |h| + 1 < bound then |h| + 1 else bound
    ensures r[0] == total
    ensures forall i :: 1 <= i < |r| ==> r[i] == h[i - 1]
  {
    Take([total] + h, bound)
  }

  /** The `unshift(0)` loop: prepends `max(0, n)` zeros, one per iteration. */
  method PrependZeros(h: seq<real>, n: int) returns (r: seq<real>)
    ensures r == Zeros(if n > 0 then n else 0) + h
  {
    r := h;
    var i := 0;
    while i < n
      invariant if n > 0 then 0 <= i <= n else i == 0
      invariant r == Zeros(i) + h
    {
      assert [0.0] + Zeros(i) == Zeros(i + 1);
      r := [0.0] + r;
      i := i + 1;
    }
  }

  /** A rollover of one history as the code runs it: `min(diff, bound)`
      `unshift(0)` iterations, then `slice(0, bound)`. */
  method ShiftInZeros(h: seq<real>, diff: int, bound: nat) returns (r: seq<real>)
    ensures r == ShiftZeros(h, diff, bound)
  {
    var t := PrependZeros(h, if diff < bound then diff else bound);
    assert t == Zeros(LoopCount(diff, bound)) + h;
    r := Take(t, bound);
  }

  /** The rollover both the worker (with no session) and the popup apply,
      once the day and week comparisons are made: on a new day `daysDiff`
      zero slots (at most 7) are pushed and the daily total reset; on a new
      week `daysDiff / 7` zero slots (at most 5) are pushed and the weekly
      total reset, and `longestSession` too when `resetLongest` (the worker
      does, the popup does not); `lastUpdated` becomes `stamp`. */
  function Rollover(stats: WatchStats, daysDiff: int, sameDay: bool, sameWeek: bool,
                    resetLongest: bool, stamp: int): (r: WatchStats)
    ensures r.lastUpdated == stamp
    ensures !resetLongest ==> r.longestSession == stats.longestSession
    ensures WithinBounds(stats) ==> WithinBounds(r)
    ensures FullHistories(stats) ==> FullHistories(r)
  {
    var s1 :=
      if sameDay then stats
      else stats.(dailyHistory := ShiftZeros(stats.dailyHistory, daysDiff, DailySlots),
                  dailyWatchTime := 0.0);
    var s2 :=
      if sameWeek then s1
      else s1.(weeklyHistory := ShiftZeros(s1.weeklyHistory, daysDiff / 7, WeeklySlots),
               weeklyWatchTime := 0.0,
               longestSession := if resetLongest then 0.0 else s1.longestSession);
    s2.(lastUpdated := stamp)
  }

  /** The accruing update once the comparisons are made: both totals grow by
      `minutes`; on a new day (week) the grown total is pushed onto the history
      and the total restarts at `minutes`, otherwise it is mirrored into slot 0. */
  function Accumulate(stats: WatchStats, minutes: real, sameDay: bool, sameWeek: bool, stamp: int): (r: WatchStats)
    ensures r.lastUpdated == stamp
    ensures r.longestSession == stats.longestSession
    ensures WithinBounds(stats) ==> WithinBounds(r)
    ensures FullHistories(stats) ==> FullHistories(r)
  {
    var daily := stats.dailyWatchTime + minutes;
    var weekly := stats.weeklyWatchTime + minutes;
    var s1 :=
      if !sameDay
      then stats.(dailyHistory := PushTotal(stats.dailyHistory, daily, DailySlots), dailyWatchTime := minutes)
      else stats.(dailyHistory := SetFirst(stats.dailyHistory, daily), dailyWatchTime := daily);
    var s2 :=
      if !sameWeek
      then s1.(weeklyHistory := PushTotal(s1.weeklyHistory, weekly, WeeklySlots), weeklyWatchTime := minutes)
      else s1.(weeklyHistory := SetFirst(s1.weeklyHistory, weekly), weeklyWatchTime := weekly);
    s2.(lastUpdated := stamp)
  }

  /** Rollover as the code runs it: the `unshift(0)` loops, the `slice`s and
      the field writes on the record. */
  method RollHistories(stats: WatchStats, daysDiff: int, sameDay: bool, sameWeek: bool,
                       resetLongest: bool, stamp: int) returns (r: WatchStats)
    ensures r == Rollover(stats, daysDiff, sameDay, sameWeek, resetLongest, stamp)
  {
    r := stats;
    if !sameDay {
      var h := ShiftInZeros(r.dailyHistory, daysDiff, DailySlots);
      r := r.(dailyHistory := h, dailyWatchTime := 0.0);
    }
    if !sameWeek {
      var h := ShiftInZeros(r.weeklyHistory, daysDiff / 7, WeeklySlots);
      r := r.(weeklyHistory := h, weeklyWatchTime := 0.0);
      if resetLongest {
        r := r.(longestSession := 0.0);
      }
    }
    r := r.(lastUpdated := stamp);
  }

  /** Accumulate as the code runs it: `+=` on both totals, then `unshift` and
      `slice` or a write to slot 0 for each history. */
  method AddMinutes(stats: WatchStats, minutes: real, sameDay: bool, sameWeek: bool, stamp: int)
    returns (r: WatchStats)
    ensures r == Accumulate(stats, minutes, sameDay, sameWeek, stamp)
  {
    r := stats.(dailyWatchTime := stats.dailyWatchTime + minutes,
                weeklyWatchTime := stats.weeklyWatchTime + minutes);
    if !sameDay {
      r := r.(dailyHistory := Take([r.dailyWatchTime] + r.dailyHistory, DailySlots),
              dailyWatchTime := minutes);
    } else {
      r := r.(dailyHistory := SetFirst(r.dailyHistory, r.dailyWatchTime));
    }
    if !sameWeek {
      r := r.(weeklyHistory := Take([r.weeklyWatchTime] + r.weeklyHistory, WeeklySlots),
              weeklyWatchTime := minutes);
    } else {
      r := r.(weeklyHistory := SetFirst(r.weeklyHistory, r.weeklyWatchTime));
    }
    r := r.(lastUpdated := stamp);
  }

  /** Daily part of a rollover: untouched on the same day, otherwise the
      shifted (at most 7) zero slots in front and a zero total. */
  lemma RolloverDaily(stats: WatchStats, daysDiff: int, sameDay: bool, sameWeek: bool,
                      resetLongest: bool, stamp: int)
    ensures var r := Rollover(stats, daysDiff, sameDay, sameWeek, resetLongest, stamp);
      if sameDay then
        r.dailyHistory == stats.dailyHistory && r.dailyWatchTime == stats.dailyWatchTime
      else
        r.dailyHistory == Take(Zeros(LoopCount(daysDiff, DailySlots)) + stats.dailyHistory, DailySlots)
        && r.dailyWatchTime == 0.0
  {
  }

  /** Weekly part of a rollover: untouched in the same week, otherwise the
      shifted (at most 5) zero slots in front, a zero total and, when
      `resetLongest`, a zero `longestSession`. */
  lemma RolloverWeekly(stats: WatchStats, daysDiff: int, sameDay: bool, sameWeek: bool,
                       resetLongest: bool, stamp: int)
    ensures var r := Rollover(stats, daysDiff, sameDay, sameWeek, resetLongest, stamp);
      if sameWeek then
        r.weeklyHistory == stats.weeklyHistory && r.weeklyWatchTime == stats.weeklyWatchTime
        && r.longestSession == stats.longestSession
      else
        r.weeklyHistory == Take(Zeros(LoopCount(daysDiff / 7, WeeklySlots)) + stats.weeklyHistory, WeeklySlots)
        && r.weeklyWatchTime == 0.0
        && r.longestSession == (if resetLongest then 0.0 else stats.longestSession)
  {
  }

  /** Daily part of an accruing update. */
  lemma AccumulateDaily(stats: WatchStats, minutes: real, sameDay: bool, sameWeek: bool, stamp: int)
    ensures var r := Accumulate(stats, minutes, sameDay, sameWeek, stamp);
      if sameDay then
        r.dailyWatchTime == stats.dailyWatchTime + minutes
        && r.dailyHistory == SetFirst(stats.dailyHistory, r.dailyWatchTime)
      else
        r.dailyWatchTime == minutes
        && r.dailyHistory == Take([stats.dailyWatchTime + minutes] + stats.dailyHistory, DailySlots)
  {
  }

  /** Weekly part of an accruing update. */
  lemma AccumulateWeekly(stats: WatchStats, minutes: real, sameDay: bool, sameWeek: bool, stamp: int)
    ensures var r := Accumulate(stats, minutes, sameDay, sameWeek, stamp);
      if sameWeek then
        r.weeklyWatchTime == stats.weeklyWatchTime + minutes
        && r.weeklyHistory == SetFirst(stats.weeklyHistory, r.weeklyWatchTime)
      else
        r.weeklyWatchTime == minutes
        && r.weeklyHistory == Take([stats.weeklyWatchTime + minutes] + stats.weeklyHistory, WeeklySlots)
  {
  }
}
