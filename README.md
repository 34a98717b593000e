# NetFix watch-time accounting, modelled in Dafny

NetFix is a browser extension that counts how long its user watches
Netflix and blocks playback once a daily or weekly limit is used up. This
project models the parts that account for time and enforce limits:

- **Calendar** (`calendar.dfy`). Local dates are integer day numbers (day 0 is
  1970-01-01) and instants are local milliseconds. A proleptic Gregorian
  civil conversion is proved to round-trip. On top of it sit `isSameDay`,
  `getWeekNumber` (shift to the week's Thursday, count weeks from 1 January
  of the Thursday's year) and `isSameWeek` (literal years equal and week
  numbers equal).
- **History** (`history.dfy`). The persisted `watchStats` record and its
  7-slot daily and 5-slot weekly histories. The `unshift(0)` loops, `slice`,
  and writes to slot 0 are modelled as methods, each proved against a
  function. The branches are taken on two booleans, "same day" and
  "same week".
- **Accrual** (`accrual.dfy`). One tick of `updateWatchTime`. The maintenance
  path runs while no session was ever started. The accruing path adds
  `(now - lastUpdateTime) / 60000` minutes.
- **Limits** (`limits.dfy`). The decision taken after an accruing tick:
  nothing, block now, or block after a delay.
- **Worker** (`worker.dfy`). The background service worker as a class.
  - Its fields are the module globals `watchStartTime`, `lastUpdateTime` and
    `alarmSetup`, plus the periodic alarm, the number of registered alarm
    listeners, both storage areas, the messages sent to tabs (an outbox) and
    the pending deferred-block timers.
  - Each handler method is proved equal to a pure step function over
    `State()`.
  - Lemmas over the step functions and over arbitrary runs of events state
    what the handlers promise.
- **StatsService** (`stats_service.dfy`). The popup's `checkDateChanges`,
  which does only the rollover, and its display helpers `formatTime`,
  `getBarHeight` and `getDayLabels`.
- **BuildUtils** (`version.dfy`). `incrementVersion` of the build scripts,
  modelled with JavaScript's `split`, `join`, `parseInt` and number-to-string
  conversion written out.

The popup's `isSameDay` and `isSameWeek` (src/app/services/stats.service.ts:104-123)
are the same text as the worker's (src/background.ts:242-259). The same goes
for its `getCurrentDate` and `getDateInTimezone` (stats.service.ts:15-25 and
background.ts:22-30). Both modules therefore use the one `Calendar`
definition, so the two copies agree by construction.

The model follows the code as written; in particular:

- Negative elapsed time is not clamped.
- No current-session length is tracked, and `longestSession` is never raised.
- Pausing or stopping neither clears `watchStartTime` nor cancels a deferred
  block timer.
- Because `!watchStartTime` is also true of the instant 0, a start at
  instant 0 leaves the worker on the maintenance path.

The civil-date algorithm is not in the source, which relies on JavaScript's
`Date`. Any correct proleptic Gregorian conversion gives the same year,
month and day.

The lemmas also show five consequences of the code as written:

- `isSameWeek` reports 2025-12-29 and 2026-01-01 as different weeks, though
  they fall in one Monday-to-Sunday week.
- It reports 2024-01-01 and 2024-12-30 as the same week, since both are
  "week 1" in the literal year 2024.
- A same-day tick leaves slot 0 equal to the day's total. The next new-day
  tick pushes the old total plus its own minutes and resets the total to
  those minutes, so slot 0 then equals the total only when the old total was
  zero, and the old day's total sits in slot 1 as well. The next tick on the
  same day writes today's total into slot 0 again, leaving the old day in
  slot 1 alone; the old day is counted twice only when the new-day tick is
  the last tick of its day.
- A pause keeps the session started. The next pause or stop message, or a
  move to a Netflix page that is not a watch page, counts every paused minute
  as watched time. Resuming with `WATCHING_STARTED` counts none of them.
- `WATCHING_STARTED` registers one more alarm listener each time. Every
  listener ticks once per alarm, so a block can be broadcast several times
  for one alarm.

## Model

| member | source | states |
|---|---|---|
| Calendar.DayOf | src/background.ts:22-30 | the local day of an instant: midnight of that day is at or before it and the next midnight after it |
| Calendar.StartOf | src/background.ts:22-30 | local midnight of a day lies on that day (`new Date(y, m, d)` of the day's parts) |
| Calendar.CivilFromDays | src/background.ts:243-245 | every day has a month in 1..12 and a day of the month in 1..31 |
| Calendar.DaysFromCivil | src/background.ts:243-245 | the day number of a year, month and date; `CivilRoundTrip` proves it inverts `CivilFromDays` |
| Calendar.Year | src/background.ts:243 | `getFullYear()` of a day; `YearBracket` proves the day lies on or after that year's 1 January and before the next year's |
| Calendar.YearStart | src/background.ts:253 | the day of 1 January of a year; `DayOfYearRange` relates it to `Year` |
| Calendar.CivilRoundTrip | src/background.ts:243-245 | converting a day to its year, month and date and back gives the same day |
| Calendar.IsSameDay | src/background.ts:242-246 | the year, month and date comparison; `IsSameDayIff` proves it means equal days |
| Calendar.IsSameDayIff | src/background.ts:242-246 | `isSameDay` holds exactly when the two local days are the same day, in both directions |
| Calendar.Weekday | src/background.ts:252 | `getDay()` lies in 0..6 |
| Calendar.Ceil | src/background.ts:254 | `Math.ceil(x)` is the least integer at or above `x` |
| Calendar.WeekThursday | src/background.ts:250-252 | the day moved to its week's Thursday; `WeekThursdayShape` proves it is a Thursday within three days, shared by the whole week |
| Calendar.WeekNumber | src/background.ts:249-255 | the week count from 1 January of the Thursday's year; `WeekNumberFormula` and `WeekNumberRange` state its value and its range 1..53 |
| Calendar.IsSameWeek | src/background.ts:248-259 | literal years equal and week numbers equal; `IsSameWeekComplete`, `IsSameWeekSound`, `YearEndWeekSplit` and `WeekOneCollision` compare it with `SameIsoWeek` |
| Calendar.SameIsoWeek | src/background.ts:248-259 | the reference definition of one Monday-to-Sunday week that the week lemmas compare `isSameWeek` with |
| Calendar.WeekThursdayShape | src/background.ts:250-252 | the shifted date is a Thursday within three days of the input, the same for every day of one Monday-to-Sunday week |
| Calendar.DayOfYearRange | src/background.ts:253-254 | every day lies 0..365 days after 1 January of its own year |
| Calendar.YearBracket | src/background.ts:243 | every day lies on or after 1 January of its `getFullYear()` year and before 1 January of the next year |
| Calendar.WeekNumberFormula | src/background.ts:249-255 | the week number equals the integer formula (days from 1 January of the Thursday's year + 7) / 7 |
| Calendar.WeekNumberRange | src/background.ts:249-255 | week numbers run from 1 to 53 |
| Calendar.IsSameWeekComplete | src/background.ts:248-259 | two days of one Monday-to-Sunday week with the same literal year are the same week |
| Calendar.IsSameWeekSound | src/background.ts:248-259 | when the two weeks' Thursdays share a year, `isSameWeek` implies one Monday-to-Sunday week |
| Calendar.YearEndWeekSplit | src/background.ts:257-258 | 2025-12-29 and 2026-01-01 are three days apart in one week but are reported as different weeks |
| Calendar.WeekOneCollision | src/background.ts:248-259 | 2024-01-01 and 2024-12-30 are 364 days apart in different weeks but are reported as the same week |
| History.ZeroStats | src/background.ts:35-42 | the default record has zero totals, zero `longestSession` and 7 and 5 zero slots |
| History.WithinBounds | src/background.ts:51-54 | histories hold at most 7 daily and 5 weekly slots; every tick function keeps it |
| History.FullHistories | src/background.ts:40-41 | histories hold exactly 7 and 5 slots; every tick function keeps it |
| History.Zeros | src/background.ts:40-41 | `k` slots, every one zero |
| History.Take | src/background.ts:54 | `slice(0, n)` keeps the first `min(n, length)` elements unchanged |
| History.LoopCount | src/background.ts:51 | `min(diff, bound)` iterations, none for a non-positive difference, at most `bound` |
| History.SetFirst | src/background.ts:91 | writing slot 0 sets it, keeps every other slot, and creates it in an empty array |
| History.ShiftZeros | src/background.ts:50-54 | after rollover the first `k` slots are zero and the rest are the old slots moved by `k`, truncated to the bound |
| History.PushTotal | src/background.ts:86-87 | after `unshift(total)` and `slice` slot 0 is the total and each old slot moves up by one, truncated to the bound |
| History.PrependZeros | src/background.ts:51-53 | the `unshift(0)` loop prepends exactly `max(0, n)` zeros |
| History.ShiftInZeros | src/background.ts:50-54 | the loop followed by `slice` computes the shifted history |
| History.Rollover | src/background.ts:45-70 | a rollover stamps `lastUpdated`, keeps `longestSession` unless told to reset it, and keeps histories bounded (and full when full) |
| History.Accumulate | src/background.ts:74-104 | an accruing update stamps `lastUpdated`, keeps `longestSession` and keeps histories bounded (and full when full) |
| History.RollHistories | src/background.ts:45-70 | the in-place rollover (loops, `slice`s, field writes) computes `Rollover` |
| History.AddMinutes | src/background.ts:77-104 | the in-place accrual (`+=`, `unshift`/`slice` or slot-0 write) computes `Accumulate` |
| History.RolloverDaily | src/background.ts:49-56 | on the same day the daily part is untouched; otherwise `take(7, zeros(k) ++ old)` and a zero total |
| History.RolloverWeekly | src/background.ts:58-66 | in the same week the weekly part is untouched; otherwise `take(5, zeros(k) ++ old)`, a zero total and, for the worker, a zero `longestSession` |
| History.AccumulateDaily | src/background.ts:85-92 | on the same day the total grows by the minutes and is written to slot 0; on a new day the grown total is pushed and the total restarts at the minutes |
| History.AccumulateWeekly | src/background.ts:95-102 | the same for the weekly total and history |
| Accrual.WatchedMinutes | src/background.ts:75 | elapsed minutes are zero, positive or negative as the elapsed time is; nothing is clamped |
| Accrual.StoredOrZero | src/background.ts:35-42 | the stored record or, when none, the zeroed one stamped with today's midnight; `Tick` states what a tick writes from it |
| Accrual.MaintenanceTick | src/background.ts:45-70 | the maintenance tick stamps today's midnight and keeps histories bounded and full |
| Accrual.ActiveTick | src/background.ts:74-104 | the accruing tick stamps today's midnight, never changes `longestSession`, and keeps histories bounded and full |
| Accrual.Tick | src/background.ts:34-106 | a tick over any stored record or none writes today's midnight, with bounded (and full) histories |
| Accrual.MaintenanceDaily | src/background.ts:49-56 | maintenance inserts `max(0, min(daysDiff, 7))` zero slots and resets the daily total exactly when the day changed |
| Accrual.MaintenanceWeekly | src/background.ts:58-66 | maintenance on a week change inserts `max(0, min(floor(daysDiff / 7), 5))` zero slots and resets the weekly total and `longestSession` |
| Accrual.ShortWeekChangeInsertsNothing | src/background.ts:59-63 | a week change fewer than 7 days after the last update inserts no slot and only resets the total |
| Accrual.MaintenanceIdempotent | src/background.ts:45-70 | a second maintenance tick on the same day changes nothing |
| Accrual.ActiveSameDay | src/background.ts:77-101 | in the same day and week both totals grow by exactly the minutes, slot 0 holds the new totals and every other slot is unchanged |
| Accrual.ActiveNewDay | src/background.ts:85-89 | on a new day exactly one slot, old total plus minutes, is pushed however many days elapsed, and the total restarts at the minutes |
| Accrual.ActiveNewWeek | src/background.ts:95-99 | on a new week one slot, old weekly total plus minutes, is pushed and the weekly total restarts at the minutes |
| Accrual.NewDayKeepsStaleMirror | src/background.ts:85-92 | when slot 0 mirrors the old total, a new-day tick leaves that mirror in slot 1 beside the pushed sum |
| Accrual.NewDayBreaksMirror | src/background.ts:76-92 | after a new-day tick, slot 0 equals the restarted total exactly when the old total was zero |
| Accrual.NextTickRepairs | src/background.ts:76-92 | a second tick on the same new day puts today's total in slot 0 and leaves the old total alone in slot 1 |
| Accrual.StartTickAccruesNothing | src/background.ts:74-78 | a tick with no elapsed time on the stored day leaves both totals as they were |
| Accrual.RolloverOnly | src/background.ts:45-70 | the maintenance path as run computes the maintenance tick |
| Accrual.Accrue | src/background.ts:74-104 | the accruing path as run computes the accruing tick |
| Limits.LimitDecision | src/background.ts:111-136 | no settings: no action; block now exactly when a remainder is at most 0; defer exactly when both are positive and one is at most 1, with delay `min(remainders) * 60000` in (0, 60000], so the fallback at 132-135 cannot be reached |
| Limits.WeeklyLimitCrossed | src/background.ts:113-118 | one instance: 580 weekly minutes plus a 25-minute tick against a 600-minute limit blocks at once (the general rule is `LimitDecision`'s contract) |
| Limits.DailyLimitDeferred | src/background.ts:119-131 | one instance: 29.5 daily minutes against the 30-minute default defers the block by 30000 ms (the general rule is `LimitDecision`'s contract) |
| Worker.BlockMessages | src/background.ts:140-145 | the broadcast has one `BLOCK_PLAYBACK` per tab, in tab order |
| Worker.Includes | src/background.ts:178 | `includes` as a substring test; `TabOnWatchPage` relies on a watch URL also containing `netflix.com/` |
| Worker.PageMessages | src/background.ts:188-198 | `HIDE_RECOMMENDATIONS` for `/browse`, then `SEARCH_PAGE` for `/search`; `SendPageMessages` is proved to send exactly these |
| Worker.Loaded | src/background.ts:1-3 | the state as the script loads; `LoadedInv` proves it satisfies the invariant with no session |
| Worker.Inv | src/background.ts:5-19 | histories bounded and an existing alarm has a listener; `StepKeepsInv` and `RunKeepsInv` prove every event keeps it |
| Worker.Started | src/background.ts:45 | `!watchStartTime` is false; `StartEffects`, `StepKeepsStarted` and `RunKeepsStarted` state when it holds |
| Worker.TickAction | src/background.ts:108-136 | the limit decision taken after an accruing tick, none before a start; `TickWhenStarted` states it |
| Worker.TickStep | src/background.ts:33-138 | one `updateWatchTime`; `TickBeforeStart` and `TickWhenStarted` state its two paths in full |
| Worker.StartStep | src/background.ts:152-161 | the `WATCHING_STARTED` branch; `StartEffects` and `StartAccruesNothing` state its effects |
| Worker.PauseStep | src/background.ts:163-171 | a tick, then the alarm removed; `PausedTimeCounted` and `ClearedAlarmIsSilent` state its effects |
| Worker.MessageStep | src/background.ts:148-175 | the message switch; `MessageKeepsInv` proves it keeps the invariant, `OnMessage` is proved equal to it |
| Worker.TabStep | src/background.ts:177-200 | the tab router; `TabIgnoresOtherSites`, `TabOnWatchPage` and `TabOffWatchPage` state each of its cases |
| Worker.InstalledStep | src/background.ts:202-223 | the install seeding; `InstalledSeedsOnce` states both cases and that repeating it changes nothing |
| Worker.TickTimes | src/background.ts:10-14 | as many ticks in a row as listeners are registered; `TickTimesKeepsInv` and `FiringAlarmTicks` state its effects |
| Worker.AlarmStep | src/background.ts:10-14 | a `checkWatchTime` alarm runs one tick per listener, other names nothing; `FiringAlarmTicks` shows at least one tick runs |
| Worker.DeferredBlockStep | src/background.ts:128-131 | a firing timer; `DeferredBlockEffects` states its effects |
| Worker.Enabled | src/background.ts:17-19 | a deferred block fires only while pending and the alarm only while it exists; `ClearedAlarmIsSilent` shows which handlers remove and create the alarm |
| Worker.Step | src/background.ts:148-223 | the handler of one event; `StepKeepsInv` and `StepKeepsStarted` state what every event keeps |
| Worker.Run | src/background.ts:148-223 | events handled one after another; `RunKeepsInv` and `RunKeepsStarted` state what every run keeps |
| Worker.BackgroundWorker.State | src/background.ts:1-3 | the worker's fields as one value, the state every handler method is proved against |
| Worker.BackgroundWorker.constructor | src/background.ts:1-3 | the worker loads with no session, `lastUpdateTime` at load time, no alarm and no listener |
| Worker.BackgroundWorker.SetupAlarms | src/background.ts:5-15 | the alarm exists afterwards and one more listener is registered |
| Worker.BackgroundWorker.ClearAlarms | src/background.ts:17-19 | the alarm is gone and the listeners are kept |
| Worker.BackgroundWorker.BlockPlayback | src/background.ts:140-145 | the loop appends the broadcast to the outbox |
| Worker.BackgroundWorker.ApplyLimit | src/background.ts:116-136 | the decision either appends a broadcast or adds one pending timer due at `now + delay` |
| Worker.BackgroundWorker.UpdateWatchTime | src/background.ts:33-138 | the whole new worker state is the tick step of the old one |
| Worker.BackgroundWorker.WatchingStarted | src/background.ts:152-161 | the new state is the start step: flags, listener, clocks, then a tick |
| Worker.BackgroundWorker.TickAndClearAlarm | src/background.ts:163-171 | the new state is a tick followed by clearing the alarm |
| Worker.BackgroundWorker.SendPageMessages | src/background.ts:188-198 | `/browse` and `/search` URLs get their page messages, in that order |
| Worker.BackgroundWorker.OnMessage | src/background.ts:148-175 | the new state is the message step for the action; other actions change nothing |
| Worker.BackgroundWorker.OnTabUpdated | src/background.ts:177-200 | the new state is the router step for that tab and URL |
| Worker.BackgroundWorker.OnInstalled | src/background.ts:202-223 | the new state is the install step |
| Worker.BackgroundWorker.OnAlarm | src/background.ts:10-14 | a `checkWatchTime` alarm runs one tick per registered listener; other alarms change nothing |
| Worker.BackgroundWorker.FireDeferredBlock | src/background.ts:128-131 | a due timer is removed, the alarm is cleared and a block is broadcast |
| Worker.TickBeforeStart | src/background.ts:44-71 | before any start a tick only rolls the record over: no minutes, no limit check, no message, `lastUpdateTime` kept |
| Worker.TickWhenStarted | src/background.ts:73-137 | after a start a tick accrues from `lastUpdateTime`, moves it to `now`, and acts on the limit decision for the totals it wrote |
| Worker.TickKeepsInv | src/background.ts:33-138 | a tick keeps histories bounded and only appends to the outbox and to the pending timers |
| Worker.TickTimesKeepsInv | src/background.ts:10-14 | any number of listener ticks keeps the invariant and the listener count, and only appends |
| Worker.StartKeepsInv | src/background.ts:152-161 | a start keeps the invariant (an existing alarm has a listener) and only appends |
| Worker.PauseKeepsInv | src/background.ts:163-171 | a pause or stop keeps the invariant and only appends |
| Worker.MessageKeepsInv | src/background.ts:148-175 | every message keeps the invariant and only appends |
| Worker.TabKeepsInv | src/background.ts:177-200 | every tab update keeps the invariant and only appends |
| Worker.StepKeepsInv | src/background.ts:148-223 | every event keeps the invariant; no message is taken back; only a firing deferred block removes a timer |
| Worker.RunKeepsInv | src/background.ts:148-223 | over any run of events the invariant holds and the outbox only grows |
| Worker.LoadedInv | src/background.ts:1-3 | the loaded worker satisfies the invariant and has no session |
| Worker.StartEffects | src/background.ts:152-161 | a start sets the session and both clocks to `now`, creates the alarm with one more listener, and counts as started exactly when `now` is not 0 |
| Worker.StartAccruesNothing | src/background.ts:158-160 | the tick run by any start at a non-zero instant adds zero minutes to the stored record, or to the zeroed one when nothing is stored |
| Worker.StartOnStoredDay | src/background.ts:158-160 | a start on the stored record's day leaves both totals as they were |
| Worker.StartOnNewDay | src/background.ts:85-89 | the first start of a new day pushes the old day's total unchanged and restarts the daily total at zero |
| Worker.StartAtZeroOnlyRollsOver | src/background.ts:45 | a start at instant 0 leaves `!watchStartTime` true, so its tick only rolls over and sends nothing |
| Worker.PausedTimeCounted | src/background.ts:163-171 | a pause keeps `watchStartTime` and clears the alarm; the next pause step (pause or stop message, or a non-watch Netflix page) counts every minute since the pause |
| Worker.ResumeCountsNothing | src/background.ts:158-160 | a start after a pause counts none of the paused time |
| Worker.ClearedAlarmIsSilent | src/background.ts:17-19 | after a pause step or a fired deferred block the alarm cannot fire; after a start it can |
| Worker.FiringAlarmTicks | src/background.ts:10-14 | when the alarm fires a listener exists and at least one tick runs |
| Worker.StepKeepsStarted | src/background.ts:163-171 | no event at a non-zero instant clears a started session |
| Worker.TickTimesKeepsStarted | src/background.ts:10-14 | any number of listener ticks keeps a started session started |
| Worker.RunKeepsStarted | src/background.ts:158 | after the first start no run of events ever returns a tick to the maintenance path |
| Worker.RepeatedTick | src/background.ts:10-14 | a second listener's tick at the same instant adds nothing and repeats an immediate block broadcast |
| Worker.TabIgnoresOtherSites | src/background.ts:178 | a tab without a URL or outside `netflix.com/` changes nothing |
| Worker.TabOnWatchPage | src/background.ts:179-182 | a watch page only gets `NEW_VIDEO` (and page messages); no tick, alarm untouched |
| Worker.TabOffWatchPage | src/background.ts:183-198 | any other Netflix page gets its page messages first and is then paused as `WATCHING_PAUSED` does, so the tick's block messages follow the page messages |
| Worker.InstalledSeedsOnce | src/background.ts:204-223 | install seeds the default settings and a zeroed record exactly when no settings exist; a second install changes nothing |
| Worker.DeferredBlockEffects | src/background.ts:128-131 | a firing timer removes exactly itself, clears the alarm, broadcasts to the open tabs and leaves stats and session alone |
| StatsService.HistoricalUpdate | src/app/services/stats.service.ts:72-102 | the popup's rollover keeps `longestSession`, stamps today's midnight and keeps histories bounded and full |
| StatsService.DateCheck | src/app/services/stats.service.ts:27-39 | a write happens only over a stored record, stamps today and leaves `longestSession` alone |
| StatsService.UpdateHistoricalData | src/app/services/stats.service.ts:72-102 | the in-place popup rollover computes `HistoricalUpdate` |
| StatsService.CheckDateChanges | src/app/services/stats.service.ts:27-39 | what the method writes is `DateCheck`'s answer for the current day |
| StatsService.DateCheckWritesIffNewDay | src/app/services/stats.service.ts:31-38 | it writes exactly when a record exists and its day is not today |
| StatsService.DateCheckIdempotent | src/app/services/stats.service.ts:36-38 | right after a write, a second call writes nothing |
| StatsService.HistoricalUpdateMatchesWorker | src/app/services/stats.service.ts:72-97 | the popup's rollover is the worker's maintenance tick except that it keeps `longestSession` |
| StatsService.Round | src/app/services/stats.service.ts:55 | `Math.round` lies within half of its argument, halves rounded up |
| StatsService.FormatTime | src/app/services/stats.service.ts:51-56 | hours (`h`) exactly from 120 minutes on, as minutes / 60; minutes (`m`) below, rounded |
| StatsService.BarHeight | src/app/services/stats.service.ts:58-60 | 0 when the maximum is 0; in [0, 100] for a value between 0 and the maximum; 100 at the maximum |
| StatsService.DayLabels | src/app/services/stats.service.ts:62-70 | seven labels |
| StatsService.DayLabelsCountBack | src/app/services/stats.service.ts:66-69 | label `i` names the weekday `i` days before today; label 0 is today |
| StatsService.WeekdayBack | src/app/services/stats.service.ts:67 | `(today - i + 7) % 7` is the weekday `i` days back |
| StatsService.DayNamesDistinct | src/app/services/stats.service.ts:63 | the seven day names differ pairwise |
| StatsService.DayLabelsDistinct | src/app/services/stats.service.ts:62-70 | the seven labels are pairwise distinct |
| BuildUtils.Split | scripts/build-utils.js:65 | `split('.')` gives at least one piece and no piece holds a dot |
| BuildUtils.Join | scripts/build-utils.js:67 | joining with dots; `JoinSplit`, `SplitJoin` and `Join3` state its relation to `Split` and its three-piece form |
| BuildUtils.JoinSplit | scripts/build-utils.js:65-67 | joining the pieces of a split gives the string back |
| BuildUtils.SplitJoin | scripts/build-utils.js:65-67 | splitting a join of dot-free pieces gives the pieces back |
| BuildUtils.TrimStart | scripts/build-utils.js:66 | `parseInt` skips exactly the leading whitespace: what is skipped is whitespace, what is left is a suffix not starting with it |
| BuildUtils.IsJsSpace | scripts/build-utils.js:66 | the whitespace `parseInt` skips; `TrimStart` is stated in terms of it |
| BuildUtils.DigitValue | scripts/build-utils.js:66 | a digit's value is at most 36, which stands for "not a digit" |
| BuildUtils.DigitRun | scripts/build-utils.js:66 | the digit run is the longest prefix of digits of the radix |
| BuildUtils.NatToString | scripts/build-utils.js:66 | the rendering of a natural number is non-empty, all decimal digits, without a leading zero |
| BuildUtils.DigitChar | scripts/build-utils.js:66 | the character of a decimal digit has that digit's value |
| BuildUtils.DigitsValue | scripts/build-utils.js:66 | the value of a digit string; `NatToStringValue` proves it reads a rendering back |
| BuildUtils.IntToString | scripts/build-utils.js:66 | an integer's decimal rendering, with `-` for a negative one; `BumpedHasNoDot` proves it holds no dot |
| BuildUtils.ParseInt | scripts/build-utils.js:66 | `parseInt` without a radix; `ParseDecimal`, `ParseRendering` and `ParseNoDigit` state what it reads |
| BuildUtils.Bumped | scripts/build-utils.js:66 | the new third component; `IncrementComponents` states its place in the result |
| BuildUtils.NatToStringValue | scripts/build-utils.js:66 | the digits of the rendering read back give the number |
| BuildUtils.ParseDecimal | scripts/build-utils.js:66 | a string starting with a decimal digit (and not `0x`) is read as the value of its decimal digit run |
| BuildUtils.ParseRendering | scripts/build-utils.js:66 | `parseInt` reads a decimal rendering back whatever non-digit follows it, except `x` after a lone 0 |
| BuildUtils.DigitRunPrefix | scripts/build-utils.js:66 | the digit run of digits followed by a non-digit is exactly the digits |
| BuildUtils.ParseNoDigit | scripts/build-utils.js:66 | a string that starts with no whitespace, sign or digit reads as NaN |
| BuildUtils.BumpedHasNoDot | scripts/build-utils.js:66 | the new component holds no dot |
| BuildUtils.IncrementVersion | scripts/build-utils.js:64-68 | `incrementVersion`; `IncrementComponents`, `IncrementKeepsOthers`, `IncrementShortVersion` and the `a.b.c` lemmas state what it returns |
| BuildUtils.IncrementComponents | scripts/build-utils.js:64-68 | with at least three components the result's components are the old ones with component 2 replaced by its value plus one rendered (NaN stays NaN) |
| BuildUtils.IncrementKeepsOthers | scripts/build-utils.js:65-67 | with at least three components the count is unchanged and every component except index 2 is unchanged |
| BuildUtils.IncrementShortVersion | scripts/build-utils.js:66 | with one or two components the array is extended to index 2, any hole rendering empty, and component 2 is `NaN` |
| BuildUtils.Join3 | scripts/build-utils.js:67 | joining three pieces is `a.b.c` |
| BuildUtils.SplitThree | scripts/build-utils.js:65 | `a.b.c` of dot-free pieces splits into those three |
| BuildUtils.NatToStringNoDot | scripts/build-utils.js:66 | a rendering holds no dot |
| BuildUtils.IncrementCanonical | scripts/build-utils.js:64-68 | `a.b.n` becomes `a.b.(n+1)` |
| BuildUtils.IncrementTwice | scripts/build-utils.js:64-68 | two increments of `a.b.n` give `a.b.(n+2)` |
| BuildUtils.IncrementDropsSuffix | scripts/build-utils.js:64-68 | a suffix after the patch number is dropped: `a.b.n-tail` becomes `a.b.(n+1)` |
| BuildUtils.IncrementNonNumeric | scripts/build-utils.js:66 | a third component that starts with no number, an empty one included, becomes `NaN` |

## Left out

- src/content.ts is not part of this model. The actions it sends (`WATCHING_STARTED`, `WATCHING_PAUSED`, `WATCHING_STOPPED`) are inputs.
- The `chrome.*` APIs are modelled as fields: storage areas, an alarm flag, a listener count, an outbox of sent messages and a list of pending timers. The open Netflix tabs that `chrome.tabs.query` returns are a parameter of each event.
- Interleaving of the asynchronous handlers across `await` is left out. Each handler runs to completion, and an event uses one instant `now` throughout. A tick a handler starts without awaiting is placed after the rest of that handler's synchronous code, since it stops at its first storage read; so on a Netflix page that is not a watch page the page messages precede the tick's block messages.
- Real timers are left out. A deferred block is a pending entry with its due instant. Firing it is an event, and the model does not order those by due time.
- An alarm's period is left out. An alarm firing is an event.
- Time zones, daylight saving, `toISOString` and `new Date(string)` are left out. Every local day lasts 86 400 000 ms, and a stored `lastUpdated` is a local instant.
- The tab listener is modelled with its second argument carrying an optional `url`. The code names it `tab`; under the browser API it is the change record.
- Numbers are exact: milliseconds are integers and minutes are reals, not IEEE doubles.
- StatsService.FormatTime: the hours amount is minutes / 60 exactly; `toFixed(1)` is not modelled, only the suffix choice and the amount before formatting.
- BuildUtils.IntToString: no exponent notation for magnitudes of 10^21 and above, and no loss of precision beyond 2^53 in `parseInt`.
- BuildUtils.IsJsSpace: `parseInt`'s whitespace set is listed character by character, with no Unicode database behind it.
- `seedTestData`, the `onStartup` and `onConnect` logging listeners and `console.log` calls are left out; they change no state the model has.
- The Angular UI components and the build tooling other than `incrementVersion` are left out.
