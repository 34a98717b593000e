/** The limit evaluator at the end of each accruing tick, and the synced settings it reads. */
module Limits {
  import opened Wrappers

  /** The `netflixSettings` record in synced storage. */
  datatype Settings = Settings(
    dailyLimit: real,
    weeklyLimit: real,
    hideRecommendations: bool,
    disableAutoplay: bool,
    showEndTime: bool)

  /** The settings seeded on first install. */
  const DefaultSettings: Settings := Settings(30.0, 200.0, true, true, true)

  /** What the evaluator does: nothing, broadcast a block now, or start a
      timer that broadcasts a block after `delayMs` milliseconds. */
  datatype LimitAction = NoAction | BlockNow | BlockAfter(delayMs: real)

  function Min(a: real, b: real): real { if a <= b then a else b }

  /** The decision taken from the settings and the new totals: `timeLeft`
      remainders in minutes, an immediate block when one is used up, a
      deferred block when one is within a minute of running out. */
  function LimitDecision(settings: Option<Settings>, daily: real, weekly: real): (act: LimitAction)
    ensures settings.None? ==> act == NoAction
    ensures settings.Some? ==>
      var dailyLeft, weeklyLeft := settings.value.dailyLimit - daily, settings.value.weeklyLimit - weekly;
      && (act == BlockNow <==> dailyLeft <= 0.0 || weeklyLeft <= 0.0)
      && (act.BlockAfter? <==> dailyLeft > 0.0 && weeklyLeft > 0.0 && (dailyLeft <= 1.0 || weeklyLeft <= 1.0))
      && (act.BlockAfter? ==> act.delayMs == Min(dailyLeft, weeklyLeft) * 60000.0)
      && (act.BlockAfter? ==> 0.0 < act.delayMs <= 60000.0)
  {
    if settings.None? then NoAction
    else
      var dailyLeft := settings.value.dailyLimit - daily;
      var weeklyLeft := settings.value.weeklyLimit - weekly;
      if dailyLeft <= 0.0 || weeklyLeft <= 0.0 then BlockNow
      else if dailyLeft <= 1.0 || weeklyLeft <= 1.0 then
        var timeLeftMs := Min(if dailyLeft > 0.0 then dailyLeft * 60000.0 else 0.0,
                              if weeklyLeft > 0.0 then weeklyLeft * 60000.0 else 0.0);
        if timeLeftMs > 0.0 then BlockAfter(timeLeftMs) else BlockNow
      else NoAction
  }

  /** 580 weekly minutes against a 600-minute limit: a tick of 25 minutes blocks at once. */
  lemma WeeklyLimitCrossed()
    ensures LimitDecision(Some(DefaultSettings.(weeklyLimit := 600.0, dailyLimit := 1000.0)), 25.0, 580.0 + 25.0) == BlockNow
  {
  }

  /** 29 daily minutes plus a tick of half a minute against the 30-minute default:
      a block is deferred by 30 seconds. */
  lemma DailyLimitDeferred()
    ensures LimitDecision(Some(DefaultSettings), 29.5, 29.5) == BlockAfter(30000.0)
  {
  }
}
