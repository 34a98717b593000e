/** The background worker: its module-level session variables, the alarm,
    the two storage areas, the messages it sends to tabs and its pending
    block timers, and the event handlers that change them. Each handler runs
    to completion before the next event. */
module Worker {
  import opened Wrappers
  import opened Calendar
  import opened History
  import opened Accrual
  import opened Limits

  const CheckWatchTime: string := "checkWatchTime"

  /** The `type` of a message sent to a tab's content script. */
  datatype MessageKind = BlockPlaybackMsg | NewVideo | HideRecommendations | SearchPage

  /** One message of a given type sent to one tab's content script. */
  datatype TabMessage = TabMessage(tabId: int, kind: MessageKind)

  /** The broadcast of `blockPlayback`: one `BLOCK_PLAYBACK` per open Netflix tab, in order. */
  function BlockMessages(tabs: seq<int>): (ms: seq<TabMessage>)
    ensures |ms| == |tabs|
    ensures forall i :: 0 <= i < |tabs| ==> ms[i] == TabMessage(tabs[i], BlockPlaybackMsg)
  {
    if tabs == [] then [] else [TabMessage(tabs[0], BlockPlaybackMsg)] + BlockMessages(tabs[1..])
  }

  /** `s.includes(pat)`. */
  predicate Includes(s: string, pat: string)
  {
    exists i :: 0 <= i <= |s| && pat <= s[i..]
  }

  /** The page-specific messages of the tab router, after the watch/other split. */
  function PageMessages(tabId: int, url: string): seq<TabMessage>
  {
    (if Includes(url, "netflix.com/browse") then [TabMessage(tabId, HideRecommendations)] else [])
    + (if Includes(url, "netflix.com/search") then [TabMessage(tabId, SearchPage)] else [])
  }

  /** Everything the worker's handlers read and write. */
  datatype WorkerState = WorkerState(
    watchStartTime: Option<int>,
    lastUpdateTime: int,
    alarmSetup: bool,
    alarmActive: bool,
    alarmListeners: nat,
    localStats: Option<WatchStats>,
    syncSettings: Option<Settings>,
    outbox: seq<TabMessage>,
    pendingBlocks: seq<real>)

  /** The state as the worker script is loaded at `loadTime`. */
  function Loaded(loadTime: int, stats: Option<WatchStats>, settings: Option<Settings>): WorkerState
  {
    WorkerState(None, loadTime, false, false, 0, stats, settings, [], [])
  }

  /** What every handler keeps: bounded histories, and a listener behind an existing alarm. */
  predicate Inv(s: WorkerState)
  {
    && (s.localStats.Some? ==> WithinBounds(s.localStats.value))
    && (s.alarmActive ==> s.alarmListeners > 0)
  }

  /** `!watchStartTime` is false: a session was started at a non-zero instant. */
  predicate Started(s: WorkerState)
  {
    s.watchStartTime.Some? && s.watchStartTime.value != 0
  }

  /** What the limit check after an accruing tick does with the record it wrote. */
  function TickAction(s: WorkerState, written: WatchStats): LimitAction
  {
    if Started(s) then LimitDecision(s.syncSettings, written.dailyWatchTime, written.weeklyWatchTime)
    else NoAction
  }

  /** `updateWatchTime` at instant `now` with `tabs` the open Netflix tabs. */
  function TickStep(s: WorkerState, now: int, tabs: seq<int>): WorkerState
  {
    var written := Tick(s.localStats, Started(s), s.lastUpdateTime, now);
    var act := TickAction(s, written);
    s.(localStats := Some(written),
       lastUpdateTime := if Started(s) then now else s.lastUpdateTime,
       outbox := s.outbox + (if act == BlockNow then BlockMessages(tabs) else []),
       pendingBlocks := s.pendingBlocks + (if act.BlockAfter? then [now as real + act.delayMs] else []))
  }

  /** `WATCHING_STARTED`: `alarmSetup` set, `setupAlarms()`, both clocks set to `now`, a tick. */
  function StartStep(s: WorkerState, now: int, tabs: seq<int>): WorkerState
  {
    TickStep(s.(alarmSetup := true, alarmActive := true, alarmListeners := s.alarmListeners + 1,
                watchStartTime := Some(now), lastUpdateTime := now), now, tabs)
  }

  /** A tick followed by removing the alarm, as a pause or stop message and a
      move to a Netflix page other than a watch page do. */
  function PauseStep(s: WorkerState, now: int, tabs: seq<int>): WorkerState
  {
    TickStep(s, now, tabs).(alarmActive := false)
  }

  /** The `chrome.runtime.onMessage` handler. */
  function MessageStep(s: WorkerState, action: string, now: int, tabs: seq<int>): WorkerState
  {
    if action == "WATCHING_STARTED" then StartStep(s, now, tabs)
    else if action == "WATCHING_PAUSED" || action == "WATCHING_STOPPED" then PauseStep(s, now, tabs)
    else s
  }

  /** The `chrome.tabs.onUpdated` router for tab `tabId` reporting `url`.
      Off a watch page the tick is started without being awaited: it stops
      at its first storage read, so the router's page messages go out before
      anything the tick sends. */
  function TabStep(s: WorkerState, tabId: int, url: Option<string>, now: int, tabs: seq<int>): WorkerState
  {
    if url.Some? && Includes(url.value, "netflix.com/") then
      if Includes(url.value, "netflix.com/watch") then
        s.(outbox := s.outbox + [TabMessage(tabId, NewVideo)] + PageMessages(tabId, url.value))
      else PauseStep(s.(outbox := s.outbox + PageMessages(tabId, url.value)), now, tabs)
    else s
  }

  /** The `chrome.runtime.onInstalled` handler at instant `now`. */
  function InstalledStep(s: WorkerState, now: int): WorkerState
  {
    if s.syncSettings.None? then s.(syncSettings := Some(DefaultSettings), localStats := Some(ZeroStats(now)))
    else s
  }

  /** `k` ticks in a row at the same instant. */
  function TickTimes(s: WorkerState, k: nat, now: int, tabs: seq<int>): WorkerState
  {
    if k == 0 then s else TickStep(TickTimes(s, k - 1, now, tabs), now, tabs)
  }

  /** The alarm `name` fires: every registered listener ticks when it is `checkWatchTime`. */
  function AlarmStep(s: WorkerState, name: string, now: int, tabs: seq<int>): WorkerState
  {
    if name == CheckWatchTime then TickTimes(s, s.alarmListeners, now, tabs) else s
  }

  /** Deferred block timer `i` fires: the alarm is removed, then a block is broadcast. */
  function DeferredBlockStep(s: WorkerState, i: nat, tabs: seq<int>): WorkerState
    requires i < |s.pendingBlocks|
  {
    s.(pendingBlocks := s.pendingBlocks[..i] + s.pendingBlocks[i + 1..],
       alarmActive := false,
       outbox := s.outbox + BlockMessages(tabs))
  }

  class BackgroundWorker {
    /** `watchStartTime`: null until the first `WATCHING_STARTED`. */
    var watchStartTime: Option<int>
    /** `lastUpdateTime`: the instant the last accruing tick counted up to. */
    var lastUpdateTime: int
    /** `alarmSetup`: set by the first start; read only by the test that sets it. */
    var alarmSetup: bool
    /** Whether the periodic `checkWatchTime` alarm exists. */
    var alarmActive: bool
    /** How many `onAlarm` listeners `setupAlarms` has registered. */
    var alarmListeners: nat
    /** `chrome.storage.local` key `watchStats`. */
    var localStats: Option<WatchStats>
    /** `chrome.storage.sync` key `netflixSettings`. */
    var syncSettings: Option<Settings>
    /** Every message sent to a tab, oldest first. */
    var outbox: seq<TabMessage>
    /** Due instants of the deferred block timers started so far and not yet fired. */
    var pendingBlocks: seq<real>

    /** The worker's fields as one value. */
    function State(): WorkerState
      reads this
    {
      WorkerState(watchStartTime, lastUpdateTime, alarmSetup, alarmActive, alarmListeners,
                  localStats, syncSettings, outbox, pendingBlocks)
    }

    /** The worker as loaded at `loadTime` over whatever storage holds. */
    constructor (loadTime: int, stats: Option<WatchStats>, settings: Option<Settings>)
      ensures State() == Loaded(loadTime, stats, settings)
    {
      watchStartTime := None;
      lastUpdateTime := loadTime;
      alarmSetup := false;
      alarmActive := false;
      alarmListeners := 0;
      localStats := stats;
      syncSettings := settings;
      outbox := [];
      pendingBlocks := [];
    }

    /** `setupAlarms`: creates (or replaces) the periodic alarm and registers one more listener. */
    method SetupAlarms()
      modifies this`alarmActive, this`alarmListeners
      ensures alarmActive && alarmListeners == old(alarmListeners) + 1
    {
      alarmActive := true;
      alarmListeners := alarmListeners + 1;
    }

    /** `clearAlarms`: removes the periodic alarm; the listeners stay. */
    method ClearAlarms()
      modifies this`alarmActive
      ensures !alarmActive
    {
      alarmActive := false;
    }

    /** `blockPlayback`: sends `BLOCK_PLAYBACK` to each open Netflix tab. */
    method BlockPlayback(tabs: seq<int>)
      modifies this`outbox
      ensures outbox == old(outbox) + BlockMessages(tabs)
    {
      for i := 0 to |tabs|
        invariant outbox == old(outbox) + BlockMessages(tabs[..i])
      {
        BlockMessagesSnoc(tabs[..i], tabs[i]);
        assert tabs[..i + 1] == tabs[..i] + [tabs[i]];
        outbox := outbox + [TabMessage(tabs[i], BlockPlaybackMsg)];
      }
      assert tabs[..|tabs|] == tabs;
    }

    /** The limit check's effect: a broadcast now, or one more pending timer. */
    method ApplyLimit(act: LimitAction, now: int, tabs: seq<int>)
      modifies this`outbox, this`pendingBlocks
      ensures outbox == old(outbox) + (if act == BlockNow then BlockMessages(tabs) else [])
      ensures pendingBlocks == old(pendingBlocks) + (if act.BlockAfter? then [now as real + act.delayMs] else [])
    {
      if act == BlockNow {
        BlockPlayback(tabs);
      } else if act.BlockAfter? {
        pendingBlocks := pendingBlocks + [now as real + act.delayMs];
      }
    }

    /** `updateWatchTime` at instant `now`; `tabs` are the open Netflix tabs
        a block would be sent to. */
    method UpdateWatchTime(now: int, tabs: seq<int>)
      modifies this
      ensures State() == TickStep(old(State()), now, tabs)
    {
      ghost var s0 := State();
      var stats := StoredOrZero(localStats, now);
      if !Started(State()) {
        stats := RolloverOnly(stats, DayOf(now));
        localStats := Some(stats);
        TickBeforeStart(s0, now, tabs);
        return;
      }
      stats := Accrue(stats, DayOf(now), WatchedMinutes(lastUpdateTime, now));
      localStats := Some(stats);
      lastUpdateTime := now;
      var act := LimitDecision(syncSettings, stats.dailyWatchTime, stats.weeklyWatchTime);
      ApplyLimit(act, now, tabs);
      TickWhenStarted(s0, now, tabs);
    }

    /** The `WATCHING_STARTED` branch of the message handler. */
    method WatchingStarted(now: int, tabs: seq<int>)
      modifies this
      ensures State() == StartStep(old(State()), now, tabs)
    {
      if !alarmSetup {
        alarmSetup := true;
      }
      SetupAlarms();
      watchStartTime := Some(now);
      lastUpdateTime := now;
      assert State() == old(State()).(alarmSetup := true, alarmActive := true,
        alarmListeners := old(alarmListeners) + 1, watchStartTime := Some(now), lastUpdateTime := now);
      UpdateWatchTime(now, tabs);
    }

    /** A tick, then the alarm removed. */
    method TickAndClearAlarm(now: int, tabs: seq<int>)
      modifies this
      ensures State() == PauseStep(old(State()), now, tabs)
    {
      UpdateWatchTime(now, tabs);
      ClearAlarms();
    }

    /** The router's `HIDE_RECOMMENDATIONS` and `SEARCH_PAGE` messages. */
    method SendPageMessages(tabId: int, url: string)
      modifies this`outbox
      ensures outbox == old(outbox) + PageMessages(tabId, url)
    {
      if Includes(url, "netflix.com/browse") {
        outbox := outbox + [TabMessage(tabId, HideRecommendations)];
      }
      if Includes(url, "netflix.com/search") {
        outbox := outbox + [TabMessage(tabId, SearchPage)];
      }
    }

    /** The `chrome.runtime.onMessage` handler for a message with `action`. */
    method OnMessage(action: string, now: int, tabs: seq<int>)
      modifies this
      ensures State() == MessageStep(old(State()), action, now, tabs)
    {
      if action == "WATCHING_STARTED" {
        WatchingStarted(now, tabs);
      } else if action == "WATCHING_PAUSED" || action == "WATCHING_STOPPED" {
        TickAndClearAlarm(now, tabs);
      }
    }

    /** The `chrome.tabs.onUpdated` router for tab `tabId` whose URL is `url`. */
    method OnTabUpdated(tabId: int, url: Option<string>, now: int, tabs: seq<int>)
      modifies this
      ensures State() == TabStep(old(State()), tabId, url, now, tabs)
    {
      if url.Some? && Includes(url.value, "netflix.com/") {
        if Includes(url.value, "netflix.com/watch") {
          outbox := outbox + [TabMessage(tabId, NewVideo)];
          SendPageMessages(tabId, url.value);
        } else {
          SendPageMessages(tabId, url.value);
          TickAndClearAlarm(now, tabs);
        }
      }
    }

    /** The `chrome.runtime.onInstalled` handler: seeds defaults only when no settings exist. */
    method OnInstalled(now: int)
      modifies this`syncSettings, this`localStats
      ensures State() == InstalledStep(old(State()), now)
    {
      if syncSettings.None? {
        syncSettings := Some(DefaultSettings);
        localStats := Some(ZeroStats(now));
      }
    }

    /** The alarm `name` fires at `now`: each registered listener runs in turn. */
    method OnAlarm(name: string, now: int, tabs: seq<int>)
      requires name == CheckWatchTime ==> alarmActive
      modifies this
      ensures State() == AlarmStep(old(State()), name, now, tabs)
    {
      if name == CheckWatchTime {
        var listeners := alarmListeners;
        for k := 0 to listeners
          invariant State() == TickTimes(old(State()), k, now, tabs)
          invariant alarmListeners == listeners
        {
          UpdateWatchTime(now, tabs);
        }
      }
    }

    /** Deferred block timer `i` fires: the alarm is cleared and a block is broadcast. */
    method FireDeferredBlock(i: nat, tabs: seq<int>)
      requires i < |pendingBlocks|
      modifies this
      ensures State() == DeferredBlockStep(old(State()), i, tabs)
    {
      pendingBlocks := pendingBlocks[..i] + pendingBlocks[i + 1..];
      ClearAlarms();
      BlockPlayback(tabs);
    }
  }

  /** Before a session has started, a tick only rolls the stored record
      over: no minutes, no limit check, no message, `lastUpdateTime` kept. */
  lemma TickBeforeStart(s: WorkerState, now: int, tabs: seq<int>)
    requires !Started(s)
    ensures TickStep(s, now, tabs) == s.(localStats := Some(MaintenanceTick(StoredOrZero(s.localStats, now), DayOf(now))))
  {
    assert s.outbox + [] == s.outbox && s.pendingBlocks + [] == s.pendingBlocks;
  }

  /** Once a session has started, a tick accrues the minutes since
      `lastUpdateTime`, moves `lastUpdateTime` to `now` and acts on the limit
      decision for the totals it wrote. */
  lemma TickWhenStarted(s: WorkerState, now: int, tabs: seq<int>)
    requires Started(s)
    ensures var written := ActiveTick(StoredOrZero(s.localStats, now), DayOf(now), WatchedMinutes(s.lastUpdateTime, now));
      var act := LimitDecision(s.syncSettings, written.dailyWatchTime, written.weeklyWatchTime);
      TickStep(s, now, tabs) == s.(localStats := Some(written), lastUpdateTime := now,
        outbox := s.outbox + (if act == BlockNow then BlockMessages(tabs) else []),
        pendingBlocks := s.pendingBlocks + (if act.BlockAfter? then [now as real + act.delayMs] else []))
  {
  }

  lemma BlockMessagesSnoc(tabs: seq<int>, t: int)
    ensures BlockMessages(tabs + [t]) == BlockMessages(tabs) + [TabMessage(t, BlockPlaybackMsg)]
  {
    var ms := BlockMessages(tabs + [t]);
    assert |ms| == |tabs| + 1;
  }

  /** An event the worker reacts to. */
  datatype Event =
    | Message(action: string)
    | TabUpdated(tabId: int, url: Option<string>)
    | Installed
    | Alarm(name: string)
    | DeferredBlock(index: nat)

  /** An event with the instant it happens at and the Netflix tabs then open. */
  datatype Occurrence = At(event: Event, now: int, tabs: seq<int>)

  /** What can happen: a deferred block fires only while its timer is
      pending, and the `checkWatchTime` alarm fires only while it exists. */
  predicate Enabled(s: WorkerState, e: Event)
  {
    && (e.DeferredBlock? ==> e.index < |s.pendingBlocks|)
    && (e.Alarm? && e.name == CheckWatchTime ==> s.alarmActive)
  }

  /** The handler of event `e`, run to completion. */
  function Step(s: WorkerState, e: Event, now: int, tabs: seq<int>): WorkerState
    requires Enabled(s, e)
  {
    match e
    case Message(action) => MessageStep(s, action, now, tabs)
    case TabUpdated(tabId, url) => TabStep(s, tabId, url, now, tabs)
    case Installed => InstalledStep(s, now)
    case Alarm(name) => AlarmStep(s, name, now, tabs)
    case DeferredBlock(i) => DeferredBlockStep(s, i, tabs)
  }

  /** The events in `trace` handled one after another; a deferred block whose
      timer is not pending stops the run. */
  function Run(s: WorkerState, trace: seq<Occurrence>): WorkerState
    decreases |trace|
  {
    if trace == [] || !Enabled(s, trace[0].event) then s
    else Run(Step(s, trace[0].event, trace[0].now, trace[0].tabs), trace[1..])
  }

  /** A tick keeps the histories bounded and touches neither alarm nor listeners. */
  lemma TickKeepsInv(s: WorkerState, now: int, tabs: seq<int>)
    requires Inv(s)
    ensures Inv(TickStep(s, now, tabs))
    ensures s.outbox <= TickStep(s, now, tabs).outbox
    ensures s.pendingBlocks <= TickStep(s, now, tabs).pendingBlocks
  {
    var t := TickStep(s, now, tabs);
    assert t.alarmActive == s.alarmActive && t.alarmListeners == s.alarmListeners;
  }

  lemma {:induction false} TickTimesKeepsInv(s: WorkerState, k: nat, now: int, tabs: seq<int>)
    requires Inv(s)
    ensures Inv(TickTimes(s, k, now, tabs))
    ensures TickTimes(s, k, now, tabs).alarmListeners == s.alarmListeners
    ensures s.outbox <= TickTimes(s, k, now, tabs).outbox
    ensures s.pendingBlocks <= TickTimes(s, k, now, tabs).pendingBlocks
  {
    if k > 0 {
      var t := TickTimes(s, k - 1, now, tabs);
      TickTimesKeepsInv(s, k - 1, now, tabs);
      TickKeepsInv(t, now, tabs);
      assert TickTimes(s, k, now, tabs) == TickStep(t, now, tabs);
    }
  }

  lemma StartKeepsInv(s: WorkerState, now: int, tabs: seq<int>)
    requires Inv(s)
    ensures Inv(StartStep(s, now, tabs))
    ensures s.outbox <= StartStep(s, now, tabs).outbox
    ensures s.pendingBlocks <= StartStep(s, now, tabs).pendingBlocks
  {
    var started := s.(alarmSetup := true, alarmActive := true, alarmListeners := s.alarmListeners + 1,
                      watchStartTime := Some(now), lastUpdateTime := now);
    TickKeepsInv(started, now, tabs);
  }

  lemma PauseKeepsInv(s: WorkerState, now: int, tabs: seq<int>)
    requires Inv(s)
    ensures Inv(PauseStep(s, now, tabs))
    ensures s.outbox <= PauseStep(s, now, tabs).outbox
    ensures s.pendingBlocks <= PauseStep(s, now, tabs).pendingBlocks
  {
    TickKeepsInv(s, now, tabs);
  }

  lemma MessageKeepsInv(s: WorkerState, action: string, now: int, tabs: seq<int>)
    requires Inv(s)
    ensures Inv(MessageStep(s, action, now, tabs))
    ensures s.outbox <= MessageStep(s, action, now, tabs).outbox
    ensures s.pendingBlocks <= MessageStep(s, action, now, tabs).pendingBlocks
  {
    if action == "WATCHING_STARTED" {
      StartKeepsInv(s, now, tabs);
    } else if action == "WATCHING_PAUSED" || action == "WATCHING_STOPPED" {
      PauseKeepsInv(s, now, tabs);
    }
  }

  lemma TabKeepsInv(s: WorkerState, tabId: int, url: Option<string>, now: int, tabs: seq<int>)
    requires Inv(s)
    ensures Inv(TabStep(s, tabId, url, now, tabs))
    ensures s.outbox <= TabStep(s, tabId, url, now, tabs).outbox
    ensures s.pendingBlocks <= TabStep(s, tabId, url, now, tabs).pendingBlocks
  {
    if url.Some? && Includes(url.value, "netflix.com/") && !Includes(url.value, "netflix.com/watch") {
      PauseKeepsInv(s.(outbox := s.outbox + PageMessages(tabId, url.value)), now, tabs);
    }
  }

  /** Every handler keeps the invariant and only ever appends to the messages
      sent; only a firing deferred block removes a pending timer. */
  lemma StepKeepsInv(s: WorkerState, e: Event, now: int, tabs: seq<int>)
    requires Inv(s) && Enabled(s, e)
    ensures Inv(Step(s, e, now, tabs))
    ensures s.outbox <= Step(s, e, now, tabs).outbox
    ensures !e.DeferredBlock? ==> s.pendingBlocks <= Step(s, e, now, tabs).pendingBlocks
  {
    match e
    case Message(action) => MessageKeepsInv(s, action, now, tabs);
    case TabUpdated(tabId, url) => TabKeepsInv(s, tabId, url, now, tabs);
    case Installed =>
    case Alarm(name) =>
      if name == CheckWatchTime {
        TickTimesKeepsInv(s, s.alarmListeners, now, tabs);
      }
    case DeferredBlock(i) =>
  }

  /** Over any run of events the invariant holds throughout and no message sent is ever taken back. */
  lemma {:induction false} RunKeepsInv(s: WorkerState, trace: seq<Occurrence>)
    requires Inv(s)
    ensures Inv(Run(s, trace))
    ensures s.outbox <= Run(s, trace).outbox
    decreases |trace|
  {
    if trace != [] && Enabled(s, trace[0].event) {
      var o := trace[0];
      StepKeepsInv(s, o.event, o.now, o.tabs);
      RunKeepsInv(Step(s, o.event, o.now, o.tabs), trace[1..]);
    }
  }

  /** The worker as loaded satisfies the invariant when storage holds a bounded record. */
  lemma LoadedInv(loadTime: int, stats: Option<WatchStats>, settings: Option<Settings>)
    requires stats.Some? ==> WithinBounds(stats.value)
    ensures Inv(Loaded(loadTime, stats, settings))
    ensures !Started(Loaded(loadTime, stats, settings))
  {
  }

  /** `WATCHING_STARTED` at `now`: the session and both clocks start at `now`,
      the alarm exists with one more listener, and the tick after it accrues
      as of `now` exactly when `now` is not 0 (`!watchStartTime` is true of 0). */
  lemma StartEffects(s: WorkerState, now: int, tabs: seq<int>)
    ensures var r := StartStep(s, now, tabs);
      && r.watchStartTime == Some(now)
      && r.lastUpdateTime == now
      && r.alarmActive && r.alarmSetup
      && r.alarmListeners == s.alarmListeners + 1
      && (Started(r) <==> now != 0)
      && s.outbox <= r.outbox && s.pendingBlocks <= r.pendingBlocks
  {
    var started := s.(alarmSetup := true, alarmActive := true, alarmListeners := s.alarmListeners + 1,
                      watchStartTime := Some(now), lastUpdateTime := now);
    assert started.outbox == s.outbox && started.pendingBlocks == s.pendingBlocks;
  }

  /** The tick a start runs adds no minutes, whatever is stored: the
      session clock was just set to `now`. On a new day that tick still
      closes the old day, pushing its total with nothing added. */
  lemma StartAccruesNothing(s: WorkerState, now: int, tabs: seq<int>)
    requires now != 0
    ensures StartStep(s, now, tabs).localStats == Some(ActiveTick(StoredOrZero(s.localStats, now), DayOf(now), 0.0))
  {
    var started := s.(alarmSetup := true, alarmActive := true, alarmListeners := s.alarmListeners + 1,
                      watchStartTime := Some(now), lastUpdateTime := now);
    TickWhenStarted(started, now, tabs);
  }

  /** A start on the stored record's own day leaves both totals as they were. */
  lemma StartOnStoredDay(s: WorkerState, now: int, tabs: seq<int>)
    requires now != 0
    requires s.localStats.Some? && DayOf(s.localStats.value.lastUpdated) == DayOf(now)
    ensures var r := StartStep(s, now, tabs);
      && r.localStats.Some?
      && r.localStats.value.dailyWatchTime == s.localStats.value.dailyWatchTime
      && r.localStats.value.weeklyWatchTime == s.localStats.value.weeklyWatchTime
  {
    StartAccruesNothing(s, now, tabs);
    StartTickAccruesNothing(s.localStats.value, now);
  }

  /** The first start of a new day pushes the stored day's total unchanged
      and restarts the daily total at zero. */
  lemma StartOnNewDay(s: WorkerState, now: int, tabs: seq<int>)
    requires now != 0
    requires s.localStats.Some? && DayOf(s.localStats.value.lastUpdated) != DayOf(now)
    ensures var before, r := s.localStats.value, StartStep(s, now, tabs);
      && r.localStats.Some?
      && r.localStats.value.dailyWatchTime == 0.0
      && r.localStats.value.dailyHistory == Take([before.dailyWatchTime] + before.dailyHistory, DailySlots)
  {
    var stats := s.localStats.value;
    StartAccruesNothing(s, now, tabs);
    ActiveNewDay(stats, DayOf(now), 0.0);
    assert stats.dailyWatchTime + 0.0 == stats.dailyWatchTime;
  }

  /** A start at instant 0 leaves `watchStartTime` falsy, so its tick only rolls the record over. */
  lemma StartAtZeroOnlyRollsOver(s: WorkerState, tabs: seq<int>)
    ensures var r := StartStep(s, 0, tabs);
      && r.localStats == Some(MaintenanceTick(StoredOrZero(s.localStats, 0), 0))
      && r.outbox == s.outbox && r.pendingBlocks == s.pendingBlocks
  {
    var started := s.(alarmSetup := true, alarmActive := true, alarmListeners := 0 + s.alarmListeners + 1,
                      watchStartTime := Some(0), lastUpdateTime := 0);
    TickBeforeStart(started, 0, tabs);
  }

  /** A pause or stop keeps `watchStartTime`, so the session still counts as
      started, and removes the alarm. The next pause step (another pause or
      stop message, or a move to a Netflix page that is not a watch page)
      adds every minute since the pause, paused time included. */
  lemma PausedTimeCounted(s: WorkerState, paused: int, later: int, tabs: seq<int>)
    requires Started(s)
    ensures var p := PauseStep(s, paused, tabs);
      && p.watchStartTime == s.watchStartTime && Started(p) && !p.alarmActive
      && p.lastUpdateTime == paused
      && PauseStep(p, later, tabs).localStats
         == Some(ActiveTick(p.localStats.value, DayOf(later), WatchedMinutes(paused, later)))
  {
    TickWhenStarted(s, paused, tabs);
    var p := PauseStep(s, paused, tabs);
    TickWhenStarted(p, later, tabs);
  }

  /** Resuming after a pause counts none of the paused time: the start resets
      the session clock before its tick. */
  lemma ResumeCountsNothing(s: WorkerState, paused: int, later: int, tabs: seq<int>)
    requires later != 0
    ensures var p := PauseStep(s, paused, tabs);
      StartStep(p, later, tabs).localStats == Some(ActiveTick(p.localStats.value, DayOf(later), 0.0))
  {
    StartAccruesNothing(PauseStep(s, paused, tabs), later, tabs);
  }

  /** After a pause, a stop or a firing deferred block the alarm is gone, so
      it cannot fire until the next start creates it again. */
  lemma ClearedAlarmIsSilent(s: WorkerState, now: int, tabs: seq<int>)
    ensures !Enabled(PauseStep(s, now, tabs), Alarm(CheckWatchTime))
    ensures forall i :: 0 <= i < |s.pendingBlocks| ==>
      !Enabled(DeferredBlockStep(s, i, tabs), Alarm(CheckWatchTime))
    ensures Enabled(StartStep(s, now, tabs), Alarm(CheckWatchTime))
  {
  }

  /** When the alarm fires it exists, so at least one listener is registered
      and at least one tick runs. */
  lemma FiringAlarmTicks(s: WorkerState, now: int, tabs: seq<int>)
    requires Inv(s) && Enabled(s, Alarm(CheckWatchTime))
    ensures s.alarmListeners > 0
    ensures AlarmStep(s, CheckWatchTime, now, tabs) == TickStep(TickTimes(s, s.alarmListeners - 1, now, tabs), now, tabs)
  {
  }

  /** No handler clears `watchStartTime`: once a session has started, every
      later event at a non-zero instant leaves it started. */
  lemma StepKeepsStarted(s: WorkerState, e: Event, now: int, tabs: seq<int>)
    requires Started(s) && Enabled(s, e) && now != 0
    ensures Started(Step(s, e, now, tabs))
  {
    match e
    case Alarm(name) =>
      if name == CheckWatchTime {
        TickTimesKeepsStarted(s, s.alarmListeners, now, tabs);
      }
    case _ =>
  }

  lemma {:induction false} TickTimesKeepsStarted(s: WorkerState, k: nat, now: int, tabs: seq<int>)
    requires Started(s)
    ensures Started(TickTimes(s, k, now, tabs))
  {
    if k > 0 {
      TickTimesKeepsStarted(s, k - 1, now, tabs);
    }
  }

  /** After the first start, no run of events at non-zero instants ever
      brings a tick back to the maintenance path. */
  lemma {:induction false} RunKeepsStarted(s: WorkerState, trace: seq<Occurrence>)
    requires Started(s)
    requires forall k :: 0 <= k < |trace| ==> trace[k].now != 0
    ensures Started(Run(s, trace))
    decreases |trace|
  {
    if trace != [] && Enabled(s, trace[0].event) {
      var o := trace[0];
      StepKeepsStarted(s, o.event, o.now, o.tabs);
      assert forall k :: 0 <= k < |trace[1..]| ==> trace[1..][k].now == trace[k + 1].now;
      RunKeepsStarted(Step(s, o.event, o.now, o.tabs), trace[1..]);
    }
  }

  /** Ticking twice at one instant, as two alarm listeners do: the second
      tick adds no minutes and, when the first broadcast a block, broadcasts it again. */
  lemma RepeatedTick(s: WorkerState, now: int, tabs: seq<int>)
    requires Started(s)
    ensures var s1 := TickStep(s, now, tabs);
      var s2 := TickStep(s1, now, tabs);
      && s2.localStats.value.dailyWatchTime == s1.localStats.value.dailyWatchTime
      && s2.localStats.value.weeklyWatchTime == s1.localStats.value.weeklyWatchTime
      && (TickAction(s, s1.localStats.value) == BlockNow ==>
            s2.outbox == s.outbox + BlockMessages(tabs) + BlockMessages(tabs))
  {
    TickWhenStarted(s, now, tabs);
    var s1 := TickStep(s, now, tabs);
    TickWhenStarted(s1, now, tabs);
    StartTickAccruesNothing(s1.localStats.value, now);
  }

  /** The router ignores a URL outside Netflix and a tab without one. */
  lemma TabIgnoresOtherSites(s: WorkerState, tabId: int, url: Option<string>, now: int, tabs: seq<int>)
    requires url.None? || !Includes(url.value, "netflix.com/")
    ensures TabStep(s, tabId, url, now, tabs) == s
  {
  }

  /** A watch page gets `NEW_VIDEO` (then any page messages) and nothing else
      changes: the tick and the alarm are left alone. */
  lemma TabOnWatchPage(s: WorkerState, tabId: int, url: string, now: int, tabs: seq<int>)
    requires Includes(url, "netflix.com/watch")
    ensures TabStep(s, tabId, Some(url), now, tabs)
      == s.(outbox := s.outbox + [TabMessage(tabId, NewVideo)] + PageMessages(tabId, url))
  {
    assert Includes(url, "netflix.com/") by {
      var i :| 0 <= i <= |url| && "netflix.com/watch" <= url[i..];
      assert "netflix.com/" <= url[i..];
    }
  }

  /** Any other Netflix page first gets its page messages and then pauses the
      session as `WATCHING_PAUSED` does, so whatever the tick sends comes after
      the page messages. */
  lemma TabOffWatchPage(s: WorkerState, tabId: int, url: string, now: int, tabs: seq<int>)
    requires Includes(url, "netflix.com/") && !Includes(url, "netflix.com/watch")
    ensures TabStep(s, tabId, Some(url), now, tabs)
      == PauseStep(s.(outbox := s.outbox + PageMessages(tabId, url)), now, tabs)
    ensures s.outbox + PageMessages(tabId, url) <= TabStep(s, tabId, Some(url), now, tabs).outbox
  {
  }

  /** Install seeds the defaults and a zeroed record, replacing any stored
      record, exactly when no settings are stored; a second install changes nothing. */
  lemma InstalledSeedsOnce(s: WorkerState, now: int, later: int)
    ensures s.syncSettings.None? ==>
      InstalledStep(s, now).syncSettings == Some(DefaultSettings)
      && InstalledStep(s, now).localStats == Some(ZeroStats(now))
    ensures s.syncSettings.Some? ==> InstalledStep(s, now) == s
    ensures InstalledStep(InstalledStep(s, now), later) == InstalledStep(s, now)
  {
  }

  /** A firing deferred block removes exactly its own timer, clears the alarm
      and broadcasts a block to the tabs open at that moment. */
  lemma DeferredBlockEffects(s: WorkerState, i: nat, tabs: seq<int>)
    requires i < |s.pendingBlocks|
    ensures var r := DeferredBlockStep(s, i, tabs);
      && |r.pendingBlocks| == |s.pendingBlocks| - 1
      && multiset(r.pendingBlocks) + multiset{s.pendingBlocks[i]} == multiset(s.pendingBlocks)
      && !r.alarmActive
      && r.outbox == s.outbox + BlockMessages(tabs)
      && r.localStats == s.localStats && r.watchStartTime == s.watchStartTime
  {
    var p := s.pendingBlocks;
    assert p == p[..i] + [p[i]] + p[i + 1..];
  }
}
