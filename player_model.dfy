/**
 * The controller's values and decisions: its settings, the events it reacts
 * to, what it reads off the engine, and the effect of each observer and
 * control operation on the controller's fields, as functions. The class in
 * module Player is proved to have exactly these effects.
 */
module PlayerModel {
  import opened Wrappers
  import opened Mode
  import opened State
  import opened Item
  import opened Queue
  import opened Background
  import opened Timing
  import NetProducer
  import SeekProducer

  /** `BufferingStrategy` */
  datatype BufferingStrategy = DefaultBuffering | PlayWhenPreferredBufferDurationFull | PlayWhenBufferNotEmpty

  /** `SeekingBehavior` */
  datatype SeekingBehavior = MultiplyRate(factor: real) | ChangeTime(every: real, delta: real)

  /** The engine player, when one exists: the URL of its item, its rate, volume and stalling policy. */
  datatype Engine = NoPlayer | Engine(url: Url, rate: real, volume: real, automaticallyWaits: bool)

  /** What the controller tells its delegate (or would tell it, when there is none). */
  datatype DelegateCall =
    | StateChanged(from: PlayerState, to: PlayerState)
    | WillStartPlaying(item: AudioItem)
    | FoundDuration(duration: real, item: AudioItem)
    | UpdatedMetadata(item: AudioItem, metadata: seq<MetadataEntry>)
    | LoadedRange(range: TimeRange, item: AudioItem)
    | ProgressedTo(progress: real, percentage: real)

  /** What the controller reads from the platform and the engine at the moment an operation runs. */
  datatype Env = Env(
    /** `reachability.isReachable()` */
    reachable: bool,
    /** The URLs `ap_isOfflineURL` accepts. */
    offline: set<Url>,
    /** The engine player's current item, as far as the controller reads it. */
    engineItem: Option<EngineItem>,
    /** `isPlaybackBufferEmpty` of the engine item. */
    bufferEmpty: bool,
    /** The engine player's current time. */
    playerTime: Option<real>,
    /** The rate the engine player reports, which the system may have set to 0 itself. */
    engineRate: real,
    /** Whether the loaded-ahead duration is a normal floating-point number. */
    aheadIsNormal: bool,
    /** The network producer's `connectionLossDate`. */
    lossDate: Option<real>,
    /** The current date. */
    now: real,
    /** The identifier the platform hands out if a background task is begun. */
    newTask: int)

  /** The settings that say how the player recovers from losses and interruptions. */
  datatype RecoverySettings = RecoverySettings(
    maxConnectionLossTime: real,
    autoAdjustQuality: bool,
    defaultQuality: Quality,
    resumeAfterInterruption: bool,
    resumeAfterConnectionLoss: bool)

  /** The settings that say how the player plays. */
  datatype OutputSettings = OutputSettings(
    mode: PlayerMode,
    volume: real,
    rate: real,
    bufferingStrategy: BufferingStrategy,
    preferredBufferDurationBeforePlayback: real,
    seekingBehavior: SeekingBehavior)

  /** The settings a client of the player configures. */
  datatype PlayerSettings = PlayerSettings(recovery: RecoverySettings, output: OutputSettings)

  /** The default settings of a new player. */
  const DefaultSettings := PlayerSettings(RecoverySettings(60.0, true, Medium, true, true),
                                          OutputSettings(Normal, 1.0, 1.0, DefaultBuffering, 60.0, MultiplyRate(2.0)))

  /** What is to be played: the current item, the queue, and the quality. */
  datatype Selection = Selection(
    currentItem: AudioItem?,
    queue: AudioItemQueue?,
    currentQuality: Quality,
    qualityIsBeingChanged: bool)

  /** What the player remembers of earlier states and interruptions. */
  datatype Memory = Memory(
    pausedForInterruption: bool,
    stateBeforeBuffering: Option<PlayerState>,
    stateWhenConnectionLost: Option<PlayerState>,
    /** The quality producer's `interruptionCount`, which the player bumps. */
    interruptionCount: int)

  /** The engine player and what runs beside it. */
  datatype Playback = Playback(
    engine: Engine,
    /** Whether the player-event, network, item and quality producers run. */
    producersRunning: bool,
    /** Whether the retry producer runs. */
    retryProducing: bool,
    sessionActive: bool)

  /** The engine seeks and the delegate calls, oldest first. */
  datatype Trace = Trace(seeks: seq<real>, calls: seq<DelegateCall>)

  /** The controller's own state, with the background guard. */
  datatype PlayerStatus = PlayerStatus(
    state: PlayerState,
    selection: Selection,
    memory: Memory,
    playback: Playback,
    guard: Guard,
    trace: Trace)

  /** The status of a new player. */
  const InitialStatus := PlayerStatus(Stopped, Selection(null, null, Medium, false), Memory(false, None, None, 0),
                                      Playback(NoPlayer, false, false, false), Guard(None, 0), Trace([], []))

  // ---------------------------------------------------------------- decisions

  /** `updatePlayerForBufferingStrategy`: the engine waits to minimise stalling unless told to play as soon as the buffer is not empty. */
  predicate AutomaticallyWaits(strategy: BufferingStrategy)
  {
    strategy != PlayWhenBufferNotEmpty
  }

  /** `shouldResumePlaying`, written with the `isPaused` tests of the source. */
  predicate ShouldResumePlaying(state: PlayerState, whenLost: Option<PlayerState>, beforeBuffering: Option<PlayerState>)
  {
    !IsPaused(state) &&
    (whenLost.Some? && IsPaused(whenLost.value)) &&
    (beforeBuffering.Some? && IsPaused(beforeBuffering.value))
  }

  /** The player resumes after buffering exactly when it is not paused now and was paused both when the connection dropped and before buffering. */
  lemma ShouldResumeMeaning(state: PlayerState, whenLost: Option<PlayerState>, beforeBuffering: Option<PlayerState>)
    ensures ShouldResumePlaying(state, whenLost, beforeBuffering) <==>
      state != Paused && whenLost == Some(Paused) && beforeBuffering == Some(Paused)
  {
    PredicatesMatchCases(state);
    if whenLost.Some? { PredicatesMatchCases(whenLost.value); }
    if beforeBuffering.Some? { PredicatesMatchCases(beforeBuffering.value); }
  }

  /** The loaded-more-range test for starting playback before the engine would. */
  predicate ShouldPlayImmediately(strategy: BufferingStrategy, state: PlayerState, ahead: Option<real>, aheadIsNormal: bool, preferred: real)
  {
    strategy == PlayWhenPreferredBufferDurationFull && StateEquals(state, Buffering) &&
    ahead.Some? && aheadIsNormal && ahead.value >= preferred
  }

  /** Playback starts early only while buffering under the preferred-duration strategy, once enough is loaded ahead. */
  lemma PlayImmediatelyMeaning(strategy: BufferingStrategy, state: PlayerState, ahead: Option<real>, aheadIsNormal: bool, preferred: real)
    ensures ShouldPlayImmediately(strategy, state, ahead, aheadIsNormal, preferred) <==>
      strategy == PlayWhenPreferredBufferDurationFull && state == Buffering &&
      ahead.Some? && aheadIsNormal && ahead.value >= preferred
  {
    PredicatesMatchCases(state);
  }

  /** The percentage reported with a progression: progress over duration times 100, or 0 without a positive duration. */
  function ProgressPercentage(progress: real, duration: real): (p: real)
    ensures duration > 0.0 ==> p * duration == progress * 100.0
    ensures duration <= 0.0 ==> p == 0.0
  {
    if duration > 0.0 then progress / duration * 100.0 else 0.0
  }

  /** A progression within the item's duration is reported as a percentage between 0 and 100. */
  lemma PercentageInRange(progress: real, duration: real)
    requires 0.0 <= progress <= duration
    ensures 0.0 <= ProgressPercentage(progress, duration) <= 100.0
  {
    if duration > 0.0 {
      var p := ProgressPercentage(progress, duration);
      assert p * duration == progress * 100.0;
    }
  }

  /** A quality adjustment event. */
  datatype QualityAdjEvent = GoDown | GoUp

  /** The raw-value step of an adjustment. */
  function Adjustment(e: QualityAdjEvent): int
  {
    match e
    case GoDown => -1
    case GoUp => 1
  }

  /** The quality an adjustment aims at, absent when the step leaves the low..high range. */
  function TargetQuality(current: Quality, e: QualityAdjEvent): (r: Option<Quality>)
    ensures r.Some? <==> 0 <= current.RawValue() + Adjustment(e) <= 2
    ensures r.Some? ==> r.value.RawValue() == current.RawValue() + Adjustment(e)
  {
    QualityFromRaw(current.RawValue() + Adjustment(e))
  }

  /** There is nothing below low or above high, and a step up is undone by a step down. */
  lemma QualityStepsInverse(q: Quality)
    ensures TargetQuality(Low, GoDown).None? && TargetQuality(High, GoUp).None?
    ensures TargetQuality(q, GoUp).Some? ==> TargetQuality(TargetQuality(q, GoUp).value, GoDown) == Some(q)
    ensures TargetQuality(q, GoDown).Some? ==> TargetQuality(TargetQuality(q, GoDown).value, GoUp) == Some(q)
  {
    var up := TargetQuality(q, GoUp);
    if up.Some? {
      var back := TargetQuality(up.value, GoDown);
      assert back.Some? && back.value.RawValue() == q.RawValue();
    }
    var down := TargetQuality(q, GoDown);
    if down.Some? {
      var back := TargetQuality(down.value, GoUp);
      assert back.Some? && back.value.RawValue() == q.RawValue();
    }
  }

  /** The rate `handleSeekingStart` sets under `multiplyRate(m)`. */
  function SeekingStartRate(m: real, rate: real, forward: bool): real
  {
    if forward then rate * m else -(rate * m)
  }

  /** The rate `handleSeekingEnd` sets under `multiplyRate(m)`. */
  function SeekingEndRate(m: real, rate: real, forward: bool): real
    requires m != 0.0
  {
    if forward then rate / m else -(rate / m)
  }

  /** Seeking start then end in the same direction gives the rate back, with exact arithmetic. */
  lemma SeekingRestoresRate(m: real, rate: real, forward: bool)
    requires m != 0.0
    ensures SeekingEndRate(m, SeekingStartRate(m, rate, forward), forward) == rate
  {
    assert rate * m / m == rate;
    assert -(-(rate * m) / m) == rate * m / m;
  }

  // ------------------------------------------------------- connection retrieval

  /** `lossDate.timeIntervalSinceNow < maxConnectionLossTime`, as the network handler writes it. */
  predicate IsAllowedToRestartAsWritten(lossDate: real, now: real, maxConnectionLossTime: real)
  {
    lossDate - now < maxConnectionLossTime
  }

  /** The time limit as the setting documents it: the connection was lost for less than the maximum. */
  predicate IsAllowedToRestart(lossDate: real, now: real, maxConnectionLossTime: real)
  {
    now - lossDate < maxConnectionLossTime
  }

  /**
   * The check as written never refuses a loss that lies in the past: an
   * interval since now is negative then, so even an hour-long loss passes a
   * 60-second limit.
   */
  lemma AsWrittenIgnoresLimit(lossDate: real, now: real, maxConnectionLossTime: real)
    requires lossDate <= now && maxConnectionLossTime > 0.0
    ensures IsAllowedToRestartAsWritten(lossDate, now, maxConnectionLossTime)
  {
  }

  /** An hour-long loss with the default limit: allowed as written, refused as intended. */
  lemma AsWrittenCounterexample()
    ensures IsAllowedToRestartAsWritten(0.0, 3600.0, DefaultSettings.recovery.maxConnectionLossTime)
    ensures !IsAllowedToRestart(0.0, 3600.0, DefaultSettings.recovery.maxConnectionLossTime)
  {
  }

  /** The corrected check refuses every loss at least as long as the limit, and allows every shorter one. */
  lemma RestartLimitHonoured(lossDate: real, now: real, maxConnectionLossTime: real)
    ensures IsAllowedToRestart(lossDate, now, maxConnectionLossTime) <==> now < lossDate + maxConnectionLossTime
  {
  }

  // ----------------------------------------------------------- remote control

  /** The remote-control subtypes the player distinguishes. */
  datatype RemoteSubtype =
    | BeginSeekingBackward | BeginSeekingForward | EndSeekingBackward | EndSeekingForward
    | NextTrack | PauseCommand | PlayCommand | TogglePlayPause | PreviousTrack | StopCommand
    | OtherSubtype

  /** A `UIEvent`: whether it is a remote-control event, and its subtype. */
  datatype RemoteEvent = RemoteEvent(isRemoteControl: bool, subtype: RemoteSubtype)

  /** What `remoteControlReceived(with:)` does with an event. */
  datatype RemoteAction =
    | StartSeeking(forward: bool) | EndSeeking(forward: bool)
    | GoNext | DoPause | DoResume | GoPrevious | DoStop | Ignore

  /** The switch of `remoteControlReceived(with:)`; a `where` clause guards only the toggle case it follows. */
  function RemoteActionFor(e: RemoteEvent, state: PlayerState): (a: RemoteAction)
    ensures !e.isRemoteControl ==> a == Ignore
    ensures e.isRemoteControl && e.subtype == PauseCommand ==> a == DoPause
    ensures e.isRemoteControl && e.subtype == PlayCommand ==> a == DoResume
    ensures e.isRemoteControl && e.subtype == TogglePlayPause ==>
      (a == DoPause <==> state == Playing) && (a == DoResume <==> state == Paused) &&
      (a == Ignore <==> state != Playing && state != Paused)
  {
    PredicatesMatchCases(state);
    if !e.isRemoteControl then Ignore
    else
      match e.subtype
      case BeginSeekingBackward => StartSeeking(false)
      case BeginSeekingForward => StartSeeking(true)
      case EndSeekingBackward => EndSeeking(false)
      case EndSeekingForward => EndSeeking(true)
      case NextTrack => GoNext
      case PauseCommand => DoPause
      case TogglePlayPause =>
        if IsPlaying(state) then DoPause
        else if IsPaused(state) then DoResume
        else Ignore
      case PlayCommand => DoResume
      case PreviousTrack => GoPrevious
      case StopCommand => DoStop
      case OtherSubtype => Ignore
  }

  // ------------------------------------------------------------------ events

  /** `PlayerEventProducer.PlayerEvent`; times arrive already converted, absent when not convertible. */
  datatype PlayerEvent =
    | EndedPlaying(error: Option<FoundationError>)
    | InterruptionBegan
    | InterruptionEnded(shouldResume: bool)
    | LoadedDuration(time: Option<real>)
    | LoadedMetadata(metadata: seq<MetadataEntry>)
    | LoadedMoreRange
    | ProgressedPlaying(time: Option<real>)
    | ReadyToPlay
    | RouteChanged
    | SessionMessedUp
    | StartedBuffering

  /** `RetryEventProducer.RetryEvent` */
  datatype RetryEvent = RetryAvailable | RetryFailed

  /** `AudioItemEventProducer.AudioItemEvent`: a property of the item changed. */
  datatype AudioItemEvent = ItemPropertyChanged

  /** The six event families `onEvent` tells apart, and anything else. */
  datatype Event =
    | FromNet(net: NetProducer.NetEvent)
    | FromPlayer(player: PlayerEvent)
    | FromAudioItem(item: AudioItemEvent)
    | FromQualityAdj(quality: QualityAdjEvent)
    | FromRetry(retry: RetryEvent)
    | FromSeek(seek: SeekProducer.SeekEvent)
    | UnknownEvent

  // ------------------------------------------------- effects on the status

  /** `player?.rate = r` */
  function WithRate(e: Engine, r: real): Engine
  {
    if e.Engine? then e.(rate := r) else e
  }

  /** `curAVPlayerItem`: the engine item, present only while a player exists. */
  function EngineItemOf(st: PlayerStatus, env: Env): Option<EngineItem>
  {
    if st.playback.engine.Engine? then env.engineItem else None
  }

  /** Whether the engine item's status is `.readyToPlay`. */
  predicate ItemReady(st: PlayerStatus, env: Env)
  {
    EngineItemOf(st, env).Some? && EngineItemOf(st, env).value.readyToPlay
  }

  /** `currentItem?.soundURLs[currentQuality]?.ap_isOfflineURL == true`: the exact quality, no fallback. */
  predicate CurrentUrlOffline(st: PlayerStatus, env: Env)
  {
    st.selection.currentItem != null && st.selection.currentQuality in st.selection.currentItem.soundURLs &&
    st.selection.currentItem.soundURLs[st.selection.currentQuality] in env.offline
  }

  /** The engine seeks a seek action causes: only a seek with a player reaches the engine. */
  function SoughtBy(e: Engine, a: SeekAction): seq<real>
  {
    if a.SeekTo? && e.Engine? then [a.time] else []
  }

  /** `player?.rate = r`, on the status. */
  function WithEngineRate(st: PlayerStatus, r: real): PlayerStatus
  {
    WithEngine(st, WithRate(st.playback.engine, r))
  }

  /** `retryEventProducer.stopProducingEvents()` */
  function StopRetrying(st: PlayerStatus): PlayerStatus
  {
    st.(playback := st.playback.(retryProducing := false))
  }

  /** The first steps of the observer on `currentItem`: the item becomes current, the old player goes and the session is activated. */
  function Detached(st: PlayerStatus, item: AudioItem): PlayerStatus
  {
    st.(selection := st.selection.(currentItem := item),
        playback := st.playback.(engine := NoPlayer, producersRunning := false, sessionActive := true))
  }

  /** The engine player replaced by `e`. */
  function WithEngine(st: PlayerStatus, e: Engine): PlayerStatus
  {
    st.(playback := st.playback.(engine := e))
  }

  /** The delegate is told `c`. */
  function Told(st: PlayerStatus, c: DelegateCall): PlayerStatus
  {
    st.(trace := st.trace.(calls := st.trace.calls + [c]))
  }

  /** The engine is asked to seek to each time of `times`, in order. */
  function Sought(st: PlayerStatus, times: seq<real>): PlayerStatus
  {
    st.(trace := st.trace.(seeks := st.trace.seeks + times))
  }

  /** `backgroundHandler.beginBackgroundTask()` */
  function BeginTask(st: PlayerStatus, t: int): PlayerStatus
  {
    st.(guard := BeginStep(st.guard, t).0)
  }

  /** `backgroundHandler.endBackgroundTask()` */
  function EndTask(st: PlayerStatus): PlayerStatus
  {
    st.(guard := EndStep(st.guard).0)
  }

  /**
   * `state = to` and the observer on `state`: a value unequal under the
   * state's own `==` begins a background task on entering buffering, ends one
   * on leaving it, and is reported to the delegate.
   */
  function Observe(st: PlayerStatus, to: PlayerState, t: int): PlayerStatus
  {
    st.(state := to, guard := ObservedGuard(st.guard, st.state, to, t), trace := st.trace.(calls := st.trace.calls + Reported(st.state, to)))
  }

  /** What the observer on `state` tells the delegate. */
  function Reported(from: PlayerState, to: PlayerState): seq<DelegateCall>
  {
    if StateEquals(to, from) then [] else [StateChanged(from, to)]
  }

  /** The background guard after the observer on `state` has run. */
  function ObservedGuard(g: Guard, from: PlayerState, to: PlayerState, t: int): Guard
  {
    if StateEquals(to, from) then g else GuardAfter(g, from, to, t)
  }

  /** The background task the observer begins on entering buffering or ends on leaving it. */
  function GuardAfter(g: Guard, from: PlayerState, to: PlayerState, t: int): Guard
  {
    if to.Buffering? then BeginStep(g, t).0
    else if from.Buffering? then EndStep(g).0
    else g
  }

  /** Assigning a state equal under `==` changes nothing else; an unequal one is reported once, with its buffering task. */
  lemma ObserveEffects(st: PlayerStatus, to: PlayerState, t: int)
    ensures Observe(st, to, t).state == to
    ensures StateEquals(to, st.state) ==> Observe(st, to, t) == st.(state := to)
    ensures !StateEquals(to, st.state) ==> Observe(st, to, t).trace.calls == st.trace.calls + [StateChanged(st.state, to)]
    ensures !StateEquals(to, st.state) && to == Buffering ==> Observe(st, to, t).guard == BeginStep(st.guard, t).0
    ensures st.state == Buffering && to != Buffering ==> Observe(st, to, t).guard == EndStep(st.guard).0
    ensures st.state != Buffering && to != Buffering ==> Observe(st, to, t).guard == st.guard
    ensures Observe(st, to, t) == st.(state := to, guard := Observe(st, to, t).guard, trace := st.trace.(calls := Observe(st, to, t).trace.calls))
  {
  }

  /**
   * Entering buffering and then leaving it gives the background guard's count
   * back: the observer's begin and end pair up.
   */
  lemma {:induction false} BufferingRoundTrip(st: PlayerStatus, to: PlayerState, t: int)
    requires GuardValid(st.guard) && st.state != Buffering && to != Buffering
    ensures Observe(Observe(st, Buffering, t), to, t).guard.counter == st.guard.counter
  {
    PredicatesMatchCases(st.state);
    PredicatesMatchCases(to);
    var mid := Observe(st, Buffering, t);
    assert mid.guard == BeginStep(st.guard, t).0;
    assert mid.guard.task.Some?;
    assert Observe(mid, to, t).guard == EndStep(mid.guard).0;
  }

  /**
   * Assigning the same state twice reports it once, except for the two failures
   * the state's `==` does not find equal to themselves, which are reported again.
   */
  lemma RepeatedAssignment(st: PlayerStatus, to: PlayerState, t: int)
    ensures var once := Observe(st, to, t);
      (Observe(once, to, t).trace.calls == once.trace.calls) <==>
      !(to == Failed(ItemNotConsideredPlayable) || to == Failed(NoItemsConsideredPlayable))
  {
    EqualsReflexiveElsewhere(to);
    var once := Observe(st, to, t);
    ObserveEffects(once, to, t);
    if !StateEquals(to, to) {
      assert |Observe(once, to, t).trace.calls| == |once.trace.calls| + 1;
    }
  }

  /**
   * `stop()`: the retry producer stops, the player (and with it the other
   * producers), the current item and the queue go, the audio session is
   * deactivated and the state becomes stopped.
   */
  function StopSpec(st: PlayerStatus, t: int): PlayerStatus
  {
    Observe(Released(st), Stopped, t)
  }

  /** What `stop()` lets go of before the state changes: the producers, the player, the item, the queue and the session. */
  function Released(st: PlayerStatus): PlayerStatus
  {
    st.(playback := Playback(NoPlayer, false, false, false),
        selection := st.selection.(currentItem := null, queue := null))
  }

  /** `stop()` leaves nothing playing, and a second call changes nothing more. */
  lemma StopIsIdempotent(st: PlayerStatus, t: int)
    ensures var r := StopSpec(st, t);
      r.state == Stopped && r.selection.currentItem == null && r.selection.queue == null && r.playback.engine == NoPlayer &&
      !r.playback.retryProducing && !r.playback.producersRunning && StopSpec(r, t) == r
  {
  }

  /**
   * The observer on `currentItem` for an item: the old player goes; without a
   * connection and an offline URL the player waits for the connection,
   * otherwise it buffers with a new player on the URL for the current quality.
   */
  function AssignSpec(st: PlayerStatus, s: PlayerSettings, item: AudioItem, env: Env): PlayerStatus
    requires item.Valid()
  {
    var info := UrlFor(item.soundURLs, st.selection.currentQuality);
    var dropped := Detached(st, item);
    if !(env.reachable || info.url in env.offline) then WaitSpec(dropped, env.newTask)
    else BufferSpec(dropped, s, info, if st.selection.currentItem != item then [WillStartPlaying(item)] else [], env.newTask)
  }

  /** Without a reachable or offline URL: the state to resume is buffering, and the player waits for the connection. */
  function WaitSpec(st: PlayerStatus, t: int): PlayerStatus
  {
    BeginTask(Observe(st.(memory := st.memory.(stateWhenConnectionLost := Some(Buffering))), WaitingForConnection, t), t)
  }

  /** Otherwise: the player buffers, then gets a new engine player for `info`, whose quality becomes current, and the delegate hears `announced`. */
  function BufferSpec(st: PlayerStatus, s: PlayerSettings, info: ItemUrl, announced: seq<DelegateCall>, t: int): PlayerStatus
  {
    Attached(BeginTask(Observe(st, Buffering, t), t), s, info, announced)
  }

  /** The new engine player for `info` with the player's rate, volume and stalling policy, and the producers running. */
  function Attached(st: PlayerStatus, s: PlayerSettings, info: ItemUrl, announced: seq<DelegateCall>): PlayerStatus
  {
    PlayerStarted(Prepared(st, info.quality, announced), s, info.url)
  }

  /** Interruption forgotten, `q` the current quality and `announced` told to the delegate. */
  function Prepared(st: PlayerStatus, q: Quality, announced: seq<DelegateCall>): PlayerStatus
  {
    st.(memory := st.memory.(pausedForInterruption := false),
        selection := st.selection.(currentQuality := q),
        trace := st.trace.(calls := st.trace.calls + announced))
  }

  /** A new engine player for `url` with the player's rate, volume and stalling policy, and the producers running. */
  function PlayerStarted(st: PlayerStatus, s: PlayerSettings, url: Url): PlayerStatus
  {
    st.(playback := st.playback.(engine := Engine(url, s.output.rate, s.output.volume, AutomaticallyWaits(s.output.bufferingStrategy)),
                                 producersRunning := true))
  }

  /** The observer on `currentItem` for any value: nil stops the player. */
  function AssignOrStop(st: PlayerStatus, s: PlayerSettings, item: AudioItem?, env: Env): PlayerStatus
    requires item != null ==> item.Valid()
  {
    if item == null then StopSpec(st, env.newTask) else AssignSpec(st, s, item, env)
  }

  /** Without a connection and an offline URL, an item waits for the connection and no player is created. */
  lemma AssignWithoutConnection(st: PlayerStatus, s: PlayerSettings, item: AudioItem, env: Env)
    requires item.Valid()
    requires var url := UrlFor(item.soundURLs, st.selection.currentQuality).url; !env.reachable && url !in env.offline
    ensures var r := AssignSpec(st, s, item, env);
      r.selection.currentItem == item && r.state == WaitingForConnection && r.memory.stateWhenConnectionLost == Some(Buffering) &&
      r.playback.engine == NoPlayer && !r.playback.producersRunning && r.selection.currentQuality == st.selection.currentQuality &&
      r.guard.task.Some?
  {
  }

  /**
   * With a connection or an offline URL, an item buffers on a new player whose
   * URL is stored under the quality that becomes current, which is the
   * current quality whenever the item has it; the delegate hears of a new item
   * only when it differs from the previous one.
   */
  lemma AssignStartsPlayer(st: PlayerStatus, s: PlayerSettings, item: AudioItem, env: Env)
    requires item.Valid()
    requires var url := UrlFor(item.soundURLs, st.selection.currentQuality).url; env.reachable || url in env.offline
    ensures var r := AssignSpec(st, s, item, env);
      r.selection.currentItem == item && r.state == Buffering && !r.memory.pausedForInterruption &&
      r.playback.engine.Engine? && r.playback.producersRunning && r.playback.engine.rate == s.output.rate &&
      r.selection.currentQuality in item.soundURLs && r.playback.engine.url == item.soundURLs[r.selection.currentQuality] &&
      (st.selection.currentQuality in item.soundURLs ==> r.selection.currentQuality == st.selection.currentQuality) &&
      r.guard.task.Some? &&
      (st.selection.currentItem != item ==> r.trace.calls[|r.trace.calls| - 1] == WillStartPlaying(item)) &&
      (st.selection.currentItem == item ==> WillStartPlaying(item) !in r.trace.calls[|st.trace.calls|..])
  {
    var info := UrlFor(item.soundURLs, st.selection.currentQuality);
    var dropped := Detached(st, item);
    var buffering := BeginTask(Observe(dropped, Buffering, env.newTask), env.newTask);
    assert buffering.trace.calls[|st.trace.calls|..] == Observe(dropped, Buffering, env.newTask).trace.calls[|st.trace.calls|..];
  }

  /**
   * `retryOrPlayNext()`: while playing only the retry producer stops; otherwise
   * the current item is assigned again, which rebuilds the player, and the new
   * player seeks to the progression read before.
   */
  function RetrySpec(st: PlayerStatus, s: PlayerSettings, env: Env): PlayerStatus
    requires st.selection.currentItem != null ==> st.selection.currentItem.Valid()
  {
    if IsPlaying(st.state) then StopRetrying(st)
    else
      var progress := Progression(EngineItemOf(st, env));
      var after := AssignOrStop(st, s, st.selection.currentItem, env);
      after.(trace := after.trace.(seeks := after.trace.seeks + (if progress.Some? && after.playback.engine.Engine? then [progress.value] else [])))
  }

  /** A retry keeps the current item and does not announce it again. */
  lemma RetryKeepsItem(st: PlayerStatus, s: PlayerSettings, env: Env)
    requires st.selection.currentItem != null && st.selection.currentItem.Valid() && !IsPlaying(st.state)
    ensures var r := RetrySpec(st, s, env);
      r.selection.currentItem == st.selection.currentItem && WillStartPlaying(st.selection.currentItem) !in r.trace.calls[|st.trace.calls|..]
  {
    var item := st.selection.currentItem;
    var info := UrlFor(item.soundURLs, st.selection.currentQuality);
    var dropped := Detached(st, item);
    if env.reachable || info.url in env.offline {
      var buffering := BeginTask(Observe(dropped, Buffering, env.newTask), env.newTask);
      assert buffering.trace.calls[|st.trace.calls|..] == Observe(dropped, Buffering, env.newTask).trace.calls[|st.trace.calls|..];
    } else {
      var waiting := Observe(dropped.(memory := dropped.memory.(stateWhenConnectionLost := Some(Buffering))), WaitingForConnection, env.newTask);
      assert waiting.trace.calls[|st.trace.calls|..] == [] || waiting.trace.calls[|st.trace.calls|..] == [StateChanged(st.state, WaitingForConnection)];
    }
  }

  /** The first steps of `sessionMessedUp`: the session is activated, the state becomes stopped and the interruption is counted. */
  function SessionResetSpec(st: PlayerStatus, t: int): PlayerStatus
  {
    var stopped := Observe(st.(playback := st.playback.(sessionActive := true)), Stopped, t);
    stopped.(memory := stopped.memory.(interruptionCount := stopped.memory.interruptionCount + 1))
  }

  /** `resume()` */
  function ResumeSpec(st: PlayerStatus, s: PlayerSettings, t: int): PlayerStatus
  {
    var st1 := st.(memory := st.memory.(pausedForInterruption := false), playback := st.playback.(engine := WithRate(st.playback.engine, s.output.rate)));
    var st2 := if !IsPlaying(st1.state) && !IsBuffering(st1.state) then Observe(st1, Playing, t) else st1;
    st2.(playback := st2.playback.(retryProducing := true))
  }

  /** `pause()` */
  function PauseSpec(st: PlayerStatus, t: int): PlayerStatus
  {
    BeginTask(StopRetrying(Observe(WithEngineRate(st, 0.0), Paused, t)), t)
  }

  /** `playImmediately()` */
  function PlayImmediatelySpec(st: PlayerStatus, s: PlayerSettings, t: int): PlayerStatus
  {
    EndTask(StopRetrying(WithEngineRate(Observe(st, Playing, t), s.output.rate)))
  }

  /** `resume()` never turns buffering into playing, and otherwise ends up playing with the retry producer running. */
  lemma ResumeEffects(st: PlayerStatus, s: PlayerSettings, t: int)
    ensures ResumeSpec(st, s, t).playback.retryProducing && !ResumeSpec(st, s, t).memory.pausedForInterruption
    ensures st.state == Buffering ==> ResumeSpec(st, s, t).state == Buffering
    ensures st.state != Buffering ==> ResumeSpec(st, s, t).state == Playing
    ensures st.playback.engine.Engine? ==> ResumeSpec(st, s, t).playback.engine.rate == s.output.rate
  {
    PredicatesMatchCases(st.state);
    var st1 := st.(memory := st.memory.(pausedForInterruption := false), playback := st.playback.(engine := WithRate(st.playback.engine, s.output.rate)));
    ObserveEffects(st1, Playing, t);
  }

  /** `pause()` ends up paused with the engine stopped, the retry producer stopped and a background task held. */
  lemma PauseEffects(st: PlayerStatus, t: int)
    ensures PauseSpec(st, t).state == Paused && !PauseSpec(st, t).playback.retryProducing
    ensures PauseSpec(st, t).guard.task.Some?
    ensures st.playback.engine.Engine? ==> PauseSpec(st, t).playback.engine.rate == 0.0
  {
    ObserveEffects(WithEngineRate(st, 0.0), Paused, t);
  }

  /** `playImmediately()` ends up playing at the player's rate with the retry producer stopped. */
  lemma PlayImmediatelyEffects(st: PlayerStatus, s: PlayerSettings, t: int)
    ensures PlayImmediatelySpec(st, s, t).state == Playing && !PlayImmediatelySpec(st, s, t).playback.retryProducing
    ensures st.playback.engine.Engine? ==> PlayImmediatelySpec(st, s, t).playback.engine.rate == s.output.rate
  {
    ObserveEffects(st, Playing, t);
  }

  /** `interruptionBegan`: a playing or buffering player holds a background task, notes the interruption and pauses. */
  function InterruptionBeganSpec(st: PlayerStatus, t: int): PlayerStatus
  {
    if IsPlaying(st.state) || IsBuffering(st.state) then
      var begun := BeginTask(st, t);
      PauseSpec(begun.(memory := begun.memory.(pausedForInterruption := true)), t)
    else st
  }

  /**
   * `interruptionEnded`: acts only after an interruption the player paused
   * for, resuming when both the setting and the event allow it.
   */
  function InterruptionEndedSpec(st: PlayerStatus, s: PlayerSettings, shouldResume: bool, t: int): PlayerStatus
  {
    if !st.memory.pausedForInterruption then st
    else
      InterruptionOver(if s.recovery.resumeAfterInterruption && shouldResume then ResumeSpec(st, s, t) else st)
  }

  /** The end of `interruptionEnded`: the interruption is forgotten and the background task ends. */
  function InterruptionOver(st: PlayerStatus): PlayerStatus
  {
    EndTask(st.(memory := st.memory.(pausedForInterruption := false)))
  }

  /**
   * An interruption of a playing player pauses it and notes the interruption;
   * when it ends with resumption allowed the player plays again, and when it
   * ends otherwise the player stays paused. Either way nothing stays pending.
   */
  lemma {:induction false} InterruptionRoundTrip(st: PlayerStatus, s: PlayerSettings, shouldResume: bool, t: int, t2: int)
    requires IsPlaying(st.state)
    ensures InterruptionBeganSpec(st, t).state == Paused && InterruptionBeganSpec(st, t).memory.pausedForInterruption
    ensures var after := InterruptionEndedSpec(InterruptionBeganSpec(st, t), s, shouldResume, t2);
      !after.memory.pausedForInterruption &&
      after.state == (if s.recovery.resumeAfterInterruption && shouldResume then Playing else Paused)
  {
    var begun := BeginTask(st, t);
    var marked := begun.(memory := begun.memory.(pausedForInterruption := true));
    PauseEffects(marked, t);
    ObserveEffects(WithEngineRate(marked, 0.0), Paused, t);
    var paused := InterruptionBeganSpec(st, t);
    assert paused == PauseSpec(marked, t);
    ResumeEffects(paused, s, t2);
  }

  /**
   * After buffering or a pause, with the engine item ready: playing again if
   * the player should resume, paused with the engine stopped otherwise.
   */
  function SettleSpec(st: PlayerStatus, s: PlayerSettings, t: int): PlayerStatus
  {
    if ShouldResumePlaying(st.state, st.memory.stateWhenConnectionLost, st.memory.stateBeforeBuffering) then
      var playing := Observe(st.(memory := st.memory.(stateBeforeBuffering := None)), Playing, t);
      WithEngineRate(playing, s.output.rate)
    else
      Observe(WithEngineRate(st, 0.0), Paused, t)
  }

  /** The player resumes only when it was paused on both occasions, and otherwise pauses. */
  lemma SettleChoice(st: PlayerStatus, s: PlayerSettings, t: int)
    ensures SettleSpec(st, s, t).state ==
      if st.state != Paused && st.memory.stateWhenConnectionLost == Some(Paused) && st.memory.stateBeforeBuffering == Some(Paused)
      then Playing else Paused
  {
    ShouldResumeMeaning(st.state, st.memory.stateWhenConnectionLost, st.memory.stateBeforeBuffering);
    if ShouldResumePlaying(st.state, st.memory.stateWhenConnectionLost, st.memory.stateBeforeBuffering) {
      ObserveEffects(st.(memory := st.memory.(stateBeforeBuffering := None)), Playing, t);
    } else {
      ObserveEffects(WithEngineRate(st, 0.0), Paused, t);
    }
  }

  /** Resuming forgets the state before buffering and restores the player's rate; pausing stops the engine. */
  lemma SettleEngine(st: PlayerStatus, s: PlayerSettings, t: int)
    requires st.playback.engine.Engine?
    ensures SettleSpec(st, s, t).state == Playing ==>
      SettleSpec(st, s, t).memory.stateBeforeBuffering.None? && SettleSpec(st, s, t).playback.engine == st.playback.engine.(rate := s.output.rate)
    ensures SettleSpec(st, s, t).state != Playing ==> SettleSpec(st, s, t).playback.engine == st.playback.engine.(rate := 0.0)
  {
    var r := SettleSpec(st, s, t);
    if ShouldResumePlaying(st.state, st.memory.stateWhenConnectionLost, st.memory.stateBeforeBuffering) {
      var playing := Observe(st.(memory := st.memory.(stateBeforeBuffering := None)), Playing, t);
      ObserveEffects(st.(memory := st.memory.(stateBeforeBuffering := None)), Playing, t);
      assert r == WithEngineRate(playing, s.output.rate);
    } else {
      var paused := Observe(WithEngineRate(st, 0.0), Paused, t);
      ObserveEffects(WithEngineRate(st, 0.0), Paused, t);
      assert r == paused && paused.state == Paused;
    }
  }

  /**
   * `startedBuffering`: a buffering that interrupts playback (not one caused by
   * a quality change) is counted; the previous state is kept, and the player
   * buffers if it can reach the network or the URL is offline, and waits for
   * the connection otherwise.
   */
  function StartedBufferingSpec(st: PlayerStatus, env: Env): PlayerStatus
  {
    var to := if env.reachable || CurrentUrlOffline(st, env) then Buffering else WaitingForConnection;
    BeginTask(Observe(BufferingNoted(st), to, env.newTask), env.newTask)
  }

  /** The first steps of `startedBuffering`: a playing player outside a quality change counts an interruption, and the state is remembered. */
  function BufferingNoted(st: PlayerStatus): PlayerStatus
  {
    var counted := if st.state.Playing? && !st.selection.qualityIsBeingChanged then st.memory.interruptionCount + 1 else st.memory.interruptionCount;
    st.(memory := st.memory.(interruptionCount := counted, stateBeforeBuffering := Some(st.state)))
  }

  /** The counter moves only for a playing player outside a quality change, and a background task is always held after. */
  lemma StartedBufferingEffects(st: PlayerStatus, env: Env)
    ensures StartedBufferingSpec(st, env).memory.interruptionCount ==
      if st.state == Playing && !st.selection.qualityIsBeingChanged then st.memory.interruptionCount + 1 else st.memory.interruptionCount
    ensures StartedBufferingSpec(st, env).memory.stateBeforeBuffering == Some(st.state)
    ensures StartedBufferingSpec(st, env).guard.task.Some?
    ensures StartedBufferingSpec(st, env).state ==
      if env.reachable || CurrentUrlOffline(st, env) then Buffering else WaitingForConnection
  {
    ObserveEffects(BufferingNoted(st), Buffering, env.newTask);
    ObserveEffects(BufferingNoted(st), WaitingForConnection, env.newTask);
  }

  /**
   * `connectionLost`: ignored without an item, while already waiting, or when
   * the URL of the current quality is offline. Otherwise the state is recorded,
   * and only with an empty engine buffer does the player wait for the
   * connection, counting the interruption if it was playing.
   */
  function ConnectionLostSpec(st: PlayerStatus, env: Env): PlayerStatus
  {
    if st.selection.currentItem == null || IsWaitingForConnection(st.state) then st
    else if CurrentUrlOffline(st, env) then st
    else
      var recorded := st.(memory := st.memory.(stateWhenConnectionLost := Some(st.state)));
      if !(EngineItemOf(st, env).Some? && env.bufferEmpty) then recorded
      else
        var counted := if st.state.Playing? then st.memory.interruptionCount + 1 else st.memory.interruptionCount;
        BeginTask(Observe(recorded.(memory := recorded.memory.(interruptionCount := counted)), WaitingForConnection, env.newTask), env.newTask)
  }

  /** The three guards of `connectionLost`, and the state recorded even when the buffer is not empty. */
  lemma ConnectionLostEffects(st: PlayerStatus, env: Env)
    ensures var r := ConnectionLostSpec(st, env);
      (st.selection.currentItem == null || st.state == WaitingForConnection || CurrentUrlOffline(st, env) ==> r == st) &&
      (st.selection.currentItem != null && st.state != WaitingForConnection && !CurrentUrlOffline(st, env) ==>
        r.memory.stateWhenConnectionLost == Some(st.state) &&
        (r.state == WaitingForConnection <==> EngineItemOf(st, env).Some? && env.bufferEmpty))
  {
    PredicatesMatchCases(st.state);
  }

  /**
   * `connectionRetrieved`: with a loss date, a recorded state and resumption
   * enabled, playback is retried when the loss was short enough and the
   * player was not stopped, and the recorded state is cleared.
   */
  function ConnectionRetrievedSpec(st: PlayerStatus, s: PlayerSettings, env: Env): PlayerStatus
    requires st.selection.currentItem != null ==> st.selection.currentItem.Valid()
  {
    if env.lossDate.None? || st.memory.stateWhenConnectionLost.None? || !s.recovery.resumeAfterConnectionLoss then st
    else
      var retry := IsAllowedToRestart(env.lossDate.value, env.now, s.recovery.maxConnectionLossTime) &&
                   !IsStopped(st.memory.stateWhenConnectionLost.value);
      LossForgotten(if retry then RetrySpec(st, s, env) else st)
  }

  /** The recorded state of a lost connection cleared. */
  function LossForgotten(st: PlayerStatus): PlayerStatus
  {
    st.(memory := st.memory.(stateWhenConnectionLost := None))
  }

  /**
   * A retrieval acts on a recorded loss only: it clears the record, and it
   * retries exactly when the loss is younger than `maxConnectionLossTime` and
   * the player was not stopped when the connection was lost.
   */
  lemma ConnectionRetrievedEffects(st: PlayerStatus, s: PlayerSettings, env: Env)
    requires st.selection.currentItem != null ==> st.selection.currentItem.Valid()
    ensures var r := ConnectionRetrievedSpec(st, s, env);
      (env.lossDate.None? || st.memory.stateWhenConnectionLost.None? || !s.recovery.resumeAfterConnectionLoss ==> r == st) &&
      (env.lossDate.Some? && st.memory.stateWhenConnectionLost.Some? && s.recovery.resumeAfterConnectionLoss ==>
        r.memory.stateWhenConnectionLost.None? &&
        (env.now >= env.lossDate.value + s.recovery.maxConnectionLossTime ==> r == LossForgotten(st)) &&
        (st.memory.stateWhenConnectionLost.value.Stopped? ==> r == LossForgotten(st)) &&
        (env.now < env.lossDate.value + s.recovery.maxConnectionLossTime && !st.memory.stateWhenConnectionLost.value.Stopped? ==>
          r == LossForgotten(RetrySpec(st, s, env))))
  {
    if env.lossDate.Some? {
      RestartLimitHonoured(env.lossDate.value, env.now, s.recovery.maxConnectionLossTime);
    }
    if st.memory.stateWhenConnectionLost.Some? {
      PredicatesMatchCases(st.memory.stateWhenConnectionLost.value);
    }
  }

  /**
   * `changeQuality(to:)`: only a URL stored under exactly that quality is
   * used; the engine item is replaced, the engine seeks back to the
   * progression read before, and the quality becomes current.
   */
  function ChangeQualitySpec(st: PlayerStatus, q: Quality, env: Env): PlayerStatus
  {
    if st.selection.currentItem == null || q !in st.selection.currentItem.soundURLs then st
    else
      var progress := Progression(EngineItemOf(st, env));
      var replaced := if st.playback.engine.Engine? then st.playback.engine.(url := st.selection.currentItem.soundURLs[q]) else NoPlayer;
      st.(playback := st.playback.(engine := replaced),
          selection := st.selection.(qualityIsBeingChanged := false, currentQuality := q),
          trace := st.trace.(seeks := st.trace.seeks + (if progress.Some? && st.playback.engine.Engine? then [progress.value] else [])))
  }

  /** The engine plays the current item's URL for the current quality, whenever all three exist. */
  predicate PlaysCurrentQuality(st: PlayerStatus)
  {
    st.playback.engine.Engine? && st.selection.currentItem != null && st.selection.currentQuality in st.selection.currentItem.soundURLs ==>
      st.playback.engine.url == st.selection.currentItem.soundURLs[st.selection.currentQuality]
  }

  /**
   * A quality the item has becomes current and the engine switches to its
   * URL, so the engine keeps playing the current quality; any other quality
   * changes nothing.
   */
  lemma ChangeQualityPlaysIt(st: PlayerStatus, q: Quality, env: Env)
    ensures var r := ChangeQualitySpec(st, q, env);
      (st.selection.currentItem == null || q !in st.selection.currentItem.soundURLs ==> r == st) &&
      (st.selection.currentItem != null && q in st.selection.currentItem.soundURLs ==>
        r.selection.currentQuality == q && !r.selection.qualityIsBeingChanged && r.playback.engine.Engine? == st.playback.engine.Engine? &&
        r.selection.currentItem == st.selection.currentItem && r.state == st.state && PlaysCurrentQuality(r))
  {
  }

  /** A new player is created on the URL of the quality that becomes current. */
  lemma AssignPlaysCurrentQuality(st: PlayerStatus, s: PlayerSettings, item: AudioItem, env: Env)
    requires item.Valid()
    ensures PlaysCurrentQuality(AssignSpec(st, s, item, env))
  {
    var info := UrlFor(item.soundURLs, st.selection.currentQuality);
    var dropped := Detached(st, item);
    if env.reachable || info.url in env.offline {
      var buffering := BeginTask(Observe(dropped, Buffering, env.newTask), env.newTask);
      assert buffering.selection.currentItem == item;
    }
  }
}
