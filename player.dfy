/**
 * `AudioPlayer`: the controller. Its settings and its state are fields; the
 * observers on `state`, `currentItem`, `mode`, `rate` and the other settings,
 * the control operations and the event handlers are methods, each proved to
 * have the effect PlayerModel gives it.
 */
module Player {
  import opened Wrappers
  import opened Mode
  import opened State
  import opened Item
  import opened Queue
  import opened Background
  import opened Timing
  import opened PlayerModel
  import NetProducer
  import SeekProducer

  class AudioPlayer {
    // The settings.
    var maxConnectionLossTime: real
    var autoAdjustQuality: bool
    var defaultQuality: Quality
    var resumeAfterInterruption: bool
    var resumeAfterConnectionLoss: bool
    var mode: PlayerMode
    var volume: real
    var rate: real
    var bufferingStrategy: BufferingStrategy
    var preferredBufferDurationBeforePlayback: real
    var seekingBehavior: SeekingBehavior

    // The state.
    var state: PlayerState
    var currentItem: AudioItem?
    var queue: AudioItemQueue?
    var currentQuality: Quality
    var pausedForInterruption: bool
    var qualityIsBeingChanged: bool
    var stateBeforeBuffering: Option<PlayerState>
    var stateWhenConnectionLost: Option<PlayerState>
    /** The quality producer's `interruptionCount`, which the player bumps. */
    var interruptionCount: int
    var retryProducing: bool
    var producersRunning: bool
    var sessionActive: bool
    var engine: Engine
    /** The times the engine player was asked to seek to, oldest first. */
    ghost var seeks: seq<real>
    /** What the delegate was told, oldest first. */
    ghost var calls: seq<DelegateCall>

    const background: BackgroundHandler
    const seekProducer: SeekProducer.SeekEventProducer
    /** The delegate's `shouldStartPlaying` answer; `None` without a delegate. */
    const delegate: Option<AudioItem -> bool>

    /** The four producers run exactly while a player exists. */
    ghost predicate Running()
      reads this`producersRunning, this`engine
    {
      producersRunning == engine.Engine?
    }

    /** The current item has a URL. */
    ghost predicate ItemValid()
      reads this`currentItem
    {
      currentItem != null ==> currentItem.Valid()
    }

    /** The queue keeps its invariant, follows the player's mode and asks the player's delegate. */
    ghost predicate QueueValid()
      reads this`queue, this`mode, queue
    {
      queue != null ==> queue.Valid() && queue.mode == mode && queue.delegate == delegate
    }

    /** What playback relies on: the background guard's invariant and the three above. */
    ghost predicate Consistent()
      reads this`producersRunning, this`engine, this`currentItem, this`queue, this`mode, background, queue
    {
      background.Valid() && Running() && ItemValid() && QueueValid()
    }

    /** The whole invariant: playback's, and the seek producer's. */
    ghost predicate Valid()
      reads this`producersRunning, this`engine, this`currentItem, this`queue, this`mode, background, seekProducer, queue
    {
      Consistent() && seekProducer.Valid()
    }

    function Settings(): PlayerSettings
      reads this
    {
      PlayerSettings(RecoverySettings(maxConnectionLossTime, autoAdjustQuality, defaultQuality,
                                      resumeAfterInterruption, resumeAfterConnectionLoss),
                     OutputSettings(mode, volume, rate, bufferingStrategy, preferredBufferDurationBeforePlayback, seekingBehavior))
    }

    ghost function Status(): PlayerStatus
      reads this, background
    {
      PlayerStatus(state,
                   Selection(currentItem, queue, currentQuality, qualityIsBeingChanged),
                   Memory(pausedForInterruption, stateBeforeBuffering, stateWhenConnectionLost, interruptionCount),
                   Playback(engine, producersRunning, retryProducing, sessionActive),
                   background.State(),
                   Trace(seeks, calls))
    }

    /** `init()`: the default settings, stopped, with the default quality. */
    constructor (delegate: Option<AudioItem -> bool>)
      ensures Valid() && fresh(background) && fresh(seekProducer)
      ensures Settings() == DefaultSettings && Status() == InitialStatus
      ensures currentQuality == defaultQuality
      ensures this.delegate == delegate
    {
      maxConnectionLossTime := 60.0;
      autoAdjustQuality := true;
      defaultQuality := Medium;
      resumeAfterInterruption := true;
      resumeAfterConnectionLoss := true;
      mode := Normal;
      volume := 1.0;
      rate := 1.0;
      bufferingStrategy := DefaultBuffering;
      preferredBufferDurationBeforePlayback := 60.0;
      seekingBehavior := MultiplyRate(2.0);
      state := Stopped;
      currentItem := null;
      queue := null;
      currentQuality := Medium;
      pausedForInterruption := false;
      qualityIsBeingChanged := false;
      stateBeforeBuffering := None;
      stateWhenConnectionLost := None;
      interruptionCount := 0;
      retryProducing := false;
      producersRunning := false;
      sessionActive := false;
      engine := NoPlayer;
      seeks := [];
      calls := [];
      background := new BackgroundHandler();
      seekProducer := new SeekProducer.SeekEventProducer();
      this.delegate := delegate;
    }

    // ------------------------------------------------------------ observers

    /** `state = to`, with its observer. */
    method SetState(to: PlayerState, t: int)
      requires background.Valid()
      modifies this`state, this`calls, background
      ensures background.Valid()
      ensures state == to && calls == old(calls) + Reported(old(state), to)
      ensures background.State() == ObservedGuard(old(background.State()), old(state), to, t)
      ensures Status() == Observe(old(Status()), to, t)
    {
      var from := state;
      state := to;
      if !StateEquals(to, from) {
        TrackBuffering(from, to, t);
        calls := calls + [StateChanged(from, to)];
      }
    }

    /** `backgroundHandler.beginBackgroundTask()` */
    method BeginBackgroundTask(t: int)
      requires background.Valid()
      modifies background
      ensures background.Valid()
      ensures Status() == BeginTask(old(Status()), t)
    {
      var started := background.Begin(t);
    }

    /** `backgroundHandler.endBackgroundTask()` */
    method EndBackgroundTask()
      requires background.Valid()
      modifies background
      ensures background.Valid()
      ensures Status() == EndTask(old(Status()))
    {
      var ended := background.End();
    }

    /** `player?.rate = r` */
    method SetEngineRate(r: real)
      modifies this`engine
      ensures engine == WithRate(old(engine), r)
      ensures Status() == WithEngineRate(old(Status()), r)
    {
      engine := WithRate(engine, r);
    }

    /** `player?.seek(to: time)` */
    method SeekEngine(time: real)
      modifies this`seeks
      ensures Status() == Sought(old(Status()), if engine.Engine? then [time] else [])
    {
      if engine.Engine? {
        seeks := seeks + [time];
      }
    }

    /** `player?.replaceCurrentItem(with:)` for an item playing `url`. */
    method ReplaceEngineItem(url: Url)
      modifies this`engine
      ensures engine.Engine? == old(engine).Engine?
      ensures Status() == WithEngine(old(Status()), if old(engine).Engine? then old(engine).(url := url) else NoPlayer)
    {
      if engine.Engine? {
        engine := engine.(url := url);
      }
    }

    /** The part of the observer on `state` that drives the background task. */
    method TrackBuffering(from: PlayerState, to: PlayerState, t: int)
      requires background.Valid()
      modifies background
      ensures background.Valid()
      ensures background.State() == GuardAfter(old(background.State()), from, to, t)
    {
      if to.Buffering? {
        var started := background.Begin(t);
      } else if from.Buffering? {
        var ended := background.End();
      }
    }

    /** `player?.rate = 0; player = nil`, with the observer on `player`: the four producers stop. */
    method DropPlayer()
      modifies this`engine, this`producersRunning
      ensures engine == NoPlayer && !producersRunning
    {
      engine := WithRate(engine, 0.0);
      engine := NoPlayer;
      producersRunning := false;
    }

    /** `player = AVPlayer(playerItem:)`, with its observer: rate, volume and stalling policy are applied and the producers start. */
    method CreatePlayer(url: Url)
      modifies this`engine, this`producersRunning
      ensures engine == Engine(url, rate, volume, AutomaticallyWaits(bufferingStrategy)) && producersRunning
    {
      engine := Engine(url, rate, volume, AutomaticallyWaits(bufferingStrategy));
      producersRunning := true;
    }

    /** `currentItem = item`, with its observer: nil stops the player. */
    method AssignCurrentItem(item: AudioItem?, env: Env)
      requires background.Valid() && Running() && QueueValid() && (item != null ==> item.Valid())
      modifies this`currentItem, this`engine, this`producersRunning, this`sessionActive, this`stateWhenConnectionLost,
               this`state, this`calls, this`pausedForInterruption, this`currentQuality, this`retryProducing,
               this`queue, background
      ensures Consistent()
      ensures Status() == AssignOrStop(old(Status()), Settings(), item, env)
    {
      if item == null {
        currentItem := null;
        Stop(env.newTask);
      } else {
        AssignItem(item, env);
      }
    }

    /** The observer on `currentItem` for an item. */
    method AssignItem(item: AudioItem, env: Env)
      requires background.Valid() && item.Valid()
      modifies this`currentItem, this`engine, this`producersRunning, this`sessionActive, this`stateWhenConnectionLost,
               this`state, this`calls, this`pausedForInterruption, this`currentQuality, background
      ensures background.Valid() && Running() && ItemValid()
      ensures Status() == AssignSpec(old(Status()), Settings(), item, env)
    {
      var previous := currentItem;
      Detach(item);
      var info := item.UrlForQuality(currentQuality);
      if !(env.reachable || info.url in env.offline) {
        WaitForConnection(env.newTask);
      } else {
        StartBuffering(info, if previous != item then [WillStartPlaying(item)] else [], env.newTask);
      }
    }

    /** The first steps of the observer on `currentItem`. */
    method Detach(item: AudioItem)
      modifies this`currentItem, this`engine, this`producersRunning, this`sessionActive
      ensures Status() == Detached(old(Status()), item)
    {
      currentItem := item;
      DropPlayer();
      sessionActive := true;
    }

    /** The observer on `currentItem` without a reachable or offline URL. */
    method WaitForConnection(t: int)
      requires background.Valid()
      modifies this`stateWhenConnectionLost, this`state, this`calls, background
      ensures background.Valid()
      ensures Status() == WaitSpec(old(Status()), t)
    {
      stateWhenConnectionLost := Some(Buffering);
      SetState(WaitingForConnection, t);
      BeginBackgroundTask(t);
    }

    /** The observer on `currentItem` with a reachable or offline URL; `announced` is what the delegate is told of the item. */
    method StartBuffering(info: ItemUrl, announced: seq<DelegateCall>, t: int)
      requires background.Valid()
      modifies this`engine, this`producersRunning, this`state, this`calls, this`pausedForInterruption, this`currentQuality, background
      ensures background.Valid() && Running()
      ensures Status() == BufferSpec(old(Status()), Settings(), info, announced, t)
    {
      SetState(Buffering, t);
      BeginBackgroundTask(t);
      Attach(info, announced);
    }

    /** The player for `info` is created and set going at the player's rate. */
    method Attach(info: ItemUrl, announced: seq<DelegateCall>)
      modifies this`engine, this`producersRunning, this`calls, this`pausedForInterruption, this`currentQuality
      ensures Running()
      ensures Status() == Attached(old(Status()), Settings(), info, announced)
    {
      Prepare(info.quality, announced);
      StartPlayer(info.url);
    }

    /** The bookkeeping before the player is created. */
    method Prepare(q: Quality, announced: seq<DelegateCall>)
      modifies this`calls, this`pausedForInterruption, this`currentQuality
      ensures Status() == Prepared(old(Status()), q, announced)
    {
      pausedForInterruption := false;
      currentQuality := q;
      calls := calls + announced;
    }

    /** The player is created and set going at the player's rate. */
    method StartPlayer(url: Url)
      modifies this`engine, this`producersRunning
      ensures Running()
      ensures Status() == PlayerStarted(old(Status()), Settings(), url)
    {
      CreatePlayer(url);
      engine := WithRate(engine, rate);
    }

    /** `mode = newMode`, forwarded to the queue; `played` and `leftovers` are the shuffles the queue would draw. */
    method SetMode(newMode: PlayerMode, played: seq<AudioItem>, leftovers: seq<AudioItem>)
      requires QueueValid()
      requires queue != null ==> AdaptDefined(queue.queue, queue.history, queue.nextPosition, queue.mode, newMode)
      requires queue != null ==> ShufflesFit(queue.queue, queue.history, queue.nextPosition, queue.mode, newMode, played, leftovers)
      modifies this`mode, queue
      ensures QueueValid()
      ensures mode == newMode && Status() == old(Status())
      ensures queue != null ==>
        Traversal(queue.queue, queue.nextPosition) ==
        Adapted(old(queue.items), old(queue.queue), old(queue.history), old(queue.nextPosition), old(queue.mode), newMode, played, leftovers)
      ensures queue != null ==>
        queue.mode == newMode && queue.items == old(queue.items) && queue.history == old(queue.history) &&
        queue.delegate == old(queue.delegate)
    {
      mode := newMode;
      if queue != null {
        queue.SetMode(newMode, played, leftovers);
      }
    }

    /** `rate = r`: the engine follows only while playing. */
    method SetRate(r: real)
      requires Running()
      modifies this`rate, this`engine
      ensures Running()
      ensures rate == r
      ensures Status() == if old(state).Playing? then WithEngineRate(old(Status()), r) else old(Status())
    {
      rate := r;
      if state.Playing? {
        engine := WithRate(engine, r);
      }
    }

    /** `volume = v`: the engine follows. */
    method SetVolume(v: real)
      requires Running()
      modifies this`volume, this`engine
      ensures Running()
      ensures volume == v
      ensures Status() == WithEngine(old(Status()), if old(engine).Engine? then old(engine).(volume := v) else NoPlayer)
    {
      volume := v;
      if engine.Engine? {
        engine := engine.(volume := v);
      }
    }

    /** `bufferingStrategy = b`: the engine's stalling policy follows. */
    method SetBufferingStrategy(b: BufferingStrategy)
      requires Running()
      modifies this`bufferingStrategy, this`engine
      ensures Running()
      ensures bufferingStrategy == b
      ensures Status() == WithEngine(old(Status()), if old(engine).Engine? then old(engine).(automaticallyWaits := b != PlayWhenBufferNotEmpty) else NoPlayer)
    {
      bufferingStrategy := b;
      if engine.Engine? {
        engine := engine.(automaticallyWaits := AutomaticallyWaits(bufferingStrategy));
      }
    }

    /** `seekingBehavior = b`: a time-changing behaviour sets the seek producer's interval. */
    method SetSeekingBehavior(b: SeekingBehavior)
      requires seekProducer.Valid()
      modifies this`seekingBehavior, seekProducer
      ensures seekProducer.Valid()
      ensures seekingBehavior == b && Status() == old(Status())
      ensures seekProducer.intervalBetweenEvents == if b.ChangeTime? then b.every else old(seekProducer.intervalBetweenEvents)
      ensures seekProducer.listening == old(seekProducer.listening) && seekProducer.isBackward == old(seekProducer.isBackward)
      ensures seekProducer.timer == old(seekProducer.timer) && seekProducer.armed == old(seekProducer.armed)
    {
      seekingBehavior := b;
      if b.ChangeTime? {
        seekProducer.intervalBetweenEvents := b.every;
      }
    }

    /** `player?.currentItem`, read off the environment while a player exists. */
    function CurrentEngineItem(env: Env): (r: Option<EngineItem>)
      reads this
      ensures r == EngineItemOf(Status(), env)
    {
      if engine.Engine? then env.engineItem else None
    }

    /** The engine item's status is `.readyToPlay`. */
    predicate EngineItemReady(env: Env)
      reads this
      ensures EngineItemReady(env) <==> ItemReady(Status(), env)
    {
      var item := CurrentEngineItem(env);
      item.Some? && item.value.readyToPlay
    }

    /** The current item's URL for the current quality is an offline one. */
    predicate CurrentUrlIsOffline(env: Env)
      reads this
      ensures CurrentUrlIsOffline(env) <==> CurrentUrlOffline(Status(), env)
    {
      currentItem != null && currentQuality in currentItem.soundURLs &&
      currentItem.soundURLs[currentQuality] in env.offline
    }

    /** `shouldResumePlaying` */
    predicate ShouldResume()
      reads this
    {
      ShouldResumePlaying(state, stateWhenConnectionLost, stateBeforeBuffering)
    }

    /** `retryOrPlayNext()` */
    method RetryOrPlayNext(env: Env)
      requires Consistent()
      modifies this`currentItem, this`engine, this`producersRunning, this`sessionActive, this`stateWhenConnectionLost,
               this`state, this`calls, this`pausedForInterruption, this`currentQuality, this`retryProducing,
               this`queue, this`seeks, background
      ensures Consistent()
      ensures Status() == RetrySpec(old(Status()), Settings(), env)
    {
      if IsPlaying(state) {
        retryProducing := false;
        return;
      }
      var progress := Progression(CurrentEngineItem(env));
      var item := currentItem;
      AssignCurrentItem(item, env);
      if progress.Some? {
        SeekEngine(progress.value);
      }
    }

    // -------------------------------------------------------------- control

    /** `resume()` */
    method Resume(t: int)
      requires background.Valid() && Running()
      modifies this`pausedForInterruption, this`engine, this`state, this`calls, this`retryProducing, background
      ensures background.Valid() && Running()
      ensures Status() == ResumeSpec(old(Status()), Settings(), t)
    {
      pausedForInterruption := false;
      SetEngineRate(rate);
      if !IsPlaying(state) && !IsBuffering(state) {
        SetState(Playing, t);
      }
      retryProducing := true;
    }

    /** `pause()` */
    method Pause(t: int)
      requires background.Valid() && Running()
      modifies this`engine, this`state, this`calls, this`retryProducing, background
      ensures background.Valid() && Running()
      ensures Status() == PauseSpec(old(Status()), t)
    {
      SetEngineRate(0.0);
      SetState(Paused, t);
      retryProducing := false;
      BeginBackgroundTask(t);
    }

    /** `playImmediately()` */
    method PlayImmediately(t: int)
      requires background.Valid() && Running()
      modifies this`engine, this`state, this`calls, this`retryProducing, background
      ensures background.Valid() && Running()
      ensures Status() == PlayImmediatelySpec(old(Status()), Settings(), t)
    {
      SetState(Playing, t);
      SetEngineRate(rate);
      retryProducing := false;
      EndBackgroundTask();
    }

    /** `stop()`. Assigning nil to `currentItem` re-enters `stop()` through the observer; that inner call does what the rest of this one does, so the model does it once. */
    method Stop(t: int)
      requires background.Valid() && Running()
      modifies this`retryProducing, this`engine, this`producersRunning, this`currentItem, this`queue,
               this`sessionActive, this`state, this`calls, background
      ensures Consistent()
      ensures Status() == StopSpec(old(Status()), t)
    {
      Release();
      SetState(Stopped, t);
    }

    /** The part of `stop()` before the state changes. */
    method Release()
      requires Running()
      modifies this`retryProducing, this`engine, this`producersRunning, this`currentItem, this`queue, this`sessionActive
      ensures Running() && currentItem == null && queue == null
      ensures Status() == Released(old(Status()))
    {
      retryProducing := false;
      if engine.Engine? {
        DropPlayer();
      }
      currentItem := null;
      queue := null;
      sessionActive := false;
    }

    /** The queue can hand out its next item without trapping. */
    ghost predicate CanStepForward()
      reads this, queue
    {
      queue != null ==> NextDefined(queue.queue, queue.nextPosition, queue.mode)
    }

    /** The queue can hand out its previous item without trapping. */
    ghost predicate CanStepBackward()
      reads this, queue
    {
      queue != null ==> PreviousDefined(queue.queue, queue.nextPosition)
    }

    /** `queue?.nextItem()`, the step it takes, as seen before the call. */
    ghost function ForwardStep(): Step
      reads this, queue
      requires queue != null && CanStepForward()
    {
      NextStep(queue.queue, queue.nextPosition, queue.mode, queue.delegate)
    }

    /** `queue?.previousItem()`, the step it takes, as seen before the call. */
    ghost function BackwardStep(): Step
      reads this, queue
      requires queue != null && CanStepBackward()
    {
      PreviousStep(queue.queue, queue.nextPosition, queue.mode, queue.delegate)
    }

    /** `next()`: the next item, if any, becomes current; otherwise nothing happens. */
    method Next(env: Env)
      requires Consistent() && CanStepForward()
      modifies this`currentItem, this`engine, this`producersRunning, this`sessionActive, this`stateWhenConnectionLost,
               this`state, this`calls, this`pausedForInterruption, this`currentQuality, background, queue
      ensures Consistent()
      ensures old(queue) == null ==> Status() == old(Status())
      ensures old(queue) != null ==>
        var step := old(ForwardStep());
        queue == old(queue) && queue.nextPosition == step.nextPosition &&
        queue.history == old(queue.history) + ToSeq(step.item) &&
        queue.queue == old(queue.queue) && queue.items == old(queue.items) &&
        Status() == if step.item.None? then old(Status()) else AssignOrStop(old(Status()), Settings(), step.item.value, env)
    {
      if queue != null {
        var item := queue.NextItem();
        if item.Some? {
          AssignItem(item.value, env);
        }
      }
    }

    /** `nextOrStop()`: the next item, if any, becomes current; otherwise the player stops. */
    method NextOrStop(env: Env)
      requires Consistent() && CanStepForward()
      modifies this`currentItem, this`engine, this`producersRunning, this`sessionActive, this`stateWhenConnectionLost,
               this`state, this`calls, this`pausedForInterruption, this`currentQuality, this`retryProducing,
               this`queue, background, queue
      ensures Consistent()
      ensures old(queue) == null ==> Status() == StopSpec(old(Status()), env.newTask)
      ensures old(queue) != null ==>
        var step := old(ForwardStep());
        old(queue).nextPosition == step.nextPosition &&
        old(queue).history == old(queue.history) + ToSeq(step.item) &&
        old(queue).queue == old(queue.queue) && old(queue).items == old(queue.items) &&
        Status() == if step.item.None? then StopSpec(old(Status()), env.newTask)
                    else AssignOrStop(old(Status()), Settings(), step.item.value, env)
    {
      var item := None;
      if queue != null {
        item := queue.NextItem();
      }
      if item.Some? {
        AssignCurrentItem(item.value, env);
      } else {
        Stop(env.newTask);
      }
    }

    /** `previous()`: the previous item, if any, becomes current; otherwise the engine goes back to 0. */
    method Previous(env: Env)
      requires Consistent() && CanStepBackward()
      modifies this`currentItem, this`engine, this`producersRunning, this`sessionActive, this`stateWhenConnectionLost,
               this`state, this`calls, this`pausedForInterruption, this`currentQuality, this`retryProducing,
               this`queue, this`seeks, background, queue
      ensures Consistent()
      ensures var rewound := Sought(old(Status()), SoughtBy(old(engine), SeekAction.SeekTo(0.0)));
        old(queue) == null ==> Status() == rewound
      ensures old(queue) != null ==>
        var step := old(BackwardStep());
        var rewound := Sought(old(Status()), SoughtBy(old(engine), SeekAction.SeekTo(0.0)));
        old(queue).nextPosition == step.nextPosition &&
        old(queue).history == old(queue.history) + ToSeq(step.item) &&
        old(queue).queue == old(queue.queue) && old(queue).items == old(queue.items) &&
        Status() == if step.item.None? then rewound else AssignOrStop(old(Status()), Settings(), step.item.value, env)
    {
      var item := None;
      if queue != null {
        item := queue.PreviousItem();
      }
      if item.Some? {
        AssignCurrentItem(item.value, env);
      } else {
        var action := Seek(0.0, false, false, env);
      }
    }

    /** `seek(to:byAdaptingTimeToFitSeekableRanges:_:)`; `hasCompletion` says whether a completion was given. */
    method Seek(time: real, adapt: bool, hasCompletion: bool, env: Env) returns (action: SeekAction)
      modifies this`seeks
      ensures action == Timing.Seek(time, SeekableRange(EngineItemOf(old(Status()), env)), adapt, hasCompletion, ItemReady(old(Status()), env))
      ensures Status() == Sought(old(Status()), SoughtBy(old(engine), action))
    {
      action := Timing.Seek(time, SeekableRange(CurrentEngineItem(env)), adapt, hasCompletion, EngineItemReady(env));
      seeks := seeks + SoughtBy(engine, action);
    }

    /** `seekToSeekableRangeStart(padding:_:)` */
    method SeekToSeekableRangeStart(padding: real, hasCompletion: bool, env: Env) returns (action: SeekAction)
      modifies this`seeks
      ensures action == SeekToRangeStart(SeekableRange(EngineItemOf(old(Status()), env)), padding, hasCompletion, ItemReady(old(Status()), env))
      ensures Status() == Sought(old(Status()), SoughtBy(old(engine), action))
    {
      action := SeekToRangeStart(SeekableRange(CurrentEngineItem(env)), padding, hasCompletion, EngineItemReady(env));
      seeks := seeks + SoughtBy(engine, action);
    }

    /** `seekToSeekableRangeEnd(padding:_:)` */
    method SeekToSeekableRangeEnd(padding: real, hasCompletion: bool, env: Env) returns (action: SeekAction)
      modifies this`seeks
      ensures action == SeekToRangeEnd(SeekableRange(EngineItemOf(old(Status()), env)), padding, hasCompletion, ItemReady(old(Status()), env))
      ensures Status() == Sought(old(Status()), SoughtBy(old(engine), action))
    {
      action := SeekToRangeEnd(SeekableRange(CurrentEngineItem(env)), padding, hasCompletion, EngineItemReady(env));
      seeks := seeks + SoughtBy(engine, action);
    }

    /** `handleSeekingStart(_:forward:)` of the current seeking behaviour. */
    method SeekingStart(forward: bool)
      requires Running() && seekProducer.Valid()
      modifies this`rate, this`engine, seekProducer
      ensures Running() && seekProducer.Valid()
      ensures old(seekingBehavior).MultiplyRate? ==>
        var r := SeekingStartRate(old(seekingBehavior).factor, old(rate), forward);
        rate == r &&
        Status() == (if old(state).Playing? then WithEngineRate(old(Status()), r) else old(Status())) &&
        unchanged(seekProducer)
      ensures old(seekingBehavior).ChangeTime? ==>
        rate == old(rate) && Status() == old(Status()) &&
        seekProducer.isBackward == !forward && seekProducer.listening &&
        (!old(seekProducer.listening) ==> seekProducer.armed == {old(seekProducer.scheduled)})
    {
      match seekingBehavior
      case MultiplyRate(m) =>
        SetRate(SeekingStartRate(m, rate, forward));
      case ChangeTime(_, _) =>
        seekProducer.isBackward := !forward;
        seekProducer.StartProducing();
    }

    /** `handleSeekingEnd(_:forward:)` of the current seeking behaviour; a zero factor traps. */
    method SeekingEnd(forward: bool)
      requires Running() && seekProducer.Valid()
      requires seekingBehavior.MultiplyRate? ==> seekingBehavior.factor != 0.0
      modifies this`rate, this`engine, seekProducer
      ensures Running() && seekProducer.Valid()
      ensures old(seekingBehavior).MultiplyRate? ==>
        var r := SeekingEndRate(old(seekingBehavior).factor, old(rate), forward);
        rate == r &&
        Status() == (if old(state).Playing? then WithEngineRate(old(Status()), r) else old(Status())) &&
        unchanged(seekProducer)
      ensures old(seekingBehavior).ChangeTime? ==>
        rate == old(rate) && Status() == old(Status()) &&
        !seekProducer.listening && seekProducer.isBackward == old(seekProducer.isBackward) &&
        (old(seekProducer.listening) ==> seekProducer.armed == {})
    {
      match seekingBehavior
      case MultiplyRate(m) =>
        SetRate(SeekingEndRate(m, rate, forward));
      case ChangeTime(_, _) =>
        seekProducer.StopProducing();
    }

    /** `remoteControlReceived(with:)` */
    method RemoteControlReceived(e: RemoteEvent, env: Env)
      requires Valid()
      requires RemoteActionFor(e, state) == GoNext ==> CanStepForward()
      requires RemoteActionFor(e, state) == GoPrevious ==> CanStepBackward()
      requires RemoteActionFor(e, state).EndSeeking? && seekingBehavior.MultiplyRate? ==> seekingBehavior.factor != 0.0
      modifies this`currentItem, this`engine, this`producersRunning, this`sessionActive, this`stateWhenConnectionLost,
               this`state, this`calls, this`pausedForInterruption, this`currentQuality, this`retryProducing,
               this`queue, this`seeks, this`rate,
               background, queue, seekProducer
      ensures Valid()
      ensures RemoteActionFor(e, old(state)) == Ignore ==>
        Status() == old(Status()) && rate == old(rate) && unchanged(seekProducer)
      ensures RemoteActionFor(e, old(state)) == DoPause ==> Status() == PauseSpec(old(Status()), env.newTask)
      ensures RemoteActionFor(e, old(state)) == DoResume ==> Status() == ResumeSpec(old(Status()), Settings(), env.newTask)
      ensures RemoteActionFor(e, old(state)) == DoStop ==> Status() == StopSpec(old(Status()), env.newTask)
      ensures !RemoteActionFor(e, old(state)).StartSeeking? && !RemoteActionFor(e, old(state)).EndSeeking? ==>
        rate == old(rate) && unchanged(seekProducer)
      ensures RemoteActionFor(e, old(state)) == GoNext ==>
        Status() == if old(queue) == null || old(ForwardStep()).item.None? then old(Status())
                    else AssignOrStop(old(Status()), Settings(), old(ForwardStep()).item.value, env)
      ensures RemoteActionFor(e, old(state)) == GoNext && old(queue) != null ==>
        var step := old(ForwardStep());
        queue == old(queue) && queue.nextPosition == step.nextPosition &&
        queue.history == old(queue.history) + ToSeq(step.item) &&
        queue.queue == old(queue.queue) && queue.items == old(queue.items)
      ensures RemoteActionFor(e, old(state)) == GoPrevious ==>
        var rewound := Sought(old(Status()), SoughtBy(old(engine), SeekAction.SeekTo(0.0)));
        Status() == if old(queue) == null || old(BackwardStep()).item.None? then rewound
                    else AssignOrStop(old(Status()), Settings(), old(BackwardStep()).item.value, env)
      ensures RemoteActionFor(e, old(state)) == GoPrevious && old(queue) != null ==>
        var step := old(BackwardStep());
        old(queue).nextPosition == step.nextPosition &&
        old(queue).history == old(queue.history) + ToSeq(step.item) &&
        old(queue).queue == old(queue.queue) && old(queue).items == old(queue.items)
      ensures RemoteActionFor(e, old(state)).StartSeeking? && old(seekingBehavior).MultiplyRate? ==>
        var r := SeekingStartRate(old(seekingBehavior).factor, old(rate), RemoteActionFor(e, old(state)).forward);
        rate == r && Status() == (if old(state).Playing? then WithEngineRate(old(Status()), r) else old(Status()))
      ensures RemoteActionFor(e, old(state)).EndSeeking? && old(seekingBehavior).MultiplyRate? ==>
        var r := SeekingEndRate(old(seekingBehavior).factor, old(rate), RemoteActionFor(e, old(state)).forward);
        rate == r && Status() == (if old(state).Playing? then WithEngineRate(old(Status()), r) else old(Status()))
      ensures RemoteActionFor(e, old(state)).StartSeeking? && old(seekingBehavior).ChangeTime? ==>
        rate == old(rate) && Status() == old(Status()) && seekProducer.listening &&
        seekProducer.isBackward == !RemoteActionFor(e, old(state)).forward
      ensures RemoteActionFor(e, old(state)).EndSeeking? && old(seekingBehavior).ChangeTime? ==>
        rate == old(rate) && Status() == old(Status()) && !seekProducer.listening
    {
      var action := RemoteActionFor(e, state);
      if action.StartSeeking? || action.EndSeeking? {
        RemoteSeeking(action);
      } else {
        Navigate(action, env);
      }
    }

    /** The seeking actions of `remoteControlReceived(with:)`: the current seeking behaviour starts or ends. */
    method RemoteSeeking(action: RemoteAction)
      requires action.StartSeeking? || action.EndSeeking?
      requires Valid()
      requires action.EndSeeking? && seekingBehavior.MultiplyRate? ==> seekingBehavior.factor != 0.0
      modifies this`rate, this`engine, seekProducer
      ensures Valid()
      ensures action.StartSeeking? && old(seekingBehavior).MultiplyRate? ==>
        var r := SeekingStartRate(old(seekingBehavior).factor, old(rate), action.forward);
        rate == r && Status() == (if old(state).Playing? then WithEngineRate(old(Status()), r) else old(Status()))
      ensures action.EndSeeking? && old(seekingBehavior).MultiplyRate? ==>
        var r := SeekingEndRate(old(seekingBehavior).factor, old(rate), action.forward);
        rate == r && Status() == (if old(state).Playing? then WithEngineRate(old(Status()), r) else old(Status()))
      ensures action.StartSeeking? && old(seekingBehavior).ChangeTime? ==>
        rate == old(rate) && Status() == old(Status()) && seekProducer.listening && seekProducer.isBackward == !action.forward
      ensures action.EndSeeking? && old(seekingBehavior).ChangeTime? ==>
        rate == old(rate) && Status() == old(Status()) && !seekProducer.listening
    {
      if action.StartSeeking? {
        SeekingStart(action.forward);
      } else {
        SeekingEnd(action.forward);
      }
    }

    /** The actions of `remoteControlReceived(with:)` other than seeking: a queue step, or pause, resume and stop. */
    method Navigate(action: RemoteAction, env: Env)
      requires Valid()
      requires action == GoNext ==> CanStepForward()
      requires action == GoPrevious ==> CanStepBackward()
      modifies this`currentItem, this`engine, this`producersRunning, this`sessionActive, this`stateWhenConnectionLost,
               this`state, this`calls, this`pausedForInterruption, this`currentQuality, this`retryProducing,
               this`queue, this`seeks, background, queue
      ensures Valid()
      ensures action == Ignore || action.StartSeeking? || action.EndSeeking? ==> Status() == old(Status())
      ensures action == DoPause ==> Status() == PauseSpec(old(Status()), env.newTask)
      ensures action == DoResume ==> Status() == ResumeSpec(old(Status()), Settings(), env.newTask)
      ensures action == DoStop ==> Status() == StopSpec(old(Status()), env.newTask)
      ensures action == GoNext ==>
        Status() == if old(queue) == null || old(ForwardStep()).item.None? then old(Status())
                    else AssignOrStop(old(Status()), Settings(), old(ForwardStep()).item.value, env)
      ensures action == GoNext && old(queue) != null ==>
        var step := old(ForwardStep());
        queue == old(queue) && queue.nextPosition == step.nextPosition &&
        queue.history == old(queue.history) + ToSeq(step.item) &&
        queue.queue == old(queue.queue) && queue.items == old(queue.items)
      ensures action == GoPrevious ==>
        var rewound := Sought(old(Status()), SoughtBy(old(engine), SeekAction.SeekTo(0.0)));
        Status() == if old(queue) == null || old(BackwardStep()).item.None? then rewound
                    else AssignOrStop(old(Status()), Settings(), old(BackwardStep()).item.value, env)
      ensures action == GoPrevious && old(queue) != null ==>
        var step := old(BackwardStep());
        old(queue).nextPosition == step.nextPosition &&
        old(queue).history == old(queue.history) + ToSeq(step.item) &&
        old(queue).queue == old(queue.queue) && old(queue).items == old(queue.items)
    {
      match action
      case GoNext => Next(env);
      case GoPrevious => Previous(env);
      case _ => ControlPlayback(action, env.newTask);
    }

    /** The actions of `remoteControlReceived(with:)` that pause, resume or stop; the others do nothing here. */
    method ControlPlayback(action: RemoteAction, t: int)
      requires Consistent()
      modifies this`currentItem, this`engine, this`producersRunning, this`sessionActive, this`state, this`calls,
               this`pausedForInterruption, this`retryProducing, this`queue, background
      ensures Consistent()
      ensures action.DoPause? ==> Status() == PauseSpec(old(Status()), t)
      ensures action.DoResume? ==> Status() == ResumeSpec(old(Status()), Settings(), t)
      ensures action.DoStop? ==> Status() == StopSpec(old(Status()), t)
      ensures !action.DoPause? && !action.DoResume? && !action.DoStop? ==> Status() == old(Status())
    {
      match action
      case DoPause => Pause(t);
      case DoResume => Resume(t);
      case DoStop => Stop(t);
      case _ =>
    }

    // ----------------------------------------------------------------- queue

    /** `items`: the traversal order, absent without a queue. */
    function Items(): (r: Option<seq<AudioItem>>)
      reads this, queue
      ensures r.Some? <==> queue != null
      ensures r.Some? ==> r.value == queue.queue
    {
      if queue != null then Some(queue.queue) else None
    }

    /** `currentItemIndexInQueue`: where the current item first appears in the original order. */
    function CurrentItemIndexInQueue(): (r: Option<nat>)
      reads this, queue
      ensures r.Some? <==> currentItem != null && queue != null && currentItem in queue.items
      ensures r.Some? ==>
        r.value < |queue.items| && queue.items[r.value] == currentItem && currentItem !in queue.items[..r.value]
    {
      if currentItem == null || queue == null then None else FirstIndexOf(queue.items, currentItem)
    }

    /** `hasNext`: false without a queue. */
    function HasNext(): (r: bool)
      reads this, queue
      ensures r <==>
        queue != null && |queue.queue| > 0 &&
        (queue.nextPosition < |queue.queue| || Contains(queue.mode, Repeat) || Contains(queue.mode, RepeatAll))
    {
      queue != null && queue.HasNextItem()
    }

    /** `hasPrevious`: false without a queue. */
    function HasPrevious(): (r: bool)
      reads this, queue
      ensures r <==>
        queue != null && |queue.queue| > 0 &&
        (queue.nextPosition > 0 || Contains(queue.mode, Repeat) || Contains(queue.mode, RepeatAll))
    {
      queue != null && queue.HasPreviousItem()
    }

    /** `audioItemQueue(_:shouldConsider:)`: the delegate's answer, true without a delegate. */
    predicate ShouldConsider(item: AudioItem)
    {
      Considers(delegate, item)
    }

    /**
     * `play(_:startAtIndex:)`: no items stop the player; otherwise a new queue
     * in the current mode (with `shuffled` as its shuffle) starts at the
     * traversal position of `items[index]`, and its next item becomes current.
     */
    method Play(items: seq<AudioItem>, index: nat, shuffled: seq<AudioItem>, env: Env) returns (ghost created: AudioItemQueue?)
      requires Consistent() && AllValid(items) && IsShuffleOf(shuffled, items)
      requires |items| > 0 ==> index < |items|
      modifies this`currentItem, this`engine, this`producersRunning, this`sessionActive, this`stateWhenConnectionLost,
               this`state, this`calls, this`pausedForInterruption, this`currentQuality, this`retryProducing,
               this`queue, background
      ensures Consistent()
      ensures |items| == 0 ==> created == null && Status() == StopSpec(old(Status()), env.newTask)
      ensures |items| > 0 ==>
        created != null && fresh(created) &&
        created.items == items && created.mode == mode && created.delegate == delegate &&
        created.queue == (if Contains(mode, Shuffle) then shuffled else items) &&
        items[index] in created.queue && AllValid(created.queue) &&
        var step := NextStep(created.queue, FirstIndexOf(created.queue, items[index]).value, mode, delegate);
        created.nextPosition == step.nextPosition && created.history == ToSeq(step.item) &&
        Status() == AssignOrStop(old(Status()).(selection := old(Status()).selection.(queue := created)), Settings(),
                                 if step.item.Some? then step.item.value else null, env)
    {
      if |items| == 0 {
        Stop(env.newTask);
        queue := null;
        return null;
      }
      var q := NewQueue(items, index, shuffled);
      created := q;
      queue := q;
      var item := q.NextItem();
      AssignCurrentItem(if item.Some? then item.value else null, env);
    }

    /** The queue `play` creates, positioned at the traversal position of `items[index]`. */
    method NewQueue(items: seq<AudioItem>, index: nat, shuffled: seq<AudioItem>) returns (q: AudioItemQueue)
      requires AllValid(items) && IsShuffleOf(shuffled, items) && index < |items|
      ensures fresh(q) && q.Valid()
      ensures q.items == items && q.mode == mode && q.delegate == delegate && q.history == []
      ensures q.queue == (if Contains(mode, Shuffle) then shuffled else items)
      ensures items[index] in q.queue && AllValid(q.queue)
      ensures q.nextPosition == FirstIndexOf(q.queue, items[index]).value
    {
      q := new AudioItemQueue(items, mode, shuffled);
      q.delegate := delegate;
      assert items[index] in multiset(q.queue);
      var realIndex := FirstIndexOf(q.queue, items[index]);
      if realIndex.Some? {
        q.nextPosition := realIndex.value;
      }
    }

    /** `add(_:)`: appended to the queue, or played when there is none. */
    method Add(items: seq<AudioItem>, shuffled: seq<AudioItem>, env: Env)
      requires Consistent() && AllValid(items) && IsShuffleOf(shuffled, items)
      modifies this`currentItem, this`engine, this`producersRunning, this`sessionActive, this`stateWhenConnectionLost,
               this`state, this`calls, this`pausedForInterruption, this`currentQuality, this`retryProducing,
               this`queue, background, queue
      ensures Consistent()
      ensures old(queue) != null ==>
        Status() == old(Status()) &&
        queue.items == old(queue.items) + items && queue.queue == old(queue.queue) + items &&
        queue.nextPosition == old(queue.nextPosition) && queue.history == old(queue.history)
      ensures old(queue) == null && |items| == 0 ==> Status() == StopSpec(old(Status()), env.newTask)
      ensures old(queue) == null && |items| > 0 ==> queue != null || currentItem == null
    {
      if queue != null {
        queue.Add(items);
      } else {
        var created := Play(items, 0, shuffled, env);
      }
    }

    /** `removeItem(at:)`: removed from the queue; nothing happens without one. */
    method RemoveItem(index: nat)
      requires QueueValid() && (queue != null ==> index < |queue.queue|)
      modifies queue
      ensures QueueValid()
      ensures queue != null ==>
        queue.queue == RemoveAt(old(queue.queue), index) &&
        queue.nextPosition == old(queue.nextPosition) && queue.history == old(queue.history)
      ensures queue != null ==>
        var i := FirstIndexOf(old(queue.items), old(queue.queue)[index]);
        i.Some? && queue.items == RemoveAt(old(queue.items), i.value)
    {
      if queue != null {
        queue.Remove(index);
      }
    }

    // ---------------------------------------------------------- player events

    /** `endedPlaying`: a failure with the error, or the next item. */
    method EndedPlaying(error: Option<FoundationError>, env: Env)
      requires Consistent() && (error.None? ==> CanStepForward())
      modifies this`currentItem, this`engine, this`producersRunning, this`sessionActive, this`stateWhenConnectionLost,
               this`state, this`calls, this`pausedForInterruption, this`currentQuality, this`retryProducing,
               this`queue, background, queue
      ensures Consistent()
      ensures error.Some? ==> Status() == Observe(old(Status()), Failed(FoundationErr(error.value)), env.newTask)
      ensures error.None? && old(queue) == null ==> Status() == StopSpec(old(Status()), env.newTask)
      ensures error.None? && old(queue) != null ==>
        var step := old(ForwardStep());
        old(queue).nextPosition == step.nextPosition &&
        old(queue).history == old(queue.history) + ToSeq(step.item) &&
        old(queue).queue == old(queue.queue) && old(queue).items == old(queue.items) &&
        Status() == if step.item.None? then StopSpec(old(Status()), env.newTask)
                    else AssignOrStop(old(Status()), Settings(), step.item.value, env)
      ensures error.Some? && old(queue) != null ==> unchanged(old(queue))
    {
      if error.Some? {
        SetState(Failed(FoundationErr(error.value)), env.newTask);
      } else {
        NextOrStop(env);
      }
    }

    /** `interruptionBegan`, acting only while playing or buffering. */
    method InterruptionBegan(env: Env)
      requires background.Valid() && Running()
      modifies this`pausedForInterruption, this`engine, this`state, this`calls, this`retryProducing, background
      ensures background.Valid() && Running()
      ensures Status() == InterruptionBeganSpec(old(Status()), env.newTask)
    {
      if IsPlaying(state) || IsBuffering(state) {
        BeginBackgroundTask(env.newTask);
        pausedForInterruption := true;
        Pause(env.newTask);
      }
    }

    /** `interruptionEnded`, acting only after an interruption paused the player. */
    method InterruptionEnded(shouldResume: bool, env: Env)
      requires background.Valid() && Running()
      modifies this`pausedForInterruption, this`engine, this`state, this`calls, this`retryProducing, background
      ensures background.Valid() && Running()
      ensures Status() == InterruptionEndedSpec(old(Status()), Settings(), shouldResume, env.newTask)
    {
      if pausedForInterruption {
        if resumeAfterInterruption && shouldResume {
          Resume(env.newTask);
        }
        EndInterruption();
      }
    }

    /** The end of `interruptionEnded`. */
    method EndInterruption()
      requires background.Valid()
      modifies this`pausedForInterruption, background
      ensures background.Valid()
      ensures Status() == InterruptionOver(old(Status()))
    {
      pausedForInterruption := false;
      EndBackgroundTask();
    }

    /** `loadedDuration`: reported for the current item when the time converts. */
    method LoadedDuration(time: Option<real>)
      modifies this`calls
      ensures Status() == if old(currentItem) != null && time.Some?
        then Told(old(Status()), FoundDuration(time.value, old(currentItem)))
        else old(Status())
    {
      if currentItem != null && time.Some? {
        calls := calls + [FoundDuration(time.value, currentItem)];
      }
    }

    /** `loadedMetadata`: non-empty metadata fills the current item's empty fields. */
    method LoadedMetadata(metadata: seq<MetadataEntry>)
      requires ItemValid()
      modifies this`calls, currentItem
      ensures ItemValid()
      ensures old(currentItem) == null || |metadata| == 0 ==> Status() == old(Status()) && (old(currentItem) != null ==> unchanged(old(currentItem)))
      ensures old(currentItem) != null && |metadata| > 0 ==>
        old(currentItem).Meta() == ParseAll(old(currentItem.Meta()), metadata) &&
        Status() == Told(old(Status()), UpdatedMetadata(old(currentItem), metadata))
    {
      if currentItem != null && |metadata| > 0 {
        currentItem.ParseMetadata(metadata);
        calls := calls + [UpdatedMetadata(currentItem, metadata)];
      }
    }

    /** `loadedMoreRange`: reported with the loaded range; may start playback early under the preferred-duration strategy. */
    method LoadedMoreRange(env: Env)
      requires background.Valid() && Running()
      modifies this`engine, this`state, this`calls, this`retryProducing, background
      ensures background.Valid() && Running()
      ensures var range := Timing.LoadedRange(EngineItemOf(old(Status()), env));
        old(currentItem) == null || range.None? ==> Status() == old(Status())
      ensures var range := Timing.LoadedRange(EngineItemOf(old(Status()), env));
        old(currentItem) != null && range.Some? ==>
        var reported := Told(old(Status()), LoadedRange(range.value, old(currentItem)));
        var ahead := LoadedAhead(EngineItemOf(old(Status()), env), if old(engine).Engine? then env.playerTime else None);
        Status() == if ShouldPlayImmediately(bufferingStrategy, old(state), ahead, env.aheadIsNormal, preferredBufferDurationBeforePlayback)
                    then PlayImmediatelySpec(reported, Settings(), env.newTask) else reported
    {
      var range := Timing.LoadedRange(CurrentEngineItem(env));
      if currentItem == null || range.None? {
        return;
      }
      calls := calls + [LoadedRange(range.value, currentItem)];
      var ahead := LoadedAhead(CurrentEngineItem(env), if engine.Engine? then env.playerTime else None);
      if ShouldPlayImmediately(bufferingStrategy, state, ahead, env.aheadIsNormal, preferredBufferDurationBeforePlayback) {
        PlayImmediately(env.newTask);
      }
    }

    /** `progressedPlaying`: with a ready item, settles a buffering or paused player, then reports progress. */
    method ProgressedPlaying(time: Option<real>, env: Env)
      requires background.Valid() && Running()
      modifies this`stateBeforeBuffering, this`engine, this`state, this`calls, background
      ensures background.Valid() && Running()
      ensures !(time.Some? && ItemReady(old(Status()), env)) ==> Status() == old(Status())
      ensures time.Some? && ItemReady(old(Status()), env) ==>
        var settled := if IsBuffering(old(state)) || IsPaused(old(state))
          then EndTask(SettleSpec(old(Status()), Settings(), env.newTask)) else old(Status());
        var duration := Duration(EngineItemOf(old(Status()), env));
        var percentage := ProgressPercentage(time.value, if duration.Some? then duration.value else 0.0);
        Status() == Told(settled, ProgressedTo(time.value, percentage))
    {
      if !(time.Some? && EngineItemReady(env)) {
        return;
      }
      var duration := Duration(CurrentEngineItem(env));
      if IsBuffering(state) || IsPaused(state) {
        Settle(env.newTask);
        EndBackgroundTask();
      }
      var percentage := ProgressPercentage(time.value, if duration.Some? then duration.value else 0.0);
      calls := calls + [ProgressedTo(time.value, percentage)];
    }

    /** The choice `progressedPlaying` and `readyToPlay` share: playing again, or paused. */
    method Settle(t: int)
      requires background.Valid() && Running()
      modifies this`stateBeforeBuffering, this`engine, this`state, this`calls, background
      ensures background.Valid() && Running()
      ensures Status() == SettleSpec(old(Status()), Settings(), t)
    {
      if ShouldResume() {
        stateBeforeBuffering := None;
        SetState(Playing, t);
        SetEngineRate(rate);
      } else {
        SetEngineRate(0.0);
        SetState(Paused, t);
      }
    }

    /** `readyToPlay`: settles the player, stops the retry producer and ends a background task. */
    method ReadyToPlay(env: Env)
      requires background.Valid() && Running()
      modifies this`stateBeforeBuffering, this`engine, this`state, this`calls, this`retryProducing, background
      ensures background.Valid() && Running()
      ensures Status() == EndTask(StopRetrying(SettleSpec(old(Status()), Settings(), env.newTask)))
    {
      Settle(env.newTask);
      retryProducing := false;
      EndBackgroundTask();
    }

    /** `routeChanged`: an engine player that reports rate 0 (the system paused it) means paused. */
    method RouteChanged(env: Env)
      requires background.Valid()
      modifies this`state, this`calls, background
      ensures background.Valid()
      ensures Status() == if old(engine).Engine? && env.engineRate == 0.0
        then Observe(old(Status()), Paused, env.newTask) else old(Status())
    {
      if engine.Engine? && env.engineRate == 0.0 {
        SetState(Paused, env.newTask);
      }
    }

    /** `sessionMessedUp`: the session is reactivated, the player stops, the interruption is counted and playback retried. */
    method SessionMessedUp(env: Env)
      requires Consistent()
      modifies this`currentItem, this`engine, this`producersRunning, this`sessionActive, this`stateWhenConnectionLost,
               this`state, this`calls, this`pausedForInterruption, this`currentQuality, this`retryProducing,
               this`queue, this`seeks, this`interruptionCount, background
      ensures Consistent()
      ensures Status() == RetrySpec(SessionResetSpec(old(Status()), env.newTask), Settings(), env)
    {
      ResetSession(env.newTask);
      RetryOrPlayNext(env);
    }

    /** The first steps of `sessionMessedUp`. */
    method ResetSession(t: int)
      requires background.Valid()
      modifies this`sessionActive, this`state, this`calls, this`interruptionCount, background
      ensures background.Valid()
      ensures Status() == SessionResetSpec(old(Status()), t)
    {
      sessionActive := true;
      SetState(Stopped, t);
      interruptionCount := interruptionCount + 1;
    }

    /** `startedBuffering` */
    method StartedBuffering(env: Env)
      requires background.Valid()
      modifies this`interruptionCount, this`stateBeforeBuffering, this`state, this`calls, background
      ensures background.Valid()
      ensures Status() == StartedBufferingSpec(old(Status()), env)
    {
      NoteBuffering();
      if env.reachable || CurrentUrlIsOffline(env) {
        SetState(Buffering, env.newTask);
      } else {
        SetState(WaitingForConnection, env.newTask);
      }
      BeginBackgroundTask(env.newTask);
    }

    /** The first steps of `startedBuffering`. */
    method NoteBuffering()
      modifies this`interruptionCount, this`stateBeforeBuffering
      ensures Status() == BufferingNoted(old(Status()))
    {
      if state.Playing? && !qualityIsBeingChanged {
        interruptionCount := interruptionCount + 1;
      }
      stateBeforeBuffering := Some(state);
    }

    /** `handle(_: PlayerEvent)` */
    method HandlePlayerEvent(e: PlayerEvent, env: Env)
      requires Valid() && (e.EndedPlaying? && e.error.None? ==> CanStepForward())
      modifies this`currentItem, this`engine, this`producersRunning, this`sessionActive, this`stateWhenConnectionLost,
               this`state, this`calls, this`pausedForInterruption, this`currentQuality, this`retryProducing,
               this`queue, this`seeks, this`interruptionCount, this`stateBeforeBuffering,
               background, queue, currentItem
      ensures Valid()
    {
      match e
      case EndedPlaying(error) => EndedPlaying(error, env);
      case LoadedDuration(time) => LoadedDuration(time);
      case LoadedMetadata(metadata) => LoadedMetadata(metadata);
      case SessionMessedUp => SessionMessedUp(env);
      case _ => HandlePlaybackEvent(e, env);
    }

    /** The cases of `handle(_: PlayerEvent)` that move the state and leave the item and the queue alone; the others do nothing here. */
    method HandlePlaybackEvent(e: PlayerEvent, env: Env)
      requires background.Valid() && Running()
      modifies this`engine, this`state, this`calls, this`pausedForInterruption, this`retryProducing,
               this`interruptionCount, this`stateBeforeBuffering, background
      ensures background.Valid() && Running()
    {
      match e
      case InterruptionBegan => InterruptionBegan(env);
      case InterruptionEnded(shouldResume) => InterruptionEnded(shouldResume, env);
      case LoadedMoreRange => LoadedMoreRange(env);
      case ProgressedPlaying(time) => ProgressedPlaying(time, env);
      case ReadyToPlay => ReadyToPlay(env);
      case RouteChanged => RouteChanged(env);
      case StartedBuffering => StartedBuffering(env);
      case _ =>
    }

    // ------------------------------------------------------------ other events

    /** `handle(_: AudioItemEvent)`: only the now-playing information is refreshed. */
    method HandleAudioItemEvent(e: AudioItemEvent)
      ensures Status() == old(Status()) && Settings() == old(Settings())
    {
    }

    /**
     * `handle(_: SeekEvent)`: under a time-changing behaviour, a tick seeks by
     * the delta from the progression. The player's initialiser gives the seek
     * producer no listener, so in the library ticks never arrive here.
     */
    method HandleSeekEvent(e: SeekProducer.SeekEvent, env: Env)
      modifies this`seeks
      ensures var progress := Progression(EngineItemOf(old(Status()), env));
        progress.None? || !seekingBehavior.ChangeTime? ==> Status() == old(Status())
      ensures var progress := Progression(EngineItemOf(old(Status()), env));
        progress.Some? && seekingBehavior.ChangeTime? ==>
        var target := if e == SeekProducer.SeekBackward then progress.value - seekingBehavior.delta else progress.value + seekingBehavior.delta;
        var action := Timing.Seek(target, SeekableRange(EngineItemOf(old(Status()), env)), false, false, ItemReady(old(Status()), env));
        action == SeekAction.SeekTo(target) &&
        Status() == Sought(old(Status()), SoughtBy(old(engine), action))
    {
      var progress := Progression(CurrentEngineItem(env));
      if progress.None? || !seekingBehavior.ChangeTime? {
        return;
      }
      var target := if e == SeekProducer.SeekBackward then progress.value - seekingBehavior.delta else progress.value + seekingBehavior.delta;
      var action := Seek(target, false, false, env);
    }

    /** `handle(_: RetryEvent)` */
    method HandleRetryEvent(e: RetryEvent, env: Env)
      requires Consistent()
      modifies this`currentItem, this`engine, this`producersRunning, this`sessionActive, this`stateWhenConnectionLost,
               this`state, this`calls, this`pausedForInterruption, this`currentQuality, this`retryProducing,
               this`queue, this`seeks, background
      ensures Consistent()
      ensures e == RetryAvailable ==> Status() == RetrySpec(old(Status()), Settings(), env)
      ensures e == RetryFailed ==>
        Status() == StopRetrying(Observe(old(Status()), Failed(MaxRetryCountHit), env.newTask))
    {
      match e
      case RetryAvailable =>
        RetryOrPlayNext(env);
      case RetryFailed =>
        SetState(Failed(MaxRetryCountHit), env.newTask);
        retryProducing := false;
    }

    /** `connectionLost` */
    method ConnectionLost(env: Env)
      requires background.Valid()
      modifies this`stateWhenConnectionLost, this`interruptionCount, this`state, this`calls, background
      ensures background.Valid()
      ensures Status() == ConnectionLostSpec(old(Status()), env)
    {
      if currentItem == null || IsWaitingForConnection(state) {
        return;
      }
      if CurrentUrlIsOffline(env) {
        return;
      }
      stateWhenConnectionLost := Some(state);
      if !(CurrentEngineItem(env).Some? && env.bufferEmpty) {
        return;
      }
      if state.Playing? {
        interruptionCount := interruptionCount + 1;
      }
      SetState(WaitingForConnection, env.newTask);
      BeginBackgroundTask(env.newTask);
    }

    /**
     * `connectionRetrieved`: with a loss date, a recorded state and resumption
     * enabled, playback is retried when the loss was short enough and the
     * player was not stopped; the recorded state is then forgotten.
     */
    method ConnectionRetrieved(env: Env)
      requires Consistent()
      modifies this`currentItem, this`engine, this`producersRunning, this`sessionActive, this`stateWhenConnectionLost,
               this`state, this`calls, this`pausedForInterruption, this`currentQuality, this`retryProducing,
               this`queue, this`seeks, background
      ensures Consistent()
      ensures Status() == ConnectionRetrievedSpec(old(Status()), Settings(), env)
    {
      if env.lossDate.None? || stateWhenConnectionLost.None? || !resumeAfterConnectionLoss {
        return;
      }
      var isAllowedToRestart := IsAllowedToRestart(env.lossDate.value, env.now, maxConnectionLossTime);
      var wasPlayingBeforeLoss := !IsStopped(stateWhenConnectionLost.value);
      if isAllowedToRestart && wasPlayingBeforeLoss {
        RetryOrPlayNext(env);
      }
      ForgetLoss();
    }

    /** `stateWhenConnectionLost = nil` */
    method ForgetLoss()
      modifies this`stateWhenConnectionLost
      ensures Status() == LossForgotten(old(Status()))
    {
      stateWhenConnectionLost := None;
    }

    /** `handle(_: NetEvent)`; a network change has no effect. */
    method HandleNetEvent(e: NetProducer.NetEvent, env: Env)
      requires Consistent()
      modifies this`currentItem, this`engine, this`producersRunning, this`sessionActive, this`stateWhenConnectionLost,
               this`state, this`calls, this`pausedForInterruption, this`currentQuality, this`retryProducing,
               this`queue, this`seeks, this`interruptionCount, background
      ensures Consistent()
      ensures e == NetProducer.ConnectionLost ==> Status() == ConnectionLostSpec(old(Status()), env)
      ensures e == NetProducer.NetworkChanged ==> Status() == old(Status())
    {
      match e
      case ConnectionLost => ConnectionLost(env);
      case ConnectionRetrieved => ConnectionRetrieved(env);
      case NetworkChanged =>
    }

    /** `handle(_: QualityAdjEvent)`: with automatic adjustment on, a step within the range changes the quality. */
    method HandleQualityAdjEvent(e: QualityAdjEvent, env: Env)
      requires Running()
      modifies this`engine, this`qualityIsBeingChanged, this`currentQuality, this`seeks
      ensures Running()
      ensures !autoAdjustQuality || TargetQuality(old(currentQuality), e).None? ==> Status() == old(Status())
      ensures autoAdjustQuality && TargetQuality(old(currentQuality), e).Some? ==>
        Status() == ChangeQualitySpec(old(Status()), TargetQuality(old(currentQuality), e).value, env)
    {
      if !autoAdjustQuality {
        return;
      }
      var target := TargetQuality(currentQuality, e);
      if target.None? {
        return;
      }
      ChangeQuality(target.value, env);
    }

    /**
     * `changeQuality(to:)`: only a URL stored under exactly that quality is
     * used; the engine item is replaced, the engine seeks back to the
     * progression, and the quality becomes current.
     */
    method ChangeQuality(q: Quality, env: Env)
      requires Running()
      modifies this`engine, this`qualityIsBeingChanged, this`currentQuality, this`seeks
      ensures Running()
      ensures Status() == ChangeQualitySpec(old(Status()), q, env)
      ensures old(currentItem) != null && q in old(currentItem).soundURLs ==>
        currentQuality == q && !qualityIsBeingChanged &&
        (old(engine).Engine? ==> engine.url == currentItem.soundURLs[q])
    {
      if currentItem == null || q !in currentItem.soundURLs {
        return;
      }
      var url := currentItem.soundURLs[q];
      var progress := Progression(CurrentEngineItem(env));
      qualityIsBeingChanged := true;
      ReplaceEngineItem(url);
      if progress.Some? {
        SeekEngine(progress.value);
      }
      qualityIsBeingChanged := false;
      currentQuality := q;
    }

    // ----------------------------------------------------------------- routing

    /** `onEvent(_:generetedBy:)`: each family goes to its own handler; anything else is ignored. */
    method OnEvent(e: Event, env: Env)
      requires Valid() && (e.FromPlayer? && e.player.EndedPlaying? && e.player.error.None? ==> CanStepForward())
      modifies this`currentItem, this`engine, this`producersRunning, this`sessionActive, this`stateWhenConnectionLost,
               this`state, this`calls, this`pausedForInterruption, this`currentQuality, this`retryProducing,
               this`queue, this`seeks, this`interruptionCount, this`stateBeforeBuffering,
               this`qualityIsBeingChanged, background, queue, currentItem
      ensures Valid()
      ensures e.UnknownEvent? || e.FromAudioItem? ==> Status() == old(Status())
      ensures e.FromRetry? ==> e.retry == RetryAvailable ==> Status() == RetrySpec(old(Status()), Settings(), env)
      ensures e.FromNet? && e.net == NetProducer.ConnectionLost ==> Status() == ConnectionLostSpec(old(Status()), env)
    {
      match e
      case FromNet(n) => HandleNetEvent(n, env);
      case FromPlayer(p) => HandlePlayerEvent(p, env);
      case FromAudioItem(i) => HandleAudioItemEvent(i);
      case FromQualityAdj(q) => HandleQualityAdjEvent(q, env);
      case FromRetry(r) => HandleRetryEvent(r, env);
      case FromSeek(s) => HandleSeekEvent(s, env);
      case UnknownEvent =>
    }
  }
}
