# AudioPlayer, modelled in Dafny

This project models the playback controller of the AudioPlayer Swift library
and proves properties of that model. The library has four parts:

- **`AudioItemQueue`, the play queue.** It holds three things: the items in
  their original order, the traversal order that the mode gives them (shuffled
  or not), and the history of items handed out. A cursor, `nextPosition`,
  moves through the traversal order. The delegate may reject items, and the
  queue skips rejected ones.
- **The value types around it.**
  - `AudioQuality`, with the quality fallback chains of an `AudioItem`.
  - The item's metadata parser, which fills a field only while it is empty.
  - The `AudioPlayerMode` option set.
  - `AudioPlayerState`, whose hand-written `==` is not reflexive.
  - The reference-counted `BackgroundHandler`.
  - The status logic of `Reachability`.
  - The network and seek-timer event producers.
- **`AudioPlayer`, the controller.**
  - Property observers on `state`, `currentItem`, `mode`, `rate`, `volume`,
    `bufferingStrategy` and `seekingBehavior`.
  - Control operations: resume, pause, stop, next, previous, seek, and remote
    control.
  - The queue operations.
  - One handler per event family, plus the `onEvent` router.
- **Seek arithmetic.** The seekable and loaded ranges, the loaded-ahead time,
  and the choice of seek target.

## Modules

| file | module | content |
|---|---|---|
| wrappers.dfy | `Wrappers` | `Option` |
| mode.dfy | `Mode` | the mode as a set of bits, with `contains`, union and subtraction |
| state.dfy | `State` | errors and states, the `isX` predicates, and the custom `==` as `StateEquals` |
| audio_item.dfy | `Item` | qualities, `AudioItemURL`, the `AudioItem` class, the fallback chains, and metadata parsing |
| queue.dfy | `Queue` | the `AudioItemQueue` class and the step functions its methods are proved against |
| background.dfy | `Background` | the `BackgroundHandler` class and its guard as a value |
| reachability.dfy | `Reach` | the flag predicates, the status, and the notifier flag |
| net_producer.dfy | `NetProducer` | `NetEventProducer` |
| seek_producer.dfy | `SeekProducer` | `SeekEventProducer`, with its timer kept as an armed timer identifier |
| current_item.dfy | `Timing` | `TimeRange`, what the player reads off the engine item, and the seek target choice |
| player_model.dfy | `PlayerModel` | the controller's settings and state as values, and one function per observer, control operation and handler that states its effect |
| player.dfy | `Player` | the `AudioPlayer` class |

### How the controller is modelled

`Player.AudioPlayer` keeps the Swift properties as fields. Its ghost function
`Status()` collects the fields that the operations change into one
`PlayerModel.PlayerStatus` value. `Settings()` collects the fields a client
configures into a `PlayerSettings` value.

Each operation is a method. Its postcondition says that the new `Status()` is
what the matching `PlayerModel` function computes from the old one. The lemmas
in `PlayerModel` then state what those functions mean.

The model records the controller's outputs in a trace. The trace holds:

- the seek requests sent to the engine;
- the calls to the delegate, with each state change reported as
  `(old, new)`.

Everything the controller reads from the platform at the moment an operation
runs is a parameter of type `PlayerModel.Env`:

- reachability, and whether a URL is offline;
- the engine item, including whether it is ready to play and whether its
  buffer is empty;
- the player's current time, and the rate the player reports (which the
  system may have set to 0 on a route change);
- the network loss date;
- the clock;
- the background task identifier that the platform would hand out.

## Model

| member | source | states |
|---|---|---|
| Mode.Union | Sources/AudioPlayer/Models/AudioPlayerMode.swift:13-20 | The union contains both operands, and every flag it contains comes from one of them. |
| Mode.Subtract | Sources/AudioPlayer/Models/AudioPlayerMode.swift:13-20 | The difference is contained in the first operand and contains no flag of the second. |
| Mode.RawValues | Sources/AudioPlayer/Models/AudioPlayerMode.swift:24-33 | `normal` is 0; `shuffle`, `repeat` and `repeatAll` are 1, 2 and 4. |
| Mode.NormalHasNoFlag | Sources/AudioPlayer/Models/AudioPlayerMode.swift:24 | `normal` contains no flag, and every mode contains `normal`. |
| Mode.FlagsAreDistinctBits | Sources/AudioPlayer/Models/AudioPlayerMode.swift:27-33 | Each flag is a single bit, and one flag contains another only when they are the same flag. |
| Mode.ShuffleRepeatAll | Sources/AudioPlayer/Models/AudioPlayerMode.swift:27-33 | Shuffle combined with repeat-all contains both flags and not `repeat`. |
| Mode.InsertRemoveKeepOthers | Sources/AudioPlayer/Models/AudioPlayerMode.swift:13-20 | Inserting or removing one flag leaves membership of every other flag unchanged. The inserted flag is then present, and the removed flag is then absent. |
| State.ErrorOf | Sources/AudioPlayer/Models/AudioPlayerState.swift:67-73 | `error` is present exactly for a failed state, and it is the error that state wraps. |
| State.PredicatesMatchCases | Sources/AudioPlayer/Models/AudioPlayerState.swift:45-65 | Each `isX` predicate holds exactly in its own case. `isFailed` holds for every failure. |
| State.EqualsOnPlainStates | Sources/AudioPlayer/Models/AudioPlayerState.swift:83-103 | When at least one side is not a failure, `==` holds exactly for the same case. |
| State.EqualsOnFailures | Sources/AudioPlayer/Models/AudioPlayerState.swift:91-100 | Two failures compare equal exactly when both are `maxRetryCountHit`, or both wrap a Foundation error. |
| State.FoundationFailuresAlwaysEqual | Sources/AudioPlayer/Models/AudioPlayerState.swift:96-97 | Foundation failures compare equal whatever errors they wrap. |
| State.EqualsSymmetric | Sources/AudioPlayer/Models/AudioPlayerState.swift:80-105 | `==` is symmetric. |
| State.EqualsNotReflexive | Sources/AudioPlayer/Models/AudioPlayerState.swift:98-99 | `failed(itemNotConsideredPlayable)` and `failed(noItemsConsideredPlayable)` are not equal to themselves. |
| State.EqualsReflexiveElsewhere | Sources/AudioPlayer/Models/AudioPlayerState.swift:80-105 | `==` is reflexive on every state except those two failures. |
| Item.QualityFromRaw | Sources/AudioPlayer/AudioItem/AudioItem.swift:13-17 | A raw value gives a quality exactly in 0..2, and that quality has the given raw value. |
| Item.MakeItemUrl | Sources/AudioPlayer/AudioItem/AudioItem.swift:31-37 | The initialiser fails exactly without a URL. Otherwise it keeps the quality and the URL. |
| Item.Lookup | Sources/AudioPlayer/AudioItem/AudioItem.swift:47 | A quality has a URL exactly when it is a key of the map, and the URL is the stored value. |
| Item.HighestQualityUrl | Sources/AudioPlayer/AudioItem/AudioItem.swift:86-91 | For a non-empty map, the chosen quality is a key, and its URL is the stored one. |
| Item.MediumQualityUrl | Sources/AudioPlayer/AudioItem/AudioItem.swift:94-99 | For a non-empty map, the chosen quality is a key, and its URL is the stored one. |
| Item.LowestQualityUrl | Sources/AudioPlayer/AudioItem/AudioItem.swift:102-107 | For a non-empty map, the chosen quality is a key, and its URL is the stored one. |
| Item.UrlFor | Sources/AudioPlayer/AudioItem/AudioItem.swift:113-122 | The returned URL is stored under the returned quality. That quality is the requested one whenever the item has it. |
| Item.KeysAreQualities | Sources/AudioPlayer/AudioItem/AudioItem.swift:88-90 | A non-empty URL map holds at least one of the three qualities, so the force-unwrap cannot fail. |
| Item.Preference | Sources/AudioPlayer/AudioItem/AudioItem.swift:113-122 | The fallback order starts at the requested quality and lists all three qualities. |
| Item.FirstPresent | Sources/AudioPlayer/AudioItem/AudioItem.swift:88-106 | The first quality of an order that has a URL. If there is none, no quality of the order has a URL. |
| Item.UrlForFollowsPreference | Sources/AudioPlayer/AudioItem/AudioItem.swift:86-122 | `url(for: q)` returns the first quality present in q's chain (high: high, medium, low; medium: medium, low, high; low: low, medium, high), which is an independent statement of the `??` chains. |
| Item.ParseNeverOverwrites | Sources/AudioPlayer/AudioItem/AudioItem.swift:174-201 | Parsing any sequence of entries never changes a field that is already set. |
| Item.ParseSkipsUnknown | Sources/AudioPlayer/AudioItem/AudioItem.swift:176-199 | Entries without a common key, or with a key the parser ignores, change nothing. |
| Item.ParseTakesFirstTitle | Sources/AudioPlayer/AudioItem/AudioItem.swift:183-184 | With an empty title, a leading title entry whose value is a string sets the title for good. |
| Item.AudioItem.constructor | Sources/AudioPlayer/AudioItem/AudioItem.swift:52-59 | An item is created with the given non-empty URL map and empty metadata. |
| Item.AudioItem.UrlForQuality | Sources/AudioPlayer/AudioItem/AudioItem.swift:113-122 | `url(for:)` on the item: a stored URL, of the requested quality when the item has it. |
| Item.AudioItem.ParseMetadata | Sources/AudioPlayer/AudioItem/AudioItem.swift:174-201 | The loop leaves the metadata equal to the entry-by-entry fold `ParseAll`, and leaves the track count untouched. |
| Item.NewItem | Sources/AudioPlayer/AudioItem/AudioItem.swift:52-59 | The initialiser fails exactly for an empty map. Otherwise the new item holds the map. |
| Item.UrlsFromOptionals | Sources/AudioPlayer/AudioItem/AudioItem.swift:67-74 | Each quality maps to its optional URL, and the map is empty exactly when all three are missing. |
| Item.NewItemFromOptionals | Sources/AudioPlayer/AudioItem/AudioItem.swift:67-75 | The initialiser fails exactly when all three URLs are missing. |
| Item.NewItemFromUrl | Sources/AudioPlayer/AudioItem/AudioItem.swift:77-81 | The initialiser never fails, and it stores the URL as the high-quality one. |
| Queue.AllValidPermutation | Sources/AudioPlayer/AudioItem/AudioItemQueue.swift:55-58 | A permutation of valid items is valid. |
| Queue.ToSeq | Sources/AudioPlayer/AudioItem/AudioItemQueue.swift:122-196 | What history gains: the returned item, or nothing when there is none. |
| Queue.FirstIndexOf | Sources/AudioPlayer/AudioItem/AudioItemQueue.swift:212 | `firstIndex(of:)`: present exactly when the item occurs, and it is the first occurrence. |
| Queue.RemoveAt | Sources/AudioPlayer/AudioItem/AudioItemQueue.swift:211 | `remove(at:)` drops one element, and the multiset loses exactly that element. |
| Queue.RemoveKeepsPairing | Sources/AudioPlayer/AudioItem/AudioItemQueue.swift:210-215 | Removing a traversal element and its first occurrence in `items` keeps the two sequences permutations of each other. |
| Queue.FirstAcceptedFrom | Sources/AudioPlayer/AudioItem/AudioItemQueue.swift:139-147 | The forward scan stops at the first accepted item at or after the start. Every item it passes is rejected. |
| Queue.LastAcceptedBefore | Sources/AudioPlayer/AudioItem/AudioItemQueue.swift:181-190 | The backward scan stops at the last accepted item before the start. Every item it passes is rejected. |
| Queue.NextStep | Sources/AudioPlayer/AudioItem/AudioItemQueue.swift:122-154 | `nextItem`, as a function: any item it returns is in the traversal order. |
| Queue.PreviousStep | Sources/AudioPlayer/AudioItem/AudioItemQueue.swift:164-196 | `previousItem`, as a function: any item it returns is in the traversal order. |
| Queue.NextOnEmpty | Sources/AudioPlayer/AudioItem/AudioItemQueue.swift:123-125 | An empty queue yields nothing and keeps the cursor. |
| Queue.NextInRepeatMode | Sources/AudioPlayer/AudioItem/AudioItemQueue.swift:127-132 | In repeat mode `nextItem` returns `queue[nextPosition]` whatever the delegate says, and keeps the cursor. |
| Queue.NextIsFirstAccepted | Sources/AudioPlayer/AudioItem/AudioItemQueue.swift:134-153 | Outside repeat mode, the result is the first accepted item from the (wrapped) cursor, and the cursor ends one past it. |
| Queue.NextNoneCursor | Sources/AudioPlayer/AudioItem/AudioItemQueue.swift:134-153 | After a fruitless scan the cursor is 0 under repeat-all, and at or past the end otherwise. |
| Queue.NextNoneWhenNothingAccepted | Sources/AudioPlayer/AudioItem/AudioItemQueue.swift:139-153 | When the delegate rejects every item, `nextItem` yields nothing, even under repeat-all. |
| Queue.PreviousInRepeatMode | Sources/AudioPlayer/AudioItem/AudioItemQueue.swift:169-174 | In repeat mode `previousItem` returns `queue[max(0, nextPosition - 1)]` and keeps the cursor. |
| Queue.PreviousIsLastAccepted | Sources/AudioPlayer/AudioItem/AudioItemQueue.swift:176-195 | Outside repeat mode, the result is the last accepted item before the (wrapped) cursor, and the cursor ends on it. |
| Queue.HasNextPreviousAgree | Sources/AudioPlayer/AudioItem/AudioItemQueue.swift:157-203 | When the delegate accepts everything, `hasNextItem` and `hasPreviousItem` hold exactly when the next or previous step yields an item. |
| Queue.Last | Sources/AudioPlayer/AudioItem/AudioItemQueue.swift:92-108 | `historic.last`: present exactly for a non-empty history, and it is the last element. |
| Queue.AdaptEmptyIsNoop | Sources/AudioPlayer/AudioItem/AudioItemQueue.swift:78-80 | A mode change on an empty queue changes neither the queue nor the cursor. |
| Queue.AdaptKeepsItems | Sources/AudioPlayer/AudioItem/AudioItemQueue.swift:76-120 | A mode change keeps the traversal order a permutation of the items. |
| Queue.AdaptEnteringRepeatAll | Sources/AudioPlayer/AudioItem/AudioItemQueue.swift:83-87 | Entering repeat-all (with nothing else changing) sets the cursor to itself modulo the queue length. |
| Queue.AdaptRepeatRules | Sources/AudioPlayer/AudioItem/AudioItemQueue.swift:89-101 | Leaving repeat moves the cursor forward exactly when the last history item is `queue[nextPosition]`. Entering repeat with the cursor at the end moves it back one. The order is unchanged. |
| Queue.AdaptLeavingShuffle | Sources/AudioPlayer/AudioItem/AudioItemQueue.swift:104-111 | Leaving shuffle restores the original order. The cursor goes one past the first occurrence of the last history item. |
| Queue.AdaptEnteringShuffle | Sources/AudioPlayer/AudioItem/AudioItemQueue.swift:113-119 | Entering shuffle permutes the part before the cursor and the part after it separately, and keeps the cursor. |
| Queue.AudioItemQueue.constructor | Sources/AudioPlayer/AudioItem/AudioItemQueue.swift:50-61 | The new queue has an empty history and cursor 0. Its order is the items, or the given permutation of them under shuffle. |
| Queue.AudioItemQueue.NextItem | Sources/AudioPlayer/AudioItem/AudioItemQueue.swift:122-154 | The loop's result and new cursor are exactly `NextStep`. History gains only the returned item, and nothing else changes. |
| Queue.AudioItemQueue.PreviousItem | Sources/AudioPlayer/AudioItem/AudioItemQueue.swift:164-196 | The loop's result and new cursor are exactly `PreviousStep`. History gains only the returned item, and nothing else changes. |
| Queue.AudioItemQueue.Add | Sources/AudioPlayer/AudioItem/AudioItemQueue.swift:205-208 | The new items are appended to both sequences; cursor and history are unchanged, and validity is kept. |
| Queue.AudioItemQueue.Remove | Sources/AudioPlayer/AudioItem/AudioItemQueue.swift:210-215 | The traversal index is removed, and the first equal element of `items` is removed too when present. The cursor is not adjusted. |
| Queue.AudioItemQueue.SetMode | Sources/AudioPlayer/AudioItem/AudioItemQueue.swift:40-120 | The `mode` observer: the order and cursor become `Adapted(...)`, and the permutation invariant is kept. |
| Queue.AudioItemQueue.ApplyCursorRules | Sources/AudioPlayer/AudioItem/AudioItemQueue.swift:82-101 | The repeat-all rule and then the repeat rule, applied to the cursor in that order. |
| Background.BeginStep | Sources/AudioPlayer/utils/BackgroundHandler.swift:55-72 | `begin` always increments the counter. It takes a new task and reports true exactly when none is held. |
| Background.EndStep | Sources/AudioPlayer/utils/BackgroundHandler.swift:78-95 | Without a task, `end` changes nothing. With one, it decrements the counter, and releases the task (reporting true) exactly when the counter reaches 0. |
| Background.ExpireStep | Sources/AudioPlayer/utils/BackgroundHandler.swift:63-70 | The expiration handler drops the task and keeps the counter. |
| Background.NestedPairsReleaseOnce | Sources/AudioPlayer/utils/BackgroundHandler.swift:55-95 | Of c nested begin/end pairs, only the last `end` releases the task. |
| Background.ExpiryLeavesCountBehind | Sources/AudioPlayer/utils/BackgroundHandler.swift:57-87 | After an expiry, the count left behind stops the next begin/end pair from releasing its new task. |
| Background.BackgroundHandler.constructor | Sources/AudioPlayer/utils/BackgroundHandler.swift:43-48 | A new handler holds no task, and its counter is 0. |
| Background.BackgroundHandler.Begin | Sources/AudioPlayer/utils/BackgroundHandler.swift:55-72 | The state and result are `BeginStep`, and no task is released. |
| Background.BackgroundHandler.End | Sources/AudioPlayer/utils/BackgroundHandler.swift:78-95 | The state and result are `EndStep`. The creator is told to end a released task only when its identifier is valid. |
| Background.BackgroundHandler.Expire | Sources/AudioPlayer/utils/BackgroundHandler.swift:63-70 | The state is `ExpireStep`, and a held task is released. |
| Reach.WithTest | Sources/AudioPlayer/Reachability.swift:183-192 | Without a reference or a flag read the test is false. Otherwise it is the test on the flags read. |
| Reach.ReachabilityFlags | Sources/AudioPlayer/Reachability.swift:210-221 | Empty without a reference or a flag read, and the flags read otherwise. |
| Reach.RequiredOrTransientMeansBoth | Sources/AudioPlayer/Reachability.swift:205-208 | `isConnectionRequiredOrTransient` holds exactly when both bits are set. |
| Reach.ReachableWithMeaning | Sources/AudioPlayer/Reachability.swift:171-173 | `isReachable(with:)` is the reachable bit, or not both of the required and transient bits. |
| Reach.EmptyFlagsAreReachable | Sources/AudioPlayer/Reachability.swift:57-173 | Empty flags count as reachable but not via WiFi. The status is then WWAN on a device, and not reachable in the simulator. |
| Reach.ViaWiFiMeaning | Sources/AudioPlayer/Reachability.swift:129-141 | Reachable via WiFi exactly with the reachable bit, unless on a device with the WWAN bit. False without a reference or a read. |
| Reach.StatusMeaning | Sources/AudioPlayer/Reachability.swift:57-67 | The three statuses in terms of the flags, and not reachable without a reference or a read. |
| Reach.Reachability.constructor | Sources/AudioPlayer/Reachability.swift:71-74 | A new object has its reference and device flag, and the notifier is not running. |
| Reach.Reachability.StartNotifier | Sources/AudioPlayer/Reachability.swift:90-112 | When the notifier is already running, true. Otherwise it starts exactly when a reference exists and both registrations succeed. |
| Reach.Reachability.StopNotifier | Sources/AudioPlayer/Reachability.swift:114-119 | The notifier is not running afterwards. |
| NetProducer.StatusChange | Sources/AudioPlayer/EventProducers/NetEventProducer.swift:88-105 | An unchanged status emits nothing. A change to not-reachable emits `connectionLost` and sets the loss date. A change from not-reachable emits `connectionRetrieved` and clears it. Any other change emits `networkChanged`. The last status becomes the new one. |
| NetProducer.LossDateTracksStatus | Sources/AudioPlayer/EventProducers/NetEventProducer.swift:43-105 | A loss date is held exactly while the last status is not reachable, and every status change keeps this. |
| NetProducer.NetEventProducer.constructor | Sources/AudioPlayer/EventProducers/NetEventProducer.swift:43-50 | The last status is the current one, and a loss date is set exactly when that status is not reachable. |
| NetProducer.NetEventProducer.StartProducing | Sources/AudioPlayer/EventProducers/NetEventProducer.swift:55-72 | Idempotent through `listening`. A first start records the current status and starts the notifier, which then runs exactly when it already ran or the reachability has a reference and both platform registrations succeed. |
| NetProducer.NetEventProducer.StopProducing | Sources/AudioPlayer/EventProducers/NetEventProducer.swift:75-83 | Idempotent through `listening`. A first stop stops the notifier. |
| NetProducer.NetEventProducer.StatusChanged | Sources/AudioPlayer/EventProducers/NetEventProducer.swift:88-105 | The event and the new fields are exactly `StatusChange`. |
| SeekProducer.TickEvent | Sources/AudioPlayer/EventProducers/SeekEventProducer.swift:76 | A tick emits `seekBackward` exactly when `isBackward` is set. |
| SeekProducer.SeekEventProducer.constructor | Sources/AudioPlayer/EventProducers/SeekEventProducer.swift:24-34 | No timer, not listening, a 10-second interval, and forward. |
| SeekProducer.SeekEventProducer.RestartTimer | Sources/AudioPlayer/EventProducers/SeekEventProducer.swift:62-70 | The old timer is invalidated, and exactly one new timer is armed. |
| SeekProducer.SeekEventProducer.StartProducing | Sources/AudioPlayer/EventProducers/SeekEventProducer.swift:40-48 | A no-op while listening. Otherwise it arms one timer and starts listening. |
| SeekProducer.SeekEventProducer.StopProducing | Sources/AudioPlayer/EventProducers/SeekEventProducer.swift:51-59 | While listening, it disarms the timer and stops listening. Otherwise it is a no-op. |
| SeekProducer.SeekEventProducer.TimerTicked | Sources/AudioPlayer/EventProducers/SeekEventProducer.swift:75-78 | Only the armed timer fires. It emits the direction's event and re-arms exactly one timer. |
| Timing.Progression | Sources/AudioPlayer/Player/AudioPlayer+CurrentItem.swift:20-22 | No engine item, no progression. |
| Timing.Duration | Sources/AudioPlayer/Player/AudioPlayer+CurrentItem.swift:25-27 | No engine item, no duration. |
| Timing.NoItemNoTiming | Sources/AudioPlayer/Player/AudioPlayer+CurrentItem.swift:15-70 | Without an engine item, the progression, duration, ranges and loaded-ahead time are all absent. |
| Timing.SeekableRangeCases | Sources/AudioPlayer/Player/AudioPlayer+CurrentItem.swift:30-47 | The last seekable range when both ends convert. Otherwise the single point of the progression when it is known, and otherwise none. |
| Timing.LoadedRangeCases | Sources/AudioPlayer/Player/AudioPlayer+CurrentItem.swift:50-61 | The last loaded range when both ends convert, and none otherwise. |
| Timing.LoadedAheadMeaning | Sources/AudioPlayer/Player/AudioPlayer+CurrentItem.swift:63-71 | Present exactly when the current time is at or after the loaded range's start. Current time plus loaded-ahead is the range's end. |
| Timing.SeekSafely | Sources/AudioPlayer/Player/AudioPlayer+control.swift:206-228 | Without a completion it always seeks. With one it seeks exactly when the item is ready, and otherwise reports failure. |
| Timing.SeekToRangeStart | Sources/AudioPlayer/Player/AudioPlayer+control.swift:145-153 | Without a seekable range: failure reported to a completion, and no seek otherwise. |
| Timing.SeekToRangeEnd | Sources/AudioPlayer/Player/AudioPlayer+control.swift:160-168 | Without a seekable range: failure reported to a completion, and no seek otherwise. |
| Timing.SeekUnchangedCases | Sources/AudioPlayer/Player/AudioPlayer+control.swift:106-127 | Without a range, without adaptation, or inside the range, the seek goes to the requested time. An unready item with a completion reports failure instead. |
| Timing.SeekAdaptedTarget | Sources/AudioPlayer/Player/AudioPlayer+control.swift:129-168 | Under adaptation, a time before the range goes to `min(latest, earliest + 1)`, and a time after it to `max(earliest, latest - 1)`. Both lie inside a range that is not inverted. |
| PlayerModel.ShouldResumeMeaning | Sources/AudioPlayer/Player/AudioPlayer.swift:320-324 | `shouldResumePlaying` holds exactly when the player is not paused now, and was paused both when the connection was lost and before buffering. A missing record counts as not paused. |
| PlayerModel.PlayImmediatelyMeaning | Sources/AudioPlayer/Player/AudioPlayer+PlayerEvent.swift:62-66 | Playback starts early exactly when all hold: the preferred-duration strategy, the buffering state, a normal loaded-ahead time, and at least the preferred duration loaded. |
| PlayerModel.ProgressPercentage | Sources/AudioPlayer/Player/AudioPlayer+PlayerEvent.swift:92-94 | With a positive duration, the percentage times the duration is progress times 100. Otherwise it is 0. |
| PlayerModel.PercentageInRange | Sources/AudioPlayer/Player/AudioPlayer+PlayerEvent.swift:92-94 | A progress within the duration gives a percentage between 0 and 100. |
| PlayerModel.TargetQuality | Sources/AudioPlayer/Player/AudioPlayer+QualityAdjEvent.swift:21-31 | A target exists exactly when the raw value plus the step (-1 down, +1 up) lies in 0..2, and it has that raw value. |
| PlayerModel.QualityStepsInverse | Sources/AudioPlayer/Player/AudioPlayer+QualityAdjEvent.swift:21-31 | No step below low or above high. A step up followed by a step down returns to the start, and so does the reverse. |
| PlayerModel.SeekingRestoresRate | Sources/AudioPlayer/Models/SeekingBehavior.swift:19-34 | With a non-zero factor, the end of a multiply-rate seek in the same direction restores the rate from before its start. |
| PlayerModel.AsWrittenIgnoresLimit | Sources/AudioPlayer/Player/AudioPlayer+handlers.swift:79 | The restart check as written admits every loss in the past, however long it lasted. |
| PlayerModel.AsWrittenCounterexample | Sources/AudioPlayer/Player/AudioPlayer+handlers.swift:79 | An hour-long loss passes the check as written under the default 60-second limit, and fails the intended check. |
| PlayerModel.RestartLimitHonoured | Sources/AudioPlayer/Player/AudioPlayer+handlers.swift:79 | The corrected check allows a restart exactly when the loss lasted less than `maxConnectionLossTime`. |
| PlayerModel.RemoteActionFor | Sources/AudioPlayer/Player/AudioPlayer+control.swift:174-203 | Non-remote events are ignored. Pause always pauses and play always resumes. Toggle pauses exactly when playing, resumes exactly when paused, and otherwise does nothing. |
| PlayerModel.ObserveEffects | Sources/AudioPlayer/Player/AudioPlayer.swift:193-209 | Assigning `state`: a value unequal under `==` is reported to the delegate as (old, new). Entering buffering begins a background task, leaving it ends one, and an equal value changes nothing else. |
| PlayerModel.BufferingRoundTrip | Sources/AudioPlayer/Player/AudioPlayer.swift:193-209 | Entering and then leaving buffering leaves the background counter where it was. |
| PlayerModel.RepeatedAssignment | Sources/AudioPlayer/Player/AudioPlayer.swift:197-199 | Assigning the same state twice reports it once, except for the two failures that `==` does not find equal to themselves. |
| PlayerModel.StopIsIdempotent | Sources/AudioPlayer/Player/AudioPlayer+control.swift:78-94 | After `stop()` the player is stopped, with no item, queue or engine, and no producer running. A second `stop()` changes nothing. |
| PlayerModel.AssignWithoutConnection | Sources/AudioPlayer/Player/AudioPlayer.swift:90-96 | Without a connection and with an online URL, the item becomes current and waits for the connection. The state when the connection was lost is recorded as buffering, no player is created, and a background task is held. |
| PlayerModel.AssignStartsPlayer | Sources/AudioPlayer/Player/AudioPlayer.swift:81-113 | Otherwise the item buffers on a new player at the controller's rate. The player plays the URL of the quality that becomes current, which is the old quality whenever the item has it. The delegate hears of the item only when it is a new one. |
| PlayerModel.AssignPlaysCurrentQuality | Sources/AudioPlayer/Player/AudioPlayer.swift:90-106 | After an item is assigned, the engine plays the URL stored for the current quality. |
| PlayerModel.RetryKeepsItem | Sources/AudioPlayer/Player/AudioPlayer.swift:330-344 | A retry while not playing keeps the current item and does not announce it again. |
| PlayerModel.ResumeEffects | Sources/AudioPlayer/Player/AudioPlayer+control.swift:15-27 | `resume` clears the interruption flag, restores the engine rate, starts the retry producer, and moves to playing unless buffering. |
| PlayerModel.PauseEffects | Sources/AudioPlayer/Player/AudioPlayer+control.swift:30-41 | `pause` stops the engine, moves to paused, stops the retry producer, and holds a background task. |
| PlayerModel.PlayImmediatelyEffects | Sources/AudioPlayer/Player/AudioPlayer+control.swift:43-50 | `playImmediately` moves to playing at the controller's rate and stops the retry producer. |
| PlayerModel.InterruptionRoundTrip | Sources/AudioPlayer/Player/AudioPlayer+PlayerEvent.swift:22-33 | An interruption of a playing player pauses it and marks it. When the interruption ends, the mark is cleared, and the player plays again exactly when resumption is allowed. |
| PlayerModel.SettleChoice | Sources/AudioPlayer/Player/AudioPlayer+PlayerEvent.swift:79-87 | Once the item is ready, the player plays again exactly when `shouldResumePlaying` holds, and pauses otherwise. |
| PlayerModel.SettleEngine | Sources/AudioPlayer/Player/AudioPlayer+PlayerEvent.swift:80-87 | Playing again forgets the state before buffering and restores the engine rate. Pausing sets the engine rate to 0. |
| PlayerModel.StartedBufferingEffects | Sources/AudioPlayer/Player/AudioPlayer+PlayerEvent.swift:128-143 | The counter moves exactly for a playing player with no quality change in flight. The previous state is saved, the new state is buffering when reachable or offline and waiting otherwise, and a task is held. |
| PlayerModel.ConnectionLostEffects | Sources/AudioPlayer/Player/AudioPlayer+handlers.swift:50-70 | Ignored without an item, while waiting, or for an offline URL. Otherwise the state is recorded, and the player waits exactly when the engine buffer is empty. |
| PlayerModel.ConnectionRetrievedEffects | Sources/AudioPlayer/Player/AudioPlayer+handlers.swift:72-86 | With the corrected time limit (see "## Findings"), not the comparison as written. Ignored without a loss date, a recorded state, or resumption. Otherwise the record is cleared. A loss at least as long as the limit, or one that found the player stopped, causes no retry. A shorter loss of a player that was not stopped retries the current item as `RetrySpec` states. |
| PlayerModel.ChangeQualityPlaysIt | Sources/AudioPlayer/Player/AudioPlayer+QualityAdjEvent.swift:37-57 | Only a quality the item has is used. It becomes current, the engine switches to its URL, and the flag is clear afterwards. Any other quality changes nothing. |
| Player.AudioPlayer.constructor | Sources/AudioPlayer/Player/AudioPlayer.swift:276-284 | A new player has the default settings (60 s, automatic quality, medium, both resumptions, normal mode, volume and rate 1, default buffering, 60 s preferred, rate x2 seeking). It is stopped, with nothing current. |
| Player.AudioPlayer.SetState | Sources/AudioPlayer/Player/AudioPlayer.swift:193-209 | The `state` observer: the new status is `Observe`, whose meaning `ObserveEffects` states. |
| Player.AudioPlayer.BeginBackgroundTask | Sources/AudioPlayer/utils/BackgroundHandler.swift:55-72 | A background task is requested, and the counter grows. |
| Player.AudioPlayer.EndBackgroundTask | Sources/AudioPlayer/utils/BackgroundHandler.swift:78-95 | A background task is released when the count allows it. |
| Player.AudioPlayer.SetEngineRate | Sources/AudioPlayer/Player/AudioPlayer.swift:82 | `player?.rate = r` sets the engine's rate when there is an engine. |
| Player.AudioPlayer.SeekEngine | Sources/AudioPlayer/Player/AudioPlayer.swift:342 | `player?.seek(to:)` records a seek only when there is an engine. |
| Player.AudioPlayer.ReplaceEngineItem | Sources/AudioPlayer/Player/AudioPlayer+QualityAdjEvent.swift:48 | `player?.replaceCurrentItem` changes the engine's URL when there is an engine. |
| Player.AudioPlayer.TrackBuffering | Sources/AudioPlayer/Player/AudioPlayer.swift:200-205 | The background guard follows entering and leaving buffering. |
| Player.AudioPlayer.DropPlayer | Sources/AudioPlayer/Player/AudioPlayer.swift:63-70 | Without a player, no producer runs. |
| Player.AudioPlayer.CreatePlayer | Sources/AudioPlayer/Player/AudioPlayer.swift:49-62 | A new player gets the controller's volume, rate and stalling policy, and the producers start. |
| Player.AudioPlayer.AssignCurrentItem | Sources/AudioPlayer/Player/AudioPlayer.swift:75-115 | The `currentItem` observer: nil stops the player, and an item is assigned as `AssignSpec` states. |
| Player.AudioPlayer.AssignItem | Sources/AudioPlayer/Player/AudioPlayer.swift:81-113 | Assigning an item, with the effect stated by `AssignWithoutConnection` and `AssignStartsPlayer`. |
| Player.AudioPlayer.Detach | Sources/AudioPlayer/Player/AudioPlayer.swift:81-86 | The old player stops and goes, and the session is activated. |
| Player.AudioPlayer.WaitForConnection | Sources/AudioPlayer/Player/AudioPlayer.swift:91-96 | Waiting for the connection with buffering recorded as the state when the connection was lost. |
| Player.AudioPlayer.StartBuffering | Sources/AudioPlayer/Player/AudioPlayer.swift:97-113 | Buffering with a task held, and a new player on the chosen URL. |
| Player.AudioPlayer.Attach | Sources/AudioPlayer/Player/AudioPlayer.swift:99-113 | The interruption flag is cleared, the quality is set, and a player starts at the controller's rate. |
| Player.AudioPlayer.Prepare | Sources/AudioPlayer/Player/AudioPlayer.swift:99-111 | The interruption flag is cleared, the quality chosen becomes current, and the new item is announced. |
| Player.AudioPlayer.StartPlayer | Sources/AudioPlayer/Player/AudioPlayer.swift:101-113 | The player runs on the URL at the controller's rate. |
| Player.AudioPlayer.SetMode | Sources/AudioPlayer/Player/AudioPlayer.swift:141-145 | The `mode` observer forwards the mode to the queue, which adapts as `Adapted` states. The controller's status is unchanged. |
| Player.AudioPlayer.SetRate | Sources/AudioPlayer/Player/AudioPlayer.swift:155-162 | A new rate reaches the engine only while playing. |
| Player.AudioPlayer.SetVolume | Sources/AudioPlayer/Player/AudioPlayer.swift:148-152 | A new volume reaches the engine when there is one. |
| Player.AudioPlayer.SetBufferingStrategy | Sources/AudioPlayer/Player/AudioPlayer.swift:347-350 | The engine waits to minimise stalling exactly unless the strategy is play-when-buffer-not-empty. |
| Player.AudioPlayer.SetSeekingBehavior | Sources/AudioPlayer/Player/AudioPlayer.swift:182-188 | A change-time behaviour sets the seek producer's interval, and the producer is otherwise untouched. |
| Player.AudioPlayer.RetryOrPlayNext | Sources/AudioPlayer/Player/AudioPlayer.swift:330-344 | While playing, only the retry producer stops. Otherwise the item is assigned again and the new player seeks to the earlier progression. `RetryKeepsItem` states the consequences. |
| Player.AudioPlayer.Resume | Sources/AudioPlayer/Player/AudioPlayer+control.swift:15-27 | The new status is `ResumeSpec`, whose effects `ResumeEffects` states. |
| Player.AudioPlayer.Pause | Sources/AudioPlayer/Player/AudioPlayer+control.swift:30-41 | The new status is `PauseSpec`, whose effects `PauseEffects` states. |
| Player.AudioPlayer.PlayImmediately | Sources/AudioPlayer/Player/AudioPlayer+control.swift:43-50 | The new status is `PlayImmediatelySpec`: playing, no retries, and a background task released. |
| Player.AudioPlayer.Stop | Sources/AudioPlayer/Player/AudioPlayer+control.swift:78-94 | The new status is `StopSpec`, which `StopIsIdempotent` shows to be a stopped player holding nothing. |
| Player.AudioPlayer.Release | Sources/AudioPlayer/Player/AudioPlayer+control.swift:79-92 | Retry producer, player, item and queue go, and the session is deactivated. |
| Player.AudioPlayer.Next | Sources/AudioPlayer/Player/AudioPlayer+control.swift:62-66 | The queue steps as `NextStep` states. An item it yields is assigned, and otherwise nothing changes. |
| Player.AudioPlayer.NextOrStop | Sources/AudioPlayer/Player/AudioPlayer+control.swift:69-75 | The queue steps as `NextStep` states: the cursor and history move, and the traversal order and items stay. An item it yields is assigned, and otherwise the player stops. |
| Player.AudioPlayer.Previous | Sources/AudioPlayer/Player/AudioPlayer+control.swift:53-59 | The queue steps back as `PreviousStep` states. An item it yields is assigned, and otherwise the engine seeks to 0. |
| Player.AudioPlayer.Seek | Sources/AudioPlayer/Player/AudioPlayer+control.swift:106-138 | What the engine is asked to do is the `Timing.Seek` choice on the current seekable range. |
| Player.AudioPlayer.SeekToSeekableRangeStart | Sources/AudioPlayer/Player/AudioPlayer+control.swift:145-153 | The engine seeks as `SeekToRangeStart` chooses. |
| Player.AudioPlayer.SeekToSeekableRangeEnd | Sources/AudioPlayer/Player/AudioPlayer+control.swift:160-168 | The engine seeks as `SeekToRangeEnd` chooses. |
| Player.AudioPlayer.SeekingStart | Sources/AudioPlayer/Models/SeekingBehavior.swift:16-27 | Multiply-rate seeking sets the rate to rate times m, negated backwards. Change-time seeking sets the direction and starts the seek producer. |
| Player.AudioPlayer.SeekingEnd | Sources/AudioPlayer/Models/SeekingBehavior.swift:29-39 | Multiply-rate seeking sets the rate to rate over m, negated backwards. Change-time seeking stops the seek producer. |
| Player.AudioPlayer.RemoteControlReceived | Sources/AudioPlayer/Player/AudioPlayer+control.swift:174-203 | The action is `RemoteActionFor`. Ignored events change nothing. Pause, resume and stop have their own effects. Next and previous take the queue's step, with its cursor and history, as `Next` and `Previous` state. Seeking start and end set the rate under a multiplying behaviour, or start and stop the seek producer under a time-changing one. Every action other than seeking leaves the rate and the seek producer alone, and time-changing seeking leaves the rate alone. Only the next and previous actions need the queue to step without trapping. |
| Player.AudioPlayer.RemoteSeeking | Sources/AudioPlayer/Player/AudioPlayer+control.swift:180-187 | A start or end of seeking sets the rate under a multiplying behaviour, reaching the engine only while playing, or starts and stops the seek producer under a time-changing one, leaving the rate alone. |
| Player.AudioPlayer.Navigate | Sources/AudioPlayer/Player/AudioPlayer+control.swift:188-201 | Next and previous take the queue's step, with its cursor and history, and assign the item or rewind as `Next` and `Previous` state. Pause, resume and stop have their specified effects, and any other action changes nothing. |
| Player.AudioPlayer.ControlPlayback | Sources/AudioPlayer/Player/AudioPlayer+control.swift:190-199 | Pause, resume and stop with their specified effects, and nothing for any other action. |
| Player.AudioPlayer.Items | Sources/AudioPlayer/Player/AudioPlayer+Queue.swift:11-13 | The traversal order of the queue, and absent without a queue. |
| Player.AudioPlayer.CurrentItemIndexInQueue | Sources/AudioPlayer/Player/AudioPlayer+Queue.swift:14-18 | The first index of the current item in the original order, present exactly when it occurs there. |
| Player.AudioPlayer.HasNext | Sources/AudioPlayer/Player/AudioPlayer+Queue.swift:20-22 | False without a queue, and otherwise the queue's `hasNextItem` condition. |
| Player.AudioPlayer.HasPrevious | Sources/AudioPlayer/Player/AudioPlayer+Queue.swift:24-26 | False without a queue, and otherwise the queue's `hasPreviousItem` condition. |
| Player.AudioPlayer.Play | Sources/AudioPlayer/Player/AudioPlayer+Queue.swift:33-48 | No items: the player stops. Otherwise a new queue in the current mode starts at the traversal position of `items[index]`, and its next item is assigned. |
| Player.AudioPlayer.NewQueue | Sources/AudioPlayer/Player/AudioPlayer+Queue.swift:41-46 | The new queue holds the items and the mode. Its cursor is the first traversal index of `items[index]`. |
| Player.AudioPlayer.Add | Sources/AudioPlayer/Player/AudioPlayer+Queue.swift:58-64 | An existing queue gets the items appended, and nothing else changes. Without a queue, it plays the items. |
| Player.AudioPlayer.RemoveItem | Sources/AudioPlayer/Player/AudioPlayer+Queue.swift:66-68 | The queue removes the traversal index and the first occurrence of that item from the original items; its cursor and history stay. Nothing happens without a queue. |
| Player.AudioPlayer.EndedPlaying | Sources/AudioPlayer/Player/AudioPlayer+PlayerEvent.swift:15-20 | An error fails the player with that Foundation error, whatever the queue. Otherwise it goes to the next item or stops. |
| Player.AudioPlayer.InterruptionBegan | Sources/AudioPlayer/Player/AudioPlayer+PlayerEvent.swift:22-26 | The new status is `InterruptionBeganSpec`: only a playing or buffering player is marked and paused. |
| Player.AudioPlayer.InterruptionEnded | Sources/AudioPlayer/Player/AudioPlayer+PlayerEvent.swift:28-33 | The new status is `InterruptionEndedSpec`, whose round trip `InterruptionRoundTrip` states. |
| Player.AudioPlayer.EndInterruption | Sources/AudioPlayer/Player/AudioPlayer+PlayerEvent.swift:32-33 | The interruption flag is cleared, and the background task is released. |
| Player.AudioPlayer.LoadedDuration | Sources/AudioPlayer/Player/AudioPlayer+PlayerEvent.swift:35-42 | The delegate hears of the duration only with a current item and a known duration. |
| Player.AudioPlayer.LoadedMetadata | Sources/AudioPlayer/Player/AudioPlayer+PlayerEvent.swift:45-52 | Non-empty metadata with a current item fills the item's empty fields as `ParseAll` does, and is reported. Otherwise nothing changes. |
| Player.AudioPlayer.LoadedMoreRange | Sources/AudioPlayer/Player/AudioPlayer+PlayerEvent.swift:54-69 | Without an item or a loaded range, nothing happens. Otherwise the range is reported, and playback starts early as `PlayImmediatelyMeaning` states. |
| Player.AudioPlayer.ProgressedPlaying | Sources/AudioPlayer/Player/AudioPlayer+PlayerEvent.swift:71-94 | With a known time and a ready item, a buffering or paused player settles as `SettleChoice` states, then the progress is reported with its percentage. Otherwise nothing happens. |
| Player.AudioPlayer.Settle | Sources/AudioPlayer/Player/AudioPlayer+PlayerEvent.swift:79-87 | The new status is `SettleSpec`. |
| Player.AudioPlayer.ReadyToPlay | Sources/AudioPlayer/Player/AudioPlayer+PlayerEvent.swift:96-110 | The player settles as `SettleChoice` states, the retry producer stops, and the background task is released. |
| Player.AudioPlayer.RouteChanged | Sources/AudioPlayer/Player/AudioPlayer+PlayerEvent.swift:112-117 | The player is paused exactly when a player exists and the rate it reports is 0. |
| Player.AudioPlayer.SessionMessedUp | Sources/AudioPlayer/Player/AudioPlayer+PlayerEvent.swift:119-126 | The session is activated, the player is stopped, the interruption is counted, and playback is retried. |
| Player.AudioPlayer.ResetSession | Sources/AudioPlayer/Player/AudioPlayer+PlayerEvent.swift:121-125 | The session is activated, the player is stopped, and the interruption is counted. |
| Player.AudioPlayer.StartedBuffering | Sources/AudioPlayer/Player/AudioPlayer+PlayerEvent.swift:128-143 | The new status is `StartedBufferingSpec`, whose effects `StartedBufferingEffects` states. |
| Player.AudioPlayer.NoteBuffering | Sources/AudioPlayer/Player/AudioPlayer+PlayerEvent.swift:131-135 | The interruption is counted only for a playing player outside a quality change, and the state is saved. |
| Player.AudioPlayer.HandleAudioItemEvent | Sources/AudioPlayer/Player/AudioPlayer+handlers.swift:14-17 | An item event changes nothing in the controller. |
| Player.AudioPlayer.HandleSeekEvent | Sources/AudioPlayer/Player/AudioPlayer+handlers.swift:19-33 | Acts only with a known progression under change-time seeking. It then seeks to progression minus delta backward, or plus delta forward. |
| Player.AudioPlayer.HandleRetryEvent | Sources/AudioPlayer/Player/AudioPlayer+handlers.swift:35-45 | `retryAvailable` retries. `retryFailed` fails with `maxRetryCountHit` and stops retrying. |
| Player.AudioPlayer.ConnectionLost | Sources/AudioPlayer/Player/AudioPlayer+handlers.swift:50-70 | The new status is `ConnectionLostSpec`, whose guards `ConnectionLostEffects` states. |
| Player.AudioPlayer.ConnectionRetrieved | Sources/AudioPlayer/Player/AudioPlayer+handlers.swift:72-86 | The new status is `ConnectionRetrievedSpec`, with the corrected time limit; `ConnectionRetrievedEffects` states its guards. |
| Player.AudioPlayer.ForgetLoss | Sources/AudioPlayer/Player/AudioPlayer+handlers.swift:86 | The recorded state at connection loss is cleared. |
| Player.AudioPlayer.HandleNetEvent | Sources/AudioPlayer/Player/AudioPlayer+handlers.swift:47-91 | A connection loss is handled as `ConnectionLostSpec` states, and `networkChanged` changes nothing. |
| Player.AudioPlayer.HandleQualityAdjEvent | Sources/AudioPlayer/Player/AudioPlayer+QualityAdjEvent.swift:14-33 | With automatic adjustment on and a target within range, the quality changes as `ChangeQualitySpec` states. Otherwise nothing changes. |
| Player.AudioPlayer.ChangeQuality | Sources/AudioPlayer/Player/AudioPlayer+QualityAdjEvent.swift:37-57 | The new status is `ChangeQualitySpec`, which `ChangeQualityPlaysIt` states. |
| Player.AudioPlayer.OnEvent | Sources/AudioPlayer/Player/AudioPlayer+EventListener.swift:7-28 | Routes each event family to its own handler. An unknown event or an item event changes nothing. `retryAvailable` retries as `RetrySpec` states, and a connection loss is handled as `ConnectionLostSpec`. |
| Player.AudioPlayer.HandlePlayerEvent | Sources/AudioPlayer/Player/AudioPlayer+PlayerEvent.swift:11-148 | Every player event is sent to the method for its case, and the controller invariant is kept. |
| Player.AudioPlayer.HandlePlaybackEvent | Sources/AudioPlayer/Player/AudioPlayer+PlayerEvent.swift:54-143 | The playback cases of the player-event switch, each sent to its method. Any other event does nothing. |

## Left out

- The engine and the platform are not modelled. This covers AVPlayer and AVPlayerItem, CMTime conversion, `AVAudioSession` (kept only as the `sessionActive` flag), SCNetworkReachability, NotificationCenter, `Timer` and the UIApplication background-task API. Whatever the controller reads from them is a parameter (`Env`). What it asks of them is recorded as engine fields or as a trace of seeks and delegate calls.
- `updateNowPlayingInfoCenter` and `MPNowPlayingInfoCenter+AudioItem.swift` only fill the lock-screen display. They change no controller field, so they are left out.
- Artwork decoding is left out: `UIImage`, `MPMediaItemArtwork` and `imageSize`. A metadata value carries the image the platform would decode from it, if any.
- `ap_shuffled` is random. Each shuffle is a parameter, constrained only to be a permutation of what it shuffles (`IsShuffleOf`, `ShufflesFit`).
- RetryEventProducer, QualityAdjEventProducer, PlayerEventProducer and AudioItemEventProducer are not part of this model. The controller keeps only what it changes in them: whether the retry producer runs, whether the other four producers run, and the quality producer's `interruptionCount`. The retry cap and the quality-adjustment window are not modelled.
- Concurrency is left out, and events are delivered as sequential method calls. This covers the main-queue hop in the reachability callback, asynchronous seek completions, weak references and `deinit`.
- A seek completion handler is not modelled. The model records only whether one was given, and whether it is told `false` without a seek.
- `TimeInterval` and `Float` are modelled as `real`. Rounding, NaN and the `Float` conversion of the percentage are not modelled. `isNormal` is a boolean input.
- Swift traps become preconditions. These are out-of-range indexing in `nextItem`, `previousItem`, `adapt` and `remove(at:)`, and `items[index]` in `play`. They appear as `NextDefined`, `PreviousDefined`, `AdaptDefined`, `CanStepForward`, `CanStepBackward`, and the index bounds of `Play` and `RemoveItem`. Only the paths that reach the trapping call carry them: `EndedPlaying` without an error, the next and previous remote actions, and the routers only for those events.
- `stop()` sets `currentItem` to nil, and the observer calls `stop()` again. The second call finds nothing left to release and repeats the same assignments, so it is modelled once.
- The seek event producer is never given a listener: the initialiser at `Sources/AudioPlayer/Player/AudioPlayer.swift:280-283` wires only the player, network, audio item and quality producers. In the library as written, change-time seeking ticks therefore reach no handler. `HandleSeekEvent` and the `FromSeek` case of `OnEvent` model the handler as written, should a tick reach it. The retry producer's wiring is in a file that is not part of this model.
- Event delivery while the producers are stopped is not modelled. `player = nil` stops the network producer, which then removes its observer, so no `connectionRetrieved` arrives while no player exists. `OnEvent` and `HandleNetEvent` accept any event in any state, so they also cover deliveries the producers would not make.
- The delegate is fixed when the player is created (`const delegate`). The library's `weak var delegate` can be reassigned, or become nil, at any time. Such a reassignment is not modelled, and neither is the queue then asking a different delegate.
- `play(_ item:)` and `add(_ item:)` are the one-element cases of `Play` and `Add`, and have no members of their own.
- `preferredForwardBufferDuration`, `updatePlayerItemForBufferingStrategy` and `reachableOnWWAN` have no effect on the controller's decisions, so they are left out.
- Player.AudioPlayer.SeekingEnd: excludes a multiply-rate factor of 0. In `Float` arithmetic that factor gives an infinite rate, which `real` cannot represent.
- Player.AudioPlayer.RemoteControlReceived: excludes a multiply-rate factor of 0 for an end-of-seeking event, for the same reason as `SeekingEnd`, to which it sends that event.
- Player.AudioPlayer.HandlePlayerEvent: states only that the invariant is kept. The effect of each case is stated by the method that case calls.
- Player.AudioPlayer.HandlePlaybackEvent: states only that the invariant is kept. The effect of each case is stated by the method that case calls.
- Player.AudioPlayer.OnEvent: states the effect only for unknown events, item events, `retryAvailable` and `connectionLost`. The other families are stated by their handlers.
- Player.AudioPlayer.HandleNetEvent: states the effect of `connectionRetrieved` only through `ConnectionRetrieved`, to which it is sent.
- Player.AudioPlayer.Add: without a queue, for non-empty items, it states only that a queue then exists or nothing is current. The effect is that of `Play`, whose contract states it.
- Player.AudioPlayer.ConnectionRetrieved: follows the corrected time limit below, not the comparison as written.

## Findings

| source | as written | input that shows it | evidently intended | confidence | as-written member | corrected member |
|---|---|---|---|---|---|---|
| Sources/AudioPlayer/Player/AudioPlayer+handlers.swift:79 | `lossDate.timeIntervalSinceNow < maxConnectionLossTime`. For a loss in the past the interval since now is negative, so the test always passes. | A loss one hour ago, with the default 60 s limit: the test is `-3600 < 60`, which is true, so playback is retried. | Retry only when the connection was lost for less than `maxConnectionLossTime`: `-lossDate.timeIntervalSinceNow < maxConnectionLossTime`. | high, not executed | PlayerModel.AsWrittenCounterexample | PlayerModel.RestartLimitHonoured |

The as-written test is `PlayerModel.IsAllowedToRestartAsWritten`. `PlayerModel.AsWrittenIgnoresLimit` shows that it admits every loss in the past. `PlayerModel.ConnectionRetrievedSpec`, and through it the `ConnectionRetrieved` handler, uses the corrected `IsAllowedToRestart`.
