/**
 * What the player reads off the engine's current item (progression, duration,
 * seekable and loaded ranges) and the choice of seek target within the
 * seekable range.
 */
module Timing {
  import opened Wrappers

  /** `TimeRange` */
  datatype TimeRange = TimeRange(earliest: real, latest: real)

  /** An engine time range whose ends may fail to convert to a time interval. */
  datatype EngineRange = EngineRange(start: Option<real>, end: Option<real>)

  /** The engine's current item, as far as the player reads it. */
  datatype EngineItem = EngineItem(
    currentTime: Option<real>,
    duration: Option<real>,
    /** The last of the seekable time ranges, if any. */
    lastSeekable: Option<EngineRange>,
    /** The last of the loaded time ranges, if any. */
    lastLoaded: Option<EngineRange>,
    readyToPlay: bool)

  /** `currentItemProgression` */
  function Progression(item: Option<EngineItem>): (r: Option<real>)
    ensures item.None? ==> r.None?
  {
    if item.Some? then item.value.currentTime else None
  }

  /** `currentItemDuration` */
  function Duration(item: Option<EngineItem>): (r: Option<real>)
    ensures item.None? ==> r.None?
  {
    if item.Some? then item.value.duration else None
  }

  /** `currentItemSeekableRange` */
  function SeekableRange(item: Option<EngineItem>): Option<TimeRange>
  {
    if item.None? || item.value.lastSeekable.None? then None
    else
      var rng := item.value.lastSeekable.value;
      if rng.start.Some? && rng.end.Some? then Some(TimeRange(rng.start.value, rng.end.value))
      else if Progression(item).Some? then Some(TimeRange(Progression(item).value, Progression(item).value))
      else None
  }

  /** `currentItemLoadedRange` */
  function LoadedRange(item: Option<EngineItem>): Option<TimeRange>
  {
    if item.None? || item.value.lastLoaded.None? then None
    else
      var rng := item.value.lastLoaded.value;
      if rng.start.Some? && rng.end.Some? then Some(TimeRange(rng.start.value, rng.end.value)) else None
  }

  /** `currentItemLoadedAhead`; `playerTime` is the player's current time, absent without a player. */
  function LoadedAhead(item: Option<EngineItem>, playerTime: Option<real>): Option<real>
  {
    var loaded := LoadedRange(item);
    if loaded.Some? && playerTime.Some? && loaded.value.earliest <= playerTime.value then
      Some(loaded.value.latest - playerTime.value)
    else None
  }

  /** Without an engine item there is no progression, duration or range. */
  lemma NoItemNoTiming(playerTime: Option<real>)
    ensures Progression(None) == None && Duration(None) == None
    ensures SeekableRange(None) == None && LoadedRange(None) == None && LoadedAhead(None, playerTime) == None
  {
  }

  /**
   * The seekable range is the last engine range when both its ends convert;
   * otherwise the single point of the progression, if known; otherwise none.
   */
  lemma SeekableRangeCases(item: EngineItem)
    ensures var rng := item.lastSeekable; var r := SeekableRange(Some(item));
      (rng.None? ==> r.None?) &&
      (rng.Some? && rng.value.start.Some? && rng.value.end.Some? ==>
        r == Some(TimeRange(rng.value.start.value, rng.value.end.value))) &&
      (rng.Some? && !(rng.value.start.Some? && rng.value.end.Some?) ==>
        r == if item.currentTime.Some? then Some(TimeRange(item.currentTime.value, item.currentTime.value)) else None)
  {
  }

  /** The loaded range is the last engine range when both its ends convert, and none otherwise. */
  lemma LoadedRangeCases(item: EngineItem)
    ensures var rng := item.lastLoaded; var r := LoadedRange(Some(item));
      (rng.None? ==> r.None?) &&
      (rng.Some? && rng.value.start.Some? && rng.value.end.Some? ==>
        r == Some(TimeRange(rng.value.start.value, rng.value.end.value))) &&
      (rng.Some? && !(rng.value.start.Some? && rng.value.end.Some?) ==> r.None?)
  {
  }

  /** Loaded-ahead is the time left until the end of the loaded range, known only once playback is inside it. */
  lemma LoadedAheadMeaning(item: Option<EngineItem>, playerTime: Option<real>)
    ensures LoadedAhead(item, playerTime).Some? <==>
      LoadedRange(item).Some? && playerTime.Some? && LoadedRange(item).value.earliest <= playerTime.value
    ensures LoadedAhead(item, playerTime).Some? ==>
      playerTime.value + LoadedAhead(item, playerTime).value == LoadedRange(item).value.latest
  {
  }

  /** What a seek request does to the engine. */
  datatype SeekAction =
    | SeekTo(time: real)
    /** The completion is called with `false` and nothing is sought. */
    | ReportFailure
    | NoSeek

  /** `seekSafely`: with a completion the item must be ready to play. */
  function SeekSafely(time: real, hasCompletion: bool, itemReady: bool): (a: SeekAction)
    ensures a == SeekTo(time) || (a == ReportFailure && hasCompletion && !itemReady)
    ensures a == SeekTo(time) <==> !hasCompletion || itemReady
  {
    if !hasCompletion then SeekTo(time)
    else if !itemReady then ReportFailure
    else SeekTo(time)
  }

  /** The start position `seekToSeekableRangeStart` aims at. */
  function RangeStartTarget(range: TimeRange, padding: real): real
  {
    if range.earliest + padding <= range.latest then range.earliest + padding else range.latest
  }

  /** The end position `seekToSeekableRangeEnd` aims at. */
  function RangeEndTarget(range: TimeRange, padding: real): real
  {
    if range.earliest >= range.latest - padding then range.earliest else range.latest - padding
  }

  /** `seekToSeekableRangeStart(padding:_:)` */
  function SeekToRangeStart(range: Option<TimeRange>, padding: real, hasCompletion: bool, itemReady: bool): (a: SeekAction)
    ensures range.None? ==> a == if hasCompletion then ReportFailure else NoSeek
  {
    if range.None? then (if hasCompletion then ReportFailure else NoSeek)
    else SeekSafely(RangeStartTarget(range.value, padding), hasCompletion, itemReady)
  }

  /** `seekToSeekableRangeEnd(padding:_:)` */
  function SeekToRangeEnd(range: Option<TimeRange>, padding: real, hasCompletion: bool, itemReady: bool): (a: SeekAction)
    ensures range.None? ==> a == if hasCompletion then ReportFailure else NoSeek
  {
    if range.None? then (if hasCompletion then ReportFailure else NoSeek)
    else SeekSafely(RangeEndTarget(range.value, padding), hasCompletion, itemReady)
  }

  /** `seek(to:byAdaptingTimeToFitSeekableRanges:_:)` given the current seekable range. */
  function Seek(time: real, range: Option<TimeRange>, adapt: bool, hasCompletion: bool, itemReady: bool): SeekAction
  {
    if range.None? then SeekSafely(time, hasCompletion, itemReady)
    else
      var earliest := range.value.earliest;
      var latest := range.value.latest;
      if !adapt || (time >= earliest && time <= latest) then SeekSafely(time, hasCompletion, itemReady)
      else if time < earliest then SeekToRangeStart(range, 1.0, hasCompletion, itemReady)
      else SeekToRangeEnd(range, 1.0, hasCompletion, itemReady)
  }

  /**
   * The requested time is used unchanged when there is no seekable range, when
   * adaptation is off, or when the time lies within the range; with a
   * completion and an item not ready the request fails without seeking.
   */
  lemma SeekUnchangedCases(time: real, range: Option<TimeRange>, adapt: bool, hasCompletion: bool, itemReady: bool)
    requires range.None? || !adapt || (range.value.earliest <= time <= range.value.latest)
    ensures Seek(time, range, adapt, hasCompletion, itemReady) ==
      if hasCompletion && !itemReady then ReportFailure else SeekTo(time)
  {
  }

  /**
   * Under adaptation a time before the range goes one second past its start
   * (capped at its end), a time after it one second before its end (floored at
   * its start); when the range is not inverted the target lies inside it.
   */
  lemma SeekAdaptedTarget(time: real, range: TimeRange, hasCompletion: bool, itemReady: bool)
    requires !(range.earliest <= time <= range.latest)
    ensures var a := Seek(time, Some(range), true, hasCompletion, itemReady);
      var target := if time < range.earliest then RangeStartTarget(range, 1.0) else RangeEndTarget(range, 1.0);
      (a == if hasCompletion && !itemReady then ReportFailure else SeekTo(target)) &&
      (time < range.earliest ==> target == if range.latest < range.earliest + 1.0 then range.latest else range.earliest + 1.0) &&
      (time >= range.earliest ==> time > range.latest && target == if range.earliest > range.latest - 1.0 then range.earliest else range.latest - 1.0) &&
      (range.earliest <= range.latest ==> range.earliest <= target <= range.latest)
  {
  }
}
