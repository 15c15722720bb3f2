/**
 * The "time settings" pane: two text fields for the shortest and longest
 * recording, checked in order (both numbers, both positive, shortest not
 * above longest) before either is written to the settings object.
 *
 * `Double(String)` is not modelled: each field arrives as the number it
 * parses to, or None when it does not parse.
 */
module TimeSettings {
  import opened Wrappers
  import opened Recordings
  import opened Settings
  import opened AudioRecording

  /** Why a save was refused, one per guard of `saveSettings`. */
  datatype DurationError = InvalidNumber | NotPositive | MinAboveMax

  /** The durations the pane is meant to guarantee. */
  predicate DurationsOrdered(s: Snapshot) {
    0.0 < s.minRecordingDuration <= s.maxRecordingDuration
  }

  /**
   * The guard chain: parsing first, then positivity, then order; the first
   * failing guard names the error, and equal durations are accepted.
   */
  function ValidateDurations(minValue: Option<real>, maxValue: Option<real>): (r: Result<(real, real), DurationError>)
    ensures r == Failure(InvalidNumber) <==> minValue.None? || maxValue.None?
    ensures r == Failure(NotPositive) <==>
              minValue.Some? && maxValue.Some? && !(minValue.value > 0.0 && maxValue.value > 0.0)
    ensures r == Failure(MinAboveMax) <==>
              minValue.Some? && maxValue.Some? && minValue.value > 0.0 && maxValue.value > 0.0
              && minValue.value > maxValue.value
    ensures r.Success? <==> minValue.Some? && maxValue.Some? && 0.0 < minValue.value <= maxValue.value
    ensures r.Success? ==> r.value == (minValue.value, maxValue.value)
  {
    if minValue.None? || maxValue.None? then Failure(InvalidNumber)
    else if !(minValue.value > 0.0 && maxValue.value > 0.0) then Failure(NotPositive)
    else if !(minValue.value <= maxValue.value) then Failure(MinAboveMax)
    else Success((minValue.value, maxValue.value))
  }

  /**
   * `saveSettings`: on a refusal nothing changes; otherwise the shortest
   * and then the longest duration are assigned, each written through, and
   * the stored pair is ordered whatever it was before.
   */
  method SaveSettings(settings: SettingsInfo, minValue: Option<real>, maxValue: Option<real>)
    returns (error: Option<DurationError>)
    requires settings.WrittenThrough()
    modifies settings
    ensures error.Some? <==> ValidateDurations(minValue, maxValue).Failure?
    ensures error.Some? ==> error.value == ValidateDurations(minValue, maxValue).error
    ensures error.Some? ==> settings.Current() == old(settings.Current()) && settings.file == old(settings.file)
    ensures error.None? ==>
              settings.Current() == old(settings.Current()).(minRecordingDuration := minValue.value,
                                                             maxRecordingDuration := maxValue.value)
              && DurationsOrdered(settings.Current())
              && settings.file == if settings.writable then Stored(settings.Current()) else old(settings.file)
    ensures settings.WrittenThrough()
  {
    var checked := ValidateDurations(minValue, maxValue);
    if checked.Failure? {
      return Some(checked.error);
    }
    settings.SetMinRecordingDuration(minValue.value);
    settings.SetMaxRecordingDuration(maxValue.value);
    return None;
  }

  /**
   * What the ordering buys the recorder: with durations as the pane saves
   * them, the timer's automatic stop at the maximum always finalises a
   * recording whose file is on disk, never discarding it as too short.
   */
  lemma AutoStopKeepsRecording(w: World, s: Snapshot, listable: bool, now: real)
    requires DurationsOrdered(s)
    requires Consistent(w.recorder) && w.recorder.isRecording && DistinctPaths(w.disk)
    requires now - w.recorder.startTime.value >= s.maxRecordingDuration
    requires w.recorder.url.value in Paths(w.disk)
    ensures var n := Ticked(w, s, listable, now);
      && !n.recorder.isRecording
      && n.recorder.files == w.recorder.files + [w.recorder.url.value]
      && n.recorder.events[|n.recorder.events| - 2] == Completed(w.recorder.url.value)
  {
    var d := now - w.recorder.startTime.value;
    var ticked := World(w.recorder.(duration := d, events := w.recorder.events + [DurationUpdated(d)]), w.disk);
    TickOutcomes(w, s, listable, now);
    StopOutcomes(ticked, s, listable);
  }
}
