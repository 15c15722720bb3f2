/**
 * The recording controller (`AudioRecordTool.shared`): a state machine over
 * `isRecording`, the current file URL, the start time and the running
 * duration, with an append-only history of finished recordings.
 *
 * The microphone permission, whether the recorder opens, the file name the
 * date formatter produces and the clock reading at each call are inputs.
 * The four observer closures are modelled as one trace of events.
 */
module AudioRecording {
  import opened Wrappers
  import opened Recordings
  import opened Settings

  /** What the observer closures hear, in the order they are called. */
  datatype Event =
    | StateChanged(recording: bool)          // onRecordingStateChanged
    | DurationUpdated(duration: real)        // onRecordingDurationUpdated
    | TooShort(actual: real, minimum: real)  // onRecordingTooShort
    | Completed(url: Path)                   // onRecordingCompleted

  /** The period of the repeating timer, in seconds. */
  const TickInterval: real := 0.1

  /** The recorder's fields, as a value. */
  datatype Recorder = Recorder(
    recorderActive: bool,            // audioRecorder != nil
    isRecording: bool,
    url: Option<Path>,               // currentRecordingURL
    timerScheduled: bool,            // recordingTimer != nil
    startTime: Option<real>,         // recordingStartTime
    duration: real,                  // currentRecordingDuration
    files: seq<Path>,                // recordingFiles
    history: Option<seq<Path>>,      // UserDefaults "RecordingFiles"
    events: seq<Event>)

  /** The recorder together with the recordings directory it writes into. */
  datatype World = World(recorder: Recorder, disk: seq<RecordingFile>)

  /**
   * What every public method keeps: a session is either fully open (recorder,
   * timer, URL and start time all present) or fully closed with a zero
   * duration, and the persisted history is the in-memory list once the
   * list has been saved.
   */
  predicate Consistent(r: Recorder) {
    && r.isRecording == r.recorderActive
    && r.isRecording == r.timerScheduled
    && r.isRecording == r.url.Some?
    && r.isRecording == r.startTime.Some?
    && (!r.isRecording ==> r.duration == 0.0)
    && (r.history == Some(r.files) || (r.history == None && r.files == []))
  }

  /** The URLs the completion closure received, in order. */
  function CompletedUrls(events: seq<Event>): seq<Path> {
    if events == [] then []
    else
      var last := events[|events| - 1];
      CompletedUrls(events[..|events| - 1]) + (if last.Completed? then [last.url] else [])
  }

  /** Appending one event adds its URL when it is a completion and nothing otherwise. */
  lemma CompletedUrlsAppend(events: seq<Event>, e: Event)
    ensures CompletedUrls(events + [e]) == CompletedUrls(events) + (if e.Completed? then [e.url] else [])
  {
    assert (events + [e])[..|events|] == events;
  }

  /**
   * The history is the list loaded at start-up followed by every URL the
   * completion closure was given: a recording is registered exactly when
   * its completion is announced.
   */
  predicate HistoryMatchesEvents(r: Recorder, loaded: seq<Path>) {
    r.files == loaded + CompletedUrls(r.events)
  }

  /** `cleanupRecordingState`: drop the recorder, URL, start time and duration, announce `false`. */
  function Cleared(r: Recorder): Recorder {
    r.(recorderActive := false, url := None, startTime := None, duration := 0.0,
       isRecording := false, events := r.events + [StateChanged(false)])
  }

  /**
   * `startRecording`: nothing without microphone permission, nothing while
   * a session is open; otherwise a session opens on `url` at `now` and the
   * recorder creates the file, or the recorder fails to open and the
   * observer hears `false`.
   */
  function Started(w: World, authorized: bool, url: Path, now: real, opens: bool): World {
    var r := w.recorder;
    if !authorized || r.isRecording then w
    else if opens then
      World(r.(recorderActive := true, isRecording := true, url := Some(url), timerScheduled := true,
               startTime := Some(now), duration := 0.0, events := r.events + [StateChanged(true)]),
            Without(w.disk, {url}) + [RecordingFile(url, Some(now), Some(0), false)])
    else
      World(r.(isRecording := false, url := None, events := r.events + [StateChanged(false)]), w.disk)
  }

  /**
   * The recorder's side of `stopRecording` on an open session under
   * settings `s`: the timer stops and the last ticked duration decides
   * between too short (announced with the minimum), completed (the URL is
   * appended, persisted and announced) and file missing.
   */
  function StoppedRecorder(r: Recorder, s: Snapshot, fileExists: bool): Recorder {
    var r := r.(timerScheduled := false);
    if r.duration < s.minRecordingDuration then
      Cleared(r.(events := r.events + [TooShort(r.duration, s.minRecordingDuration)]))
    else if r.url.Some? && fileExists then
      var files := r.files + [r.url.value];
      Cleared(r.(files := files, history := Some(files), events := r.events + [Completed(r.url.value)]))
    else
      Cleared(r)
  }

  /**
   * The directory's side of `stopRecording` on an open session: a file too
   * short is removed, a completed one triggers the retention cleanup.
   */
  function StoppedDisk(r: Recorder, disk: seq<RecordingFile>, s: Snapshot, listable: bool): seq<RecordingFile> {
    if r.duration < s.minRecordingDuration then
      if r.url.Some? then Without(disk, {r.url.value}) else disk
    else if r.url.Some? && r.url.value in Paths(disk) then
      AfterCleanup(disk, s, listable)
    else
      disk
  }

  /** `stopRecording`: nothing when no session is open. */
  function Stopped(w: World, s: Snapshot, listable: bool): World {
    if !w.recorder.isRecording then w
    else
      var r := w.recorder;
      World(StoppedRecorder(r, s, r.url.Some? && r.url.value in Paths(w.disk)),
            StoppedDisk(r, w.disk, s, listable))
  }

  /**
   * One firing of the 0.1 s timer at time `now`: the duration becomes the
   * time since the start, is reported, and a duration at or past the
   * maximum stops the recording.
   */
  function Ticked(w: World, s: Snapshot, listable: bool, now: real): World {
    match w.recorder.startTime
    case None => w
    case Some(start) =>
      var d := now - start;
      var ticked := World(w.recorder.(duration := d, events := w.recorder.events + [DurationUpdated(d)]), w.disk);
      if d >= s.maxRecordingDuration then Stopped(ticked, s, listable) else ticked
  }

  /** `toggleRecording`: stop an open session, otherwise try to start one. */
  function Toggled(w: World, s: Snapshot, listable: bool, authorized: bool, url: Path, now: real, opens: bool): World {
    if w.recorder.isRecording then Stopped(w, s, listable) else Started(w, authorized, url, now, opens)
  }

  /**
   * A start that is refused (no permission, or a session already open)
   * changes nothing, so at most one session exists; a start that opens
   * begins at duration 0 with the file on disk; a start whose recorder
   * fails leaves no session and no file.
   */
  lemma StartOutcomes(w: World, authorized: bool, url: Path, now: real, opens: bool)
    requires Consistent(w.recorder) && DistinctPaths(w.disk)
    ensures var n := Started(w, authorized, url, now, opens);
      && Consistent(n.recorder) && DistinctPaths(n.disk)
      && n.recorder.files == w.recorder.files
      && (!authorized || w.recorder.isRecording ==> n == w)
      && (authorized && !w.recorder.isRecording && opens ==>
            && n.recorder.isRecording && n.recorder.url == Some(url) && n.recorder.startTime == Some(now)
            && n.recorder.duration == 0.0 && n.recorder.events == w.recorder.events + [StateChanged(true)]
            && url in Paths(n.disk))
      && (authorized && !w.recorder.isRecording && !opens ==>
            && !n.recorder.isRecording && n.recorder.url == None && n.disk == w.disk
            && n.recorder.events == w.recorder.events + [StateChanged(false)])
  {
    var n := Started(w, authorized, url, now, opens);
    if authorized && !w.recorder.isRecording && opens {
      var kept := Without(w.disk, {url});
      assert url !in Paths(kept);
      assert n.disk[|kept|].path == url;
    }
  }

  /**
   * Every stop of an open session ends with no session, zero duration and
   * `false` announced last. Too short: the file is gone, the history is
   * unchanged and no completion fires. Long enough with the file present:
   * the URL is appended last, persisted, announced, and the directory is
   * what the retention cleanup leaves. File missing: only `false` is heard.
   */
  lemma StopOutcomes(w: World, s: Snapshot, listable: bool)
    requires Consistent(w.recorder) && w.recorder.isRecording && DistinctPaths(w.disk)
    ensures var n := Stopped(w, s, listable);
      var r, url := w.recorder, w.recorder.url.value;
      && Consistent(n.recorder) && DistinctPaths(n.disk)
      && !n.recorder.isRecording && n.recorder.url == None && n.recorder.startTime == None
      && n.recorder.duration == 0.0 && !n.recorder.timerScheduled
      && n.recorder.events[|n.recorder.events| - 1] == StateChanged(false)
      && (r.duration < s.minRecordingDuration ==>
            && n.recorder.files == r.files && url !in Paths(n.disk)
            && n.recorder.events == r.events + [TooShort(r.duration, s.minRecordingDuration), StateChanged(false)])
      && (r.duration >= s.minRecordingDuration && url in Paths(w.disk) ==>
            && n.recorder.files == r.files + [url] && n.recorder.history == Some(n.recorder.files)
            && n.recorder.events == r.events + [Completed(url), StateChanged(false)]
            && n.disk == AfterCleanup(w.disk, s, listable))
      && (r.duration >= s.minRecordingDuration && url !in Paths(w.disk) ==>
            && n.recorder.files == r.files && n.disk == w.disk
            && n.recorder.events == r.events + [StateChanged(false)])
  {
    var n := Stopped(w, s, listable);
    if s.autoCleanOldRecordings && listable {
      assert DistinctPaths(Retained(w.disk, s.maxAudioRecordings));
    }
  }

  /**
   * The `isRecording` guard makes finalisation happen once: after a stop,
   * a second stop (manual or from a tick) and a late tick change nothing.
   */
  lemma StopIsFinal(w: World, s: Snapshot, listable: bool, listable': bool, now: real)
    requires Consistent(w.recorder)
    ensures var n := Stopped(w, s, listable);
      && Stopped(n, s, listable') == n
      && Ticked(n, s, listable', now) == n
  {
  }

  /**
   * A tick reports `now - start`; below the maximum the session stays open
   * with that duration, at or past it the session is stopped with that
   * duration judged against the minimum.
   */
  lemma TickOutcomes(w: World, s: Snapshot, listable: bool, now: real)
    requires Consistent(w.recorder) && w.recorder.isRecording
    ensures var d := now - w.recorder.startTime.value;
      var ticked := World(w.recorder.(duration := d, events := w.recorder.events + [DurationUpdated(d)]), w.disk);
      && Consistent(ticked.recorder)
      && (d < s.maxRecordingDuration ==>
            Ticked(w, s, listable, now) == ticked && Ticked(w, s, listable, now).recorder.isRecording)
      && (d >= s.maxRecordingDuration ==>
            Ticked(w, s, listable, now) == Stopped(ticked, s, listable) && !Ticked(w, s, listable, now).recorder.isRecording)
  {
  }

  /**
   * Starting, stopping and ticking all keep the history equal to the loaded
   * list followed by the announced completions.
   */
  lemma {:induction false} HistoryTracksCompletions(w: World, loaded: seq<Path>, s: Snapshot, listable: bool,
                                                     authorized: bool, url: Path, now: real, opens: bool)
    requires HistoryMatchesEvents(w.recorder, loaded)
    ensures HistoryMatchesEvents(Started(w, authorized, url, now, opens).recorder, loaded)
    ensures HistoryMatchesEvents(Stopped(w, s, listable).recorder, loaded)
    ensures HistoryMatchesEvents(Ticked(w, s, listable, now).recorder, loaded)
  {
    StartTracksCompletions(w, loaded, authorized, url, now, opens);
    if w.recorder.isRecording {
      StopTracksCompletions(w.recorder, loaded, s, w.recorder.url.Some? && w.recorder.url.value in Paths(w.disk));
    }
    TickTracksCompletions(w, loaded, s, listable, now);
  }

  /** The tick case of `HistoryTracksCompletions`. */
  lemma TickTracksCompletions(w: World, loaded: seq<Path>, s: Snapshot, listable: bool, now: real)
    requires HistoryMatchesEvents(w.recorder, loaded)
    ensures HistoryMatchesEvents(Ticked(w, s, listable, now).recorder, loaded)
  {
    var r := w.recorder;
    if r.startTime.Some? {
      var d := now - r.startTime.value;
      var ticked := r.(duration := d, events := r.events + [DurationUpdated(d)]);
      CompletedUrlsAppend(r.events, DurationUpdated(d));
      assert HistoryMatchesEvents(ticked, loaded);
      if d >= s.maxRecordingDuration && ticked.isRecording {
        var present := r.url.Some? && r.url.value in Paths(w.disk);
        assert Ticked(w, s, listable, now).recorder == StoppedRecorder(ticked, s, present);
        StopTracksCompletions(ticked, loaded, s, present);
      }
    }
  }

  /** The start case of `HistoryTracksCompletions`. */
  lemma StartTracksCompletions(w: World, loaded: seq<Path>, authorized: bool, url: Path, now: real, opens: bool)
    requires HistoryMatchesEvents(w.recorder, loaded)
    ensures HistoryMatchesEvents(Started(w, authorized, url, now, opens).recorder, loaded)
  {
    var n := Started(w, authorized, url, now, opens).recorder;
    if authorized && !w.recorder.isRecording {
      var e := StateChanged(opens);
      assert n.files == w.recorder.files && n.events == w.recorder.events + [e];
      CompletedUrlsAppend(w.recorder.events, e);
    }
  }

  /** The stop case of `HistoryTracksCompletions`. */
  lemma StopTracksCompletions(r: Recorder, loaded: seq<Path>, s: Snapshot, fileExists: bool)
    requires HistoryMatchesEvents(r, loaded)
    ensures HistoryMatchesEvents(StoppedRecorder(r, s, fileExists), loaded)
  {
    var n := StoppedRecorder(r, s, fileExists);
    if r.duration < s.minRecordingDuration {
      var tooShort := TooShort(r.duration, s.minRecordingDuration);
      assert n.files == r.files && n.events == r.events + [tooShort] + [StateChanged(false)];
      CompletedUrlsAppend(r.events, tooShort);
      CompletedUrlsAppend(r.events + [tooShort], StateChanged(false));
    } else if r.url.Some? && fileExists {
      var completed := Completed(r.url.value);
      assert n.files == r.files + [r.url.value] && n.events == r.events + [completed] + [StateChanged(false)];
      CompletedUrlsAppend(r.events, completed);
      CompletedUrlsAppend(r.events + [completed], StateChanged(false));
      assert r.files + [r.url.value] == loaded + (CompletedUrls(r.events) + [r.url.value]);
    } else {
      assert n.files == r.files && n.events == r.events + [StateChanged(false)];
      CompletedUrlsAppend(r.events, StateChanged(false));
    }
  }

  /** A stop leaves a consistent recorder: no session, and the history saved whenever it grew. */
  lemma StopKeepsConsistent(r: Recorder, s: Snapshot, fileExists: bool)
    requires Consistent(r)
    ensures Consistent(StoppedRecorder(r, s, fileExists))
  {
  }

  /**
   * A completed recording that is the newest visible file is kept by the
   * retention cleanup it triggers whenever the maximum allows one file.
   */
  lemma CompletedRecordingKept(w: World, s: Snapshot, listable: bool, f: RecordingFile)
    requires Consistent(w.recorder) && w.recorder.isRecording && DistinctPaths(w.disk)
    requires w.recorder.duration >= s.minRecordingDuration && s.maxAudioRecordings >= 1
    requires f in w.disk && f.path == w.recorder.url.value && !f.hidden
    requires forall g :: g in w.disk && !g.hidden && g.path != f.path ==> CreatedBefore(g.created, f.created)
    ensures f in Stopped(w, s, listable).disk
    ensures Stopped(w, s, listable).recorder.files == w.recorder.files + [f.path]
  {
    if s.autoCleanOldRecordings && listable {
      NewestSurvives(w.disk, s.maxAudioRecordings, f);
    }
  }

  /** `getRemainingRecordingDuration`: `max(0, maxDuration - current)`. */
  function Remaining(maxDuration: real, current: real): (r: real)
    ensures r >= 0.0 && r >= maxDuration - current
    ensures r == 0.0 || r == maxDuration - current
  {
    if maxDuration - current > 0.0 then maxDuration - current else 0.0
  }

  /** The controller object, its settings and the directory it records into. */
  class AudioRecordTool {
    const settings: SettingsInfo
    const dir: RecordingsDirectory
    var recorderActive: bool
    var isRecording: bool
    var currentRecordingURL: Option<Path>
    var recordingTimerScheduled: bool
    var recordingStartTime: Option<real>
    var currentRecordingDuration: real
    var recordingFiles: seq<Path>
    /** The "RecordingFiles" array in UserDefaults. */
    var savedHistory: Option<seq<Path>>
    var events: seq<Event>
    /** The history as loaded at start-up. */
    ghost var loadedHistory: seq<Path>

    function State(): Recorder
      reads this
    {
      Recorder(recorderActive, isRecording, currentRecordingURL, recordingTimerScheduled,
               recordingStartTime, currentRecordingDuration, recordingFiles, savedHistory, events)
    }

    function Observed(): World
      reads this, dir
    {
      World(State(), dir.entries)
    }

    ghost predicate Valid()
      reads this, dir
    {
      && dir.Valid()
      && Consistent(State())
      && HistoryMatchesEvents(State(), loadedHistory)
    }

    /** `private init()`: no session; the history is whatever UserDefaults holds. */
    constructor (settings: SettingsInfo, dir: RecordingsDirectory, stored: Option<seq<Path>>)
      requires dir.Valid()
      ensures Valid() && this.settings == settings && this.dir == dir
      ensures !isRecording && events == []
      ensures recordingFiles == stored.GetOr([]) && savedHistory == stored
    {
      this.settings := settings;
      this.dir := dir;
      recorderActive := false;
      isRecording := false;
      currentRecordingURL := None;
      recordingTimerScheduled := false;
      recordingStartTime := None;
      currentRecordingDuration := 0.0;
      recordingFiles := [];
      savedHistory := stored;
      events := [];
      loadedHistory := [];
      new;
      LoadRecordingHistory();
    }

    /** `loadRecordingHistory`: adopt the saved list when there is one. */
    method LoadRecordingHistory()
      modifies this`recordingFiles, this`loadedHistory
      ensures recordingFiles == savedHistory.GetOr(old(recordingFiles))
      ensures loadedHistory == recordingFiles
    {
      if savedHistory.Some? {
        recordingFiles := savedHistory.value;
      }
      loadedHistory := recordingFiles;
    }

    /** `saveRecordingHistory`: the whole list overwrites the saved one. */
    method SaveRecordingHistory()
      modifies this`savedHistory
      ensures savedHistory == Some(recordingFiles)
    {
      savedHistory := Some(recordingFiles);
    }

    /** `addRecordingFile`: append, then persist. */
    method AddRecordingFile(url: Path)
      modifies this`recordingFiles, this`savedHistory
      ensures recordingFiles == old(recordingFiles) + [url]
      ensures savedHistory == Some(recordingFiles)
    {
      recordingFiles := recordingFiles + [url];
      SaveRecordingHistory();
    }

    /** `cleanupRecordingState`. */
    method CleanupRecordingState()
      modifies this`recorderActive, this`currentRecordingURL, this`recordingStartTime,
               this`currentRecordingDuration, this`isRecording, this`events
      ensures !recorderActive && !isRecording && currentRecordingURL == None
      ensures recordingStartTime == None && currentRecordingDuration == 0.0
      ensures events == old(events) + [StateChanged(false)]
    {
      recorderActive := false;
      currentRecordingURL := None;
      recordingStartTime := None;
      currentRecordingDuration := 0.0;
      isRecording := false;
      events := events + [StateChanged(false)];
    }

    /** `startRecording`, given the permission state, the file name, the clock and whether the recorder opens. */
    method StartRecording(authorized: bool, url: Path, now: real, recorderOpens: bool)
      requires Valid()
      modifies this, dir
      ensures Valid() && loadedHistory == old(loadedHistory) && dir.listable == old(dir.listable)
      ensures Observed() == Started(old(Observed()), authorized, url, now, recorderOpens)
    {
      if !authorized {
        return;
      }
      if isRecording {
        return;
      }
      ghost var w0 := Observed();
      StartTracksCompletions(w0, loadedHistory, authorized, url, now, recorderOpens);
      OpenSession(url, now, recorderOpens);
      assert Observed() == Started(w0, authorized, url, now, recorderOpens);
    }

    /**
     * The part of `startRecording` past its guards: the URL is taken, then
     * either the recorder opens (file created, session state set, `true`
     * announced) or it fails (no session, `false` announced).
     */
    method OpenSession(url: Path, now: real, recorderOpens: bool)
      requires !isRecording && dir.Valid()
      modifies this`recorderActive, this`currentRecordingURL, this`isRecording, this`recordingStartTime,
               this`currentRecordingDuration, this`recordingTimerScheduled, this`events, dir
      ensures dir.Valid() && dir.listable == old(dir.listable)
      ensures Observed() == Started(old(Observed()), true, url, now, recorderOpens)
    {
      ghost var target := Started(Observed(), true, url, now, recorderOpens);
      currentRecordingURL := Some(url);
      if recorderOpens {
        recorderActive := true;
        dir.Put(RecordingFile(url, Some(now), Some(0), false));
        isRecording := true;
        recordingStartTime := Some(now);
        currentRecordingDuration := 0.0;
        recordingTimerScheduled := true;
        events := events + [StateChanged(true)];
      } else {
        isRecording := false;
        currentRecordingURL := None;
        events := events + [StateChanged(false)];
      }
      assert State() == target.recorder;
    }

    /** `stopRecording`: judged against the minimum duration the settings hold now. */
    method StopRecording()
      requires Valid()
      modifies this, dir
      ensures Valid() && loadedHistory == old(loadedHistory) && dir.listable == old(dir.listable)
      ensures Observed() == Stopped(old(Observed()), settings.Current(), old(dir.listable))
    {
      if !isRecording {
        return;
      }
      ghost var w0 := Observed();
      ghost var present := currentRecordingURL.Some? && dir.Exists(currentRecordingURL.value);
      ghost var target := StoppedRecorder(w0.recorder, settings.Current(), present);
      StopTracksCompletions(w0.recorder, loadedHistory, settings.Current(), present);
      StopKeepsConsistent(w0.recorder, settings.Current(), present);
      if currentRecordingDuration < settings.minRecordingDuration {
        DiscardTooShort(present);
      } else {
        FinishRecording();
      }
      assert State() == target;
    }

    /**
     * The too-short branch of `stopRecording`: the timer stops, the file is
     * removed, the minimum is announced and the session is cleared.
     */
    method DiscardTooShort(ghost fileExists: bool)
      requires isRecording && dir.Valid()
      requires currentRecordingDuration < settings.minRecordingDuration
      modifies this`recordingTimerScheduled, this`recorderActive, this`currentRecordingURL, this`recordingStartTime,
               this`currentRecordingDuration, this`isRecording, this`events, dir
      ensures dir.Valid() && dir.listable == old(dir.listable)
      ensures State() == StoppedRecorder(old(State()), settings.Current(), fileExists)
      ensures dir.entries == StoppedDisk(old(State()), old(dir.entries), settings.Current(), dir.listable)
    {
      ghost var target := StoppedRecorder(State(), settings.Current(), fileExists);
      recordingTimerScheduled := false;
      var minDuration := settings.minRecordingDuration;
      if currentRecordingURL.Some? {
        dir.Remove(currentRecordingURL.value);
      }
      events := events + [TooShort(currentRecordingDuration, minDuration)];
      CleanupRecordingState();
      assert State() == target;
    }

    /**
     * The long-enough branch of `stopRecording`: the timer stops; when the
     * file is on disk its URL is registered and announced and the retention
     * cleanup runs; then the session is cleared.
     */
    method FinishRecording()
      requires isRecording && dir.Valid()
      requires currentRecordingDuration >= settings.minRecordingDuration
      modifies this`recordingTimerScheduled, this`recorderActive, this`currentRecordingURL, this`recordingStartTime,
               this`currentRecordingDuration, this`isRecording, this`events, this`recordingFiles, this`savedHistory, dir
      ensures dir.Valid() && dir.listable == old(dir.listable)
      ensures State() == StoppedRecorder(old(State()), settings.Current(),
                                         old(currentRecordingURL.Some? && currentRecordingURL.value in Paths(dir.entries)))
      ensures dir.entries == StoppedDisk(old(State()), old(dir.entries), settings.Current(), old(dir.listable))
    {
      ghost var target := StoppedRecorder(State(), settings.Current(),
                                          currentRecordingURL.Some? && dir.Exists(currentRecordingURL.value));
      recordingTimerScheduled := false;
      if currentRecordingURL.Some? && dir.Exists(currentRecordingURL.value) {
        var url := currentRecordingURL.value;
        AddRecordingFile(url);
        events := events + [Completed(url)];
        settings.CleanupOldRecordings(dir);
      }
      CleanupRecordingState();
      assert State() == target;
    }

    /** One firing of the repeating timer at time `now`. */
    method Tick(now: real)
      requires Valid() && recordingTimerScheduled
      modifies this, dir
      ensures Valid() && loadedHistory == old(loadedHistory) && dir.listable == old(dir.listable)
      ensures Observed() == Ticked(old(Observed()), settings.Current(), old(dir.listable), now)
    {
      ghost var w0 := Observed();
      match recordingStartTime {
        case Some(startTime) =>
          currentRecordingDuration := now - startTime;
          CompletedUrlsAppend(events, DurationUpdated(currentRecordingDuration));
          events := events + [DurationUpdated(currentRecordingDuration)];
          ghost var ticked := Observed();
          assert ticked == World(w0.recorder.(duration := now - startTime,
                                              events := w0.recorder.events + [DurationUpdated(now - startTime)]),
                                 w0.disk);
          var maxDuration := settings.maxRecordingDuration;
          if currentRecordingDuration >= maxDuration {
            StopRecording();
            assert Observed() == Stopped(ticked, settings.Current(), old(dir.listable));
          }
        case None =>
      }
    }

    /** `toggleRecording`. */
    method ToggleRecording(authorized: bool, url: Path, now: real, recorderOpens: bool)
      requires Valid()
      modifies this, dir
      ensures Valid() && loadedHistory == old(loadedHistory) && dir.listable == old(dir.listable)
      ensures Observed() == Toggled(old(Observed()), settings.Current(), old(dir.listable),
                                   authorized, url, now, recorderOpens)
    {
      if isRecording {
        StopRecording();
      } else {
        StartRecording(authorized, url, now, recorderOpens);
      }
    }

    /** `getCurrentRecordingDuration`. */
    function CurrentRecordingDuration(): (d: real)
      reads this
      requires Consistent(State())
      ensures !isRecording ==> d == 0.0
    {
      currentRecordingDuration
    }

    /** `getRemainingRecordingDuration`: never negative, and never more than the maximum left. */
    function RemainingRecordingDuration(): (r: real)
      reads this, settings
      ensures r >= 0.0 && r >= settings.maxRecordingDuration - currentRecordingDuration
      ensures r == 0.0 || r == settings.maxRecordingDuration - currentRecordingDuration
    {
      Remaining(settings.maxRecordingDuration, currentRecordingDuration)
    }
  }
}
