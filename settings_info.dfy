/**
 * The process-wide configuration object (`SettingsInfo.shared`): five
 * fields with defaults, written through to ~/.luzhiming/settings.json on
 * every assignment, loaded once at start-up, and the retention cleanup of
 * the recordings directory that reads two of the fields.
 */
module Settings {
  import opened Wrappers
  import opened Recordings

  /** The speech-to-text vendor, stored by its raw value. */
  datatype ApiKeyProvider = Zhipu | OpenAI | Doubao

  /** The enum's `rawValue`, which is also how settings.json spells it. */
  function RawValue(p: ApiKeyProvider): string {
    match p
    case Zhipu => "zhipu"
    case OpenAI => "openai"
    case Doubao => "doubao"
  }

  /** `ApiKeyProvider(rawValue:)`: None for a string that names no case. */
  function ProviderFromRawValue(s: string): (r: Option<ApiKeyProvider>)
    ensures r.Some? <==> s in {"zhipu", "openai", "doubao"}
    ensures r.Some? ==> RawValue(r.value) == s
  {
    if s == "zhipu" then Some(Zhipu)
    else if s == "openai" then Some(OpenAI)
    else if s == "doubao" then Some(Doubao)
    else None
  }

  /** Decoding a raw value gives back the case it came from. */
  lemma RawValueRoundTrip(p: ApiKeyProvider)
    ensures ProviderFromRawValue(RawValue(p)) == Some(p)
  {
  }

  /** The five persisted fields, as a value: what settings.json holds. */
  datatype Snapshot = Snapshot(
    apiKeyProvider: ApiKeyProvider,
    maxAudioRecordings: int,
    minRecordingDuration: real,
    maxRecordingDuration: real,
    autoCleanOldRecordings: bool)

  /** The declared initial values of the five properties. */
  const Defaults := Snapshot(Zhipu, 50, 1.0, 60.0, true)

  /**
   * settings.json as start-up finds it: absent, present but not readable or
   * not decodable as the five fields, or decodable to a snapshot.
   */
  datatype SettingsFile = Missing | Unreadable | Stored(snapshot: Snapshot)

  /** What the in-memory fields hold after `loadFromDisk`. */
  function LoadedSnapshot(f: SettingsFile): (s: Snapshot)
    ensures f.Stored? ==> s == f.snapshot
    ensures !f.Stored? ==> s == Defaults
  {
    match f
    case Stored(snapshot) => snapshot
    case _ => Defaults
  }

  // ---------------------------------------------------------------------
  // Retention: which recordings `cleanupOldRecordings` deletes
  // ---------------------------------------------------------------------

  /**
   * The comparator of the sort: `date1 < date2`, where a creation date that
   * cannot be read stands for `Date.distantPast`, before every real date.
   */
  predicate CreatedBefore(a: Option<real>, b: Option<real>) {
    match (a, b)
    case (None, Some(_)) => true
    case (Some(x), Some(y)) => x < y
    case _ => false
  }

  /** Oldest first: no file is created before one listed ahead of it. */
  predicate SortedByCreation(files: seq<RecordingFile>) {
    forall i, j :: 0 <= i < j < |files| ==> !CreatedBefore(files[j].created, files[i].created)
  }

  /** `CreatedBefore` is a strict order: transitive. */
  lemma CreatedBeforeTransitive(a: Option<real>, b: Option<real>, c: Option<real>)
    requires CreatedBefore(a, b) && CreatedBefore(b, c)
    ensures CreatedBefore(a, c)
  {
  }

  /** Contrapositive of transitivity: what is not before `c` is not before anything before `c`. */
  lemma NotBeforeTransitive(a: Option<real>, b: Option<real>, c: Option<real>)
    requires CreatedBefore(b, c) && !CreatedBefore(a, c)
    ensures !CreatedBefore(a, b)
  {
  }

  /** A sorted listing stays sorted when a file no newer than all of it is put in front. */
  lemma SortedCons(f: RecordingFile, files: seq<RecordingFile>)
    requires SortedByCreation(files)
    requires forall g :: g in files ==> !CreatedBefore(g.created, f.created)
    ensures SortedByCreation([f] + files)
  {
    var r := [f] + files;
    forall i, j | 0 <= i < j < |r| ensures !CreatedBefore(r[j].created, r[i].created) {
      if i > 0 {
        assert r[i] == files[i - 1] && r[j] == files[j - 1];
      } else {
        assert r[j] in files;
      }
    }
  }

  /** Inserts `f` after every file not created after it (keeps ties in listing order). */
  function Insert(f: RecordingFile, files: seq<RecordingFile>): (r: seq<RecordingFile>)
    ensures multiset(r) == multiset(files) + multiset{f}
    ensures forall g :: g in r <==> g == f || g in files
  {
    if files == [] then [f]
    else if CreatedBefore(f.created, files[0].created) then [f] + files
    else
      assert files == [files[0]] + files[1..];
      [files[0]] + Insert(f, files[1..])
  }

  /** Inserting into a sorted listing keeps it sorted. */
  lemma {:induction false} InsertSorted(f: RecordingFile, files: seq<RecordingFile>)
    requires SortedByCreation(files)
    ensures SortedByCreation(Insert(f, files))
  {
    if files == [] {
    } else if CreatedBefore(f.created, files[0].created) {
      forall g | g in files ensures !CreatedBefore(g.created, f.created) {
        var j :| 0 <= j < |files| && files[j] == g;
        assert !CreatedBefore(g.created, files[0].created);
        NotBeforeTransitive(g.created, f.created, files[0].created);
      }
      SortedCons(f, files);
    } else {
      InsertSorted(f, files[1..]);
      forall g | g in Insert(f, files[1..]) ensures !CreatedBefore(g.created, files[0].created) {
        if g != f {
          var j :| 0 <= j < |files[1..]| && files[1..][j] == g;
          assert files[j + 1] == g;
        }
      }
      SortedCons(files[0], Insert(f, files[1..]));
    }
  }

  /** Inserting a file whose path is new keeps the paths distinct. */
  lemma {:induction false} InsertDistinct(f: RecordingFile, files: seq<RecordingFile>)
    ensures DistinctPaths(files) && f.path !in Paths(files) ==> DistinctPaths(Insert(f, files))
  {
    if DistinctPaths(files) && f.path !in Paths(files) && files != [] && !CreatedBefore(f.created, files[0].created) {
      assert files[0] in files;
      InsertDistinct(f, files[1..]);
      assert files[0].path !in Paths(Insert(f, files[1..]));
    }
  }

  /** `files.sorted { date1 < date2 }`: the listing ordered oldest first. */
  function SortByCreation(files: seq<RecordingFile>): (r: seq<RecordingFile>)
    ensures SortedByCreation(r)
    ensures multiset(r) == multiset(files)
    ensures |r| == |files|
    ensures forall g :: g in r <==> g in files
    ensures DistinctPaths(files) ==> DistinctPaths(r)
  {
    if files == [] then []
    else
      var init, last := files[..|files| - 1], files[|files| - 1];
      assert files == init + [last];
      var sortedInit := SortByCreation(init);
      InsertSorted(last, sortedInit);
      DistinctInit(files);
      SamePaths(init, sortedInit);
      InsertDistinct(last, sortedInit);
      var r := Insert(last, sortedInit);
      assert |r| == |multiset(r)|;
      r
  }

  /** Dropping the last entry of a listing with distinct paths leaves distinct paths without its path. */
  lemma DistinctInit(files: seq<RecordingFile>)
    requires files != []
    ensures DistinctPaths(files) ==>
              DistinctPaths(files[..|files| - 1]) && files[|files| - 1].path !in Paths(files[..|files| - 1])
  {
    if DistinctPaths(files) {
      var init := files[..|files| - 1];
      forall g | g in init ensures g.path != files[|files| - 1].path {
        var i :| 0 <= i < |init| && init[i] == g;
        assert files[i] == g;
      }
    }
  }

  /** Two listings with the same members name the same paths. */
  lemma SamePaths(a: seq<RecordingFile>, b: seq<RecordingFile>)
    requires forall g :: g in a <==> g in b
    ensures Paths(a) == Paths(b)
  {
  }

  function Min(a: int, b: int): int {
    if a <= b then a else b
  }

  function Max(a: int, b: int): int {
    if a >= b then a else b
  }

  /**
   * How many of `count` files go: `count - maximum` when the count exceeds
   * the maximum, and `prefix` never takes more than there are.
   */
  function DeleteCount(count: nat, maximum: int): (n: nat)
    ensures n <= count
    ensures count <= maximum ==> n == 0
    ensures count > maximum ==> count - n == Max(maximum, 0)
  {
    if count > maximum then Min(count, count - maximum) else 0
  }

  /** The visible files the cleanup deletes: the oldest `count - maximum`. */
  function FilesToDelete(entries: seq<RecordingFile>, maximum: int): seq<RecordingFile> {
    var sorted := SortByCreation(Visible(entries));
    sorted[..DeleteCount(|sorted|, maximum)]
  }

  /** The directory after one cleanup pass that is allowed to run. */
  function Retained(entries: seq<RecordingFile>, maximum: int): seq<RecordingFile> {
    Without(entries, Paths(FilesToDelete(entries, maximum)))
  }

  /** The paths of a growing prefix: nothing at first, one more path per step. */
  lemma PathsOfPrefix(files: seq<RecordingFile>, i: nat)
    requires i <= |files|
    ensures i == 0 ==> Paths(files[..i]) == {}
    ensures 0 < i ==> Paths(files[..i]) == Paths(files[..i - 1]) + {files[i - 1].path}
  {
    if 0 < i {
      assert files[..i] == files[..i - 1] + [files[i - 1]];
    }
  }

  /** The deleted files are visible entries of the directory. */
  lemma DeletesOnlyVisible(entries: seq<RecordingFile>, maximum: int)
    ensures forall d :: d in FilesToDelete(entries, maximum) ==> d in entries && !d.hidden
  {
    var sorted := SortByCreation(Visible(entries));
    forall d | d in FilesToDelete(entries, maximum) ensures d in entries && !d.hidden {
      assert d in sorted;
    }
  }

  /** Removing `gone`, all of them listed, from a listing with distinct paths drops `|gone|` entries. */
  lemma WithoutCount(files: seq<RecordingFile>, gone: set<Path>)
    requires DistinctPaths(files) && gone <= Paths(files)
    ensures |Without(files, gone)| == |files| - |gone|
  {
    var left := Without(files, gone);
    DistinctPathsCount(files);
    DistinctPathsCount(left);
    assert Paths(files) == (Paths(files) - gone) + gone;
  }

  /** The deleted files have distinct paths, all of visible entries, one per deleted file. */
  lemma DoomedPaths(entries: seq<RecordingFile>, maximum: int)
    requires DistinctPaths(entries)
    ensures Paths(FilesToDelete(entries, maximum)) <= Paths(Visible(entries))
    ensures |Paths(FilesToDelete(entries, maximum))| == |FilesToDelete(entries, maximum)|
  {
    var sorted := SortByCreation(Visible(entries));
    var doomed := FilesToDelete(entries, maximum);
    assert DistinctPaths(doomed);
    DistinctPathsCount(doomed);
    forall p | p in Paths(doomed) ensures p in Paths(Visible(entries)) {
      var d :| d in doomed && d.path == p;
      assert d in sorted;
    }
  }

  /** A cleanup pass leaves `min(count, maximum)` visible files, none when the maximum is not positive. */
  lemma CleanupCount(entries: seq<RecordingFile>, maximum: int)
    requires DistinctPaths(entries)
    ensures |Visible(Retained(entries, maximum))|
            == if |Visible(entries)| <= maximum then |Visible(entries)| else Max(maximum, 0)
  {
    var gone := Paths(FilesToDelete(entries, maximum));
    VisibleWithout(entries, gone);
    DoomedPaths(entries, maximum);
    WithoutCount(Visible(entries), gone);
  }

  /** In a sorted listing, nothing outside a prefix is created before anything inside it. */
  lemma PrefixIsOldest(sorted: seq<RecordingFile>, k: nat, s: RecordingFile, d: RecordingFile)
    requires SortedByCreation(sorted) && k <= |sorted|
    requires s in sorted && s !in sorted[..k] && d in sorted[..k]
    ensures !CreatedBefore(s.created, d.created)
  {
    var j :| 0 <= j < |sorted| && sorted[j] == s;
    var i :| 0 <= i < k && sorted[..k][i] == d;
    assert forall t :: 0 <= t < k ==> sorted[..k][t] == sorted[t];
    assert j >= k;
    assert sorted[i] == d;
  }

  /** One surviving and one deleted file: the survivor was not created before the deleted one. */
  lemma SurvivorNotOlder(entries: seq<RecordingFile>, maximum: int, s: RecordingFile, d: RecordingFile)
    requires s in Without(Visible(entries), Paths(FilesToDelete(entries, maximum)))
    requires d in FilesToDelete(entries, maximum)
    ensures !CreatedBefore(s.created, d.created)
  {
    var sorted := SortByCreation(Visible(entries));
    var doomed := FilesToDelete(entries, maximum);
    assert s.path !in Paths(doomed);
    assert s !in doomed;
    PrefixIsOldest(sorted, |doomed|, s, d);
  }

  /** No file that survives a cleanup pass was created before a file it deleted. */
  lemma CleanupKeepsNewest(entries: seq<RecordingFile>, maximum: int)
    ensures forall s, d :: s in Visible(Retained(entries, maximum)) && d in FilesToDelete(entries, maximum)
                           ==> !CreatedBefore(s.created, d.created)
  {
    VisibleWithout(entries, Paths(FilesToDelete(entries, maximum)));
    forall s, d | s in Visible(Retained(entries, maximum)) && d in FilesToDelete(entries, maximum)
      ensures !CreatedBefore(s.created, d.created)
    {
      SurvivorNotOlder(entries, maximum, s, d);
    }
  }

  /** The directory after `cleanupOldRecordings` runs under settings `s`. */
  function AfterCleanup(entries: seq<RecordingFile>, s: Snapshot, listable: bool): seq<RecordingFile> {
    if s.autoCleanOldRecordings && listable then Retained(entries, s.maxAudioRecordings) else entries
  }

  /**
   * The newest visible file survives a cleanup pass that keeps at least one
   * file: a recording that has just been completed is not deleted by the
   * cleanup that follows it.
   */
  lemma NewestSurvives(entries: seq<RecordingFile>, maximum: int, f: RecordingFile)
    requires DistinctPaths(entries) && maximum >= 1
    requires f in entries && !f.hidden
    requires forall g :: g in entries && !g.hidden && g.path != f.path ==> CreatedBefore(g.created, f.created)
    ensures f in Retained(entries, maximum)
  {
    var sorted := SortByCreation(Visible(entries));
    var doomed := FilesToDelete(entries, maximum);
    assert f in sorted;
    NewestIsLast(sorted, f);
    forall d | d in doomed ensures d.path != f.path {
      var i :| 0 <= i < |doomed| && doomed[i] == d;
      assert sorted[i] == d && i < |sorted| - 1;
    }
  }

  /** In a sorted listing with distinct paths, the file created after every other one comes last. */
  lemma NewestIsLast(sorted: seq<RecordingFile>, f: RecordingFile)
    requires SortedByCreation(sorted) && DistinctPaths(sorted) && f in sorted
    requires forall g :: g in sorted && g.path != f.path ==> CreatedBefore(g.created, f.created)
    ensures sorted[|sorted| - 1] == f
  {
    var j :| 0 <= j < |sorted| && sorted[j] == f;
    var last := sorted[|sorted| - 1];
    assert last in sorted;
    assert j < |sorted| - 1 ==> !CreatedBefore(last.created, f.created) && last.path != f.path;
    assert j == |sorted| - 1;
  }

  /**
   * `SettingsInfo`: the five properties, the settings file they are written
   * through to, and whether writes to that file succeed.
   */
  class SettingsInfo {
    var apiKeyProvider: ApiKeyProvider
    var maxAudioRecordings: int
    var minRecordingDuration: real
    var maxRecordingDuration: real
    var autoCleanOldRecordings: bool
    /** ~/.luzhiming/settings.json. */
    var file: SettingsFile
    /** False when writing settings.json fails; the error is logged and dropped. */
    const writable: bool

    function Current(): Snapshot
      reads this
    {
      Snapshot(apiKeyProvider, maxAudioRecordings, minRecordingDuration,
               maxRecordingDuration, autoCleanOldRecordings)
    }

    /** Write-through: whenever writes land, the file holds the current fields. */
    ghost predicate WrittenThrough()
      reads this
    {
      writable ==> file == Stored(Current())
    }

    /**
     * `private init() { loadFromDisk() }`. A missing file keeps the defaults
     * and writes them; an unreadable one keeps the defaults and overwrites
     * it with them; a decodable one is copied into the fields (writing it
     * back would store the same snapshot).
     */
    constructor Load(onDisk: SettingsFile, writable: bool)
      ensures this.writable == writable
      ensures Current() == LoadedSnapshot(onDisk)
      ensures file == if onDisk.Stored? || !writable then onDisk else Stored(Defaults)
      ensures WrittenThrough()
    {
      apiKeyProvider := Defaults.apiKeyProvider;
      maxAudioRecordings := Defaults.maxAudioRecordings;
      minRecordingDuration := Defaults.minRecordingDuration;
      maxRecordingDuration := Defaults.maxRecordingDuration;
      autoCleanOldRecordings := Defaults.autoCleanOldRecordings;
      file := onDisk;
      this.writable := writable;
      new;
      match onDisk {
        case Missing =>
          SaveToDisk();
        case Unreadable =>
          SaveToDisk();
        case Stored(s) =>
          apiKeyProvider := s.apiKeyProvider;
          maxAudioRecordings := s.maxAudioRecordings;
          minRecordingDuration := s.minRecordingDuration;
          maxRecordingDuration := s.maxRecordingDuration;
          autoCleanOldRecordings := s.autoCleanOldRecordings;
      }
    }

    /** `saveToDisk`: encode the whole object and overwrite the file atomically. */
    method SaveToDisk()
      modifies this`file
      ensures file == if writable then Stored(Current()) else old(file)
      ensures WrittenThrough()
    {
      if writable {
        file := Stored(Current());
      }
    }

    method SetApiKeyProvider(p: ApiKeyProvider)
      requires WrittenThrough()
      modifies this
      ensures Current() == old(Current()).(apiKeyProvider := p)
      ensures file == if writable then Stored(Current()) else old(file)
      ensures WrittenThrough()
    {
      apiKeyProvider := p;
      SaveToDisk();
    }

    method SetMaxAudioRecordings(n: int)
      requires WrittenThrough()
      modifies this
      ensures Current() == old(Current()).(maxAudioRecordings := n)
      ensures file == if writable then Stored(Current()) else old(file)
      ensures WrittenThrough()
    {
      maxAudioRecordings := n;
      SaveToDisk();
    }

    method SetMinRecordingDuration(d: real)
      requires WrittenThrough()
      modifies this
      ensures Current() == old(Current()).(minRecordingDuration := d)
      ensures file == if writable then Stored(Current()) else old(file)
      ensures WrittenThrough()
    {
      minRecordingDuration := d;
      SaveToDisk();
    }

    method SetMaxRecordingDuration(d: real)
      requires WrittenThrough()
      modifies this
      ensures Current() == old(Current()).(maxRecordingDuration := d)
      ensures file == if writable then Stored(Current()) else old(file)
      ensures WrittenThrough()
    {
      maxRecordingDuration := d;
      SaveToDisk();
    }

    method SetAutoCleanOldRecordings(b: bool)
      requires WrittenThrough()
      modifies this
      ensures Current() == old(Current()).(autoCleanOldRecordings := b)
      ensures file == if writable then Stored(Current()) else old(file)
      ensures WrittenThrough()
    {
      autoCleanOldRecordings := b;
      SaveToDisk();
    }

    /** `resetToDefaults`: assigns each default, each assignment writing through. */
    method ResetToDefaults()
      requires WrittenThrough()
      modifies this
      ensures Current() == Defaults
      ensures file == if writable then Stored(Defaults) else old(file)
      ensures WrittenThrough()
    {
      SetApiKeyProvider(Defaults.apiKeyProvider);
      SetMaxAudioRecordings(Defaults.maxAudioRecordings);
      SetMinRecordingDuration(Defaults.minRecordingDuration);
      SetMaxRecordingDuration(Defaults.maxRecordingDuration);
      SetAutoCleanOldRecordings(Defaults.autoCleanOldRecordings);
    }

    /**
     * `cleanupOldRecordings`: unless switched off or the listing fails, sort
     * the visible files oldest first and delete the first `count - max`.
     * It touches the directory only, never the recorder's history.
     */
    method CleanupOldRecordings(dir: RecordingsDirectory)
      requires dir.Valid()
      modifies dir
      ensures dir.Valid() && dir.listable == old(dir.listable)
      ensures dir.entries == AfterCleanup(old(dir.entries), Current(), old(dir.listable))
    {
      if !autoCleanOldRecordings {
        return;
      }
      if !dir.listable {
        // contentsOfDirectory throws; the error is logged
        return;
      }
      var sortedFiles := SortByCreation(Visible(dir.entries));
      var filesToDelete: seq<RecordingFile> := [];
      if |sortedFiles| > maxAudioRecordings {
        filesToDelete := sortedFiles[..DeleteCount(|sortedFiles|, maxAudioRecordings)];
      }
      assert filesToDelete == FilesToDelete(dir.entries, maxAudioRecordings);
      WithoutNothing(dir.entries);
      PathsOfPrefix(filesToDelete, 0);
      for i := 0 to |filesToDelete|
        invariant dir.Valid() && dir.listable == old(dir.listable)
        invariant dir.entries == Without(old(dir.entries), Paths(filesToDelete[..i]))
      {
        WithoutTwice(old(dir.entries), Paths(filesToDelete[..i]), {filesToDelete[i].path});
        PathsOfPrefix(filesToDelete, i + 1);
        dir.Remove(filesToDelete[i].path);
      }
      assert filesToDelete[..|filesToDelete|] == filesToDelete;
    }
  }

  /**
   * The next launch reading back what this process wrote: with writes
   * landing, a fresh load reproduces every field, so save followed by load
   * is the identity (after `resetToDefaults` too).
   */
  method Reload(settings: SettingsInfo) returns (next: SettingsInfo)
    requires settings.writable && settings.WrittenThrough()
    ensures next.Current() == settings.Current()
    ensures next.WrittenThrough()
  {
    next := new SettingsInfo.Load(settings.file, true);
  }
}
