/**
 * The recordings directory (~/.luzhiming/audio_recordings) as the file
 * system shows it to the recorder, the retention cleanup and the cache
 * panel: a listing of entries, each with a path, an optional creation date,
 * an optional size and a hidden flag.
 */
module Recordings {
  import opened Wrappers

  type Path = string

  /**
   * One directory entry. `created` and `size` are None when the attribute
   * cannot be read; dates are seconds on one clock.
   */
  datatype RecordingFile = RecordingFile(path: Path, created: Option<real>, size: Option<int>, hidden: bool)

  /** The set of paths a listing names. */
  function Paths(files: seq<RecordingFile>): set<Path> {
    set f | f in files :: f.path
  }

  /** No path is listed twice: a directory holds one entry per name. */
  predicate DistinctPaths(files: seq<RecordingFile>) {
    forall i, j :: 0 <= i < j < |files| ==> files[i].path != files[j].path
  }

  /** The listing with every entry whose path is in `gone` removed, order kept. */
  function Without(files: seq<RecordingFile>, gone: set<Path>): (r: seq<RecordingFile>)
    ensures |r| <= |files|
    ensures forall f :: f in r <==> f in files && f.path !in gone
    ensures Paths(r) == Paths(files) - gone
    ensures DistinctPaths(files) ==> DistinctPaths(r)
  {
    if files == [] then []
    else
      var rest := Without(files[1..], gone);
      assert forall f :: f in files <==> f == files[0] || f in files[1..];
      if files[0].path in gone then rest
      else
        assert DistinctPaths(files) ==> files[0].path !in Paths(files[1..]);
        [files[0]] + rest
  }

  /** Removing nothing keeps the listing. */
  lemma {:induction false} WithoutNothing(files: seq<RecordingFile>)
    ensures Without(files, {}) == files
  {
    if files != [] {
      WithoutNothing(files[1..]);
    }
  }

  /** Removing path sets one after another is removing their union. */
  lemma {:induction false} WithoutTwice(files: seq<RecordingFile>, a: set<Path>, b: set<Path>)
    ensures Without(Without(files, a), b) == Without(files, a + b)
  {
    if files != [] {
      WithoutTwice(files[1..], a, b);
    }
  }

  /** The entries `contentsOfDirectory(..., options: .skipsHiddenFiles)` lists. */
  function Visible(files: seq<RecordingFile>): (r: seq<RecordingFile>)
    ensures |r| <= |files|
    ensures forall f :: f in r <==> f in files && !f.hidden
    ensures DistinctPaths(files) ==> DistinctPaths(r)
  {
    if files == [] then []
    else
      var rest := Visible(files[1..]);
      assert forall f :: f in files <==> f == files[0] || f in files[1..];
      if files[0].hidden then rest
      else
        assert DistinctPaths(files) ==> files[0].path !in Paths(files[1..]);
        [files[0]] + rest
  }

  /** Hiding and removing commute: the visible part of a pruned listing is the pruned visible part. */
  lemma {:induction false} VisibleWithout(files: seq<RecordingFile>, gone: set<Path>)
    ensures Visible(Without(files, gone)) == Without(Visible(files), gone)
  {
    if files != [] {
      VisibleWithout(files[1..], gone);
    }
  }

  /** With distinct paths, a listing is as long as its set of paths is large. */
  lemma {:induction false} DistinctPathsCount(files: seq<RecordingFile>)
    requires DistinctPaths(files)
    ensures |Paths(files)| == |files|
  {
    if files != [] {
      DistinctPathsCount(files[1..]);
      assert Paths(files) == {files[0].path} + Paths(files[1..]);
      assert files[0].path !in Paths(files[1..]);
    }
  }

  /**
   * The directory. `listable` is false when listing it fails (the directory
   * cannot be read); the entries are then still there but nobody sees them.
   */
  class RecordingsDirectory {
    var entries: seq<RecordingFile>
    var listable: bool

    ghost predicate Valid()
      reads this
    {
      DistinctPaths(entries)
    }

    constructor (entries: seq<RecordingFile>, listable: bool)
      requires DistinctPaths(entries)
      ensures Valid() && this.entries == entries && this.listable == listable
    {
      this.entries := entries;
      this.listable := listable;
    }

    /** `FileManager.fileExists(atPath:)`. */
    function Exists(path: Path): bool
      reads this
    {
      path in Paths(entries)
    }

    /** `try? FileManager.removeItem(at:)`: a missing path is silently ignored. */
    method Remove(path: Path)
      requires Valid()
      modifies this
      ensures Valid() && listable == old(listable)
      ensures entries == Without(old(entries), {path})
      ensures !Exists(path)
    {
      entries := Without(entries, {path});
    }

    /** A writer creating (or replacing) the file at `file.path`. */
    method Put(file: RecordingFile)
      requires Valid()
      modifies this
      ensures Valid() && listable == old(listable)
      ensures entries == Without(old(entries), {file.path}) + [file]
      ensures Exists(file.path)
    {
      var kept := Without(entries, {file.path});
      entries := kept + [file];
      assert file.path !in Paths(kept);
    }
  }
}
