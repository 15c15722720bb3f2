/**
 * The "clear cache" pane: the maximum-recordings field and auto-clean
 * checkbox, the summary of the recordings directory (file count and total
 * size), and the "clean now" button.
 */
module FilesCache {
  import opened Wrappers
  import opened Recordings
  import opened Settings

  /** The range of Swift's `Int` on the 64-bit targets the app is built for. */
  const Int64Min: int := -0x8000_0000_0000_0000
  const Int64Max: int := 0x7FFF_FFFF_FFFF_FFFF
  /** The range of `Int32`, which the field's `intValue` holds. */
  const Int32Min: int := -0x8000_0000
  const Int32Max: int := 0x7FFF_FFFF

  predicate IsDigit(c: char) {
    '0' <= c <= '9'
  }

  predicate AllDigits(s: string) {
    forall i :: 0 <= i < |s| ==> IsDigit(s[i])
  }

  /** The number an ASCII decimal numeral denotes; leading zeros allowed. */
  function DigitsValue(s: string): (n: nat)
    requires AllDigits(s)
  {
    if s == [] then 0
    else DigitsValue(s[..|s| - 1]) * 10 + ((s[|s| - 1] as int) - ('0' as int))
  }

  /**
   * `Int(String)`: an optional `+` or `-`, then one or more ASCII digits
   * and nothing else, whose value fits in `Int`; anything else is None.
   */
  function ParseInt(text: string): (r: Option<int>)
    ensures r.Some? ==> Int64Min <= r.value <= Int64Max
    ensures r.Some? ==> text != [] && AllDigits(text[1..]) && (IsDigit(text[0]) || text[0] in "+-")
    ensures r.Some? && r.value > 0 ==> text[0] != '-'
    ensures r.Some? && text[0] == '-' ==> r.value == -(DigitsValue(text[1..]) as int)
    ensures r.Some? && text[0] == '+' ==> r.value == DigitsValue(text[1..])
    ensures r.Some? && IsDigit(text[0]) ==> AllDigits(text) && r.value == DigitsValue(text)
  {
    if text == [] then None
    else
      var negative := text[0] == '-';
      var digits := if text[0] == '-' || text[0] == '+' then text[1..] else text;
      if digits == [] || !AllDigits(digits) then None
      else
        var magnitude: int := DigitsValue(digits);
        var v := if negative then -magnitude else magnitude;
        if Int64Min <= v <= Int64Max then Some(v) else None
  }

  /**
   * Every numeral `Int(_)` accepts is read: an optional `+` or `-`, then one
   * or more digits (leading zeros allowed), taken as a 64-bit value exactly
   * when it is in range.
   */
  lemma ParseIntReadsNumerals(sign: string, digits: string)
    requires sign == "" || sign == "+" || sign == "-"
    requires digits != [] && AllDigits(digits)
    ensures var v: int := if sign == "-" then -(DigitsValue(digits) as int) else DigitsValue(digits);
      ParseInt(sign + digits) == if Int64Min <= v <= Int64Max then Some(v) else None
  {
    var text := sign + digits;
    if sign == "" {
      assert text == digits;
    } else {
      assert text[0] == sign[0] && text[1..] == digits;
    }
  }

  /** The decimal numeral of a natural number, most significant digit first. */
  function NatDigits(n: nat): (s: string)
    ensures s != [] && AllDigits(s)
  {
    var last := ('0' as int + n % 10) as char;
    if n < 10 then [last] else NatDigits(n / 10) + [last]
  }

  /** How the field shows a number: `-` for a negative one, then its digits. */
  function DecimalString(n: int): string {
    if n < 0 then "-" + NatDigits(-n) else NatDigits(n)
  }

  /** Reading a numeral back gives the number it was written from. */
  lemma {:induction false} NatDigitsValue(n: nat)
    ensures DigitsValue(NatDigits(n)) == n
  {
    var s := NatDigits(n);
    if n >= 10 {
      NatDigitsValue(n / 10);
      assert s[..|s| - 1] == NatDigits(n / 10);
    }
  }

  /** Every `Int` shown in the field parses back to itself. */
  lemma ParseDecimalString(n: int)
    requires Int64Min <= n <= Int64Max
    ensures ParseInt(DecimalString(n)) == Some(n)
  {
    if n < 0 {
      NatDigitsValue(-n);
      assert DecimalString(n)[1..] == NatDigits(-n);
    } else {
      NatDigitsValue(n);
    }
  }

  /** `loadCurrentSettings`: the field gets the maximum through `Int32(_)`, which traps out of range. */
  function LoadedMaxFiles(s: Snapshot): (text: string)
    requires Int32Min <= s.maxAudioRecordings <= Int32Max
    ensures ParseInt(text) == Some(s.maxAudioRecordings)
  {
    ParseDecimalString(s.maxAudioRecordings);
    DecimalString(s.maxAudioRecordings)
  }

  /**
   * `saveSettings`: a field that does not parse, or parses to a number not
   * above zero, is refused with nothing changed; otherwise the maximum and
   * then the checkbox state are assigned, each written through.
   */
  method SaveSettings(settings: SettingsInfo, maxFilesText: string, autoCleanChecked: bool) returns (saved: bool)
    requires settings.WrittenThrough()
    modifies settings
    ensures saved <==> ParseInt(maxFilesText).Some? && ParseInt(maxFilesText).value > 0
    ensures !saved ==> settings.Current() == old(settings.Current()) && settings.file == old(settings.file)
    ensures saved ==>
              settings.Current() == old(settings.Current()).(maxAudioRecordings := ParseInt(maxFilesText).value,
                                                             autoCleanOldRecordings := autoCleanChecked)
              && settings.file == if settings.writable then Stored(settings.Current()) else old(settings.file)
    ensures settings.WrittenThrough()
  {
    var maxFiles := ParseInt(maxFilesText);
    if maxFiles.None? || !(maxFiles.value > 0) {
      return false;
    }
    settings.SetMaxAudioRecordings(maxFiles.value);
    settings.SetAutoCleanOldRecordings(autoCleanChecked);
    return true;
  }

  /** Saving the field exactly as it was loaded, with the checkbox as loaded, changes nothing. */
  lemma LoadedFieldSavesSame(s: Snapshot)
    requires 0 < s.maxAudioRecordings <= Int32Max
    ensures var v := ParseInt(LoadedMaxFiles(s));
      v.Some? && v.value > 0 && s.(maxAudioRecordings := v.value, autoCleanOldRecordings := s.autoCleanOldRecordings) == s
  {
  }

  /** A file's size as the summary counts it: 0 when it cannot be read. */
  function SizeOf(f: RecordingFile): int {
    f.size.GetOr(0)
  }

  /** The `reduce` over the listing: sizes summed in listing order. */
  function TotalSize(files: seq<RecordingFile>): int {
    if files == [] then 0 else TotalSize(files[..|files| - 1]) + SizeOf(files[|files| - 1])
  }

  /** Summing two listings one after the other sums each. */
  lemma {:induction false} TotalSizeAppend(a: seq<RecordingFile>, b: seq<RecordingFile>)
    ensures TotalSize(a + b) == TotalSize(a) + TotalSize(b)
  {
    if b == [] {
      assert a + b == a;
    } else {
      assert (a + b)[..|a + b| - 1] == a + b[..|b| - 1];
      TotalSizeAppend(a, b[..|b| - 1]);
    }
  }

  /** The total does not depend on the order the directory lists its files in. */
  lemma {:induction false} TotalSizePermutation(a: seq<RecordingFile>, b: seq<RecordingFile>)
    requires multiset(a) == multiset(b)
    ensures TotalSize(a) == TotalSize(b)
  {
    if a != [] {
      var x := a[|a| - 1];
      assert x in multiset(b);
      var j :| 0 <= j < |b| && b[j] == x;
      var rest := b[..j] + b[j + 1..];
      assert b == b[..j] + [x] + b[j + 1..];
      assert a == a[..|a| - 1] + [x];
      assert multiset(b) == multiset(b[..j]) + multiset{x} + multiset(b[j + 1..]);
      assert multiset(a) == multiset(a[..|a| - 1]) + multiset{x};
      assert multiset(rest) == multiset(b[..j]) + multiset(b[j + 1..]);
      assert multiset(a[..|a| - 1]) + multiset{x} == multiset(rest) + multiset{x};
      assert multiset(a[..|a| - 1]) == multiset(a[..|a| - 1]) + multiset{x} - multiset{x};
      assert multiset(a[..|a| - 1]) == multiset(rest);
      TotalSizePermutation(a[..|a| - 1], rest);
      TotalSizeAppend(b[..j] + [x], b[j + 1..]);
      TotalSizeAppend(b[..j], [x]);
      TotalSizeAppend(b[..j], b[j + 1..]);
      assert TotalSize([x]) == SizeOf(x) by {
        assert [x][..0] == [];
      }
    } else {
      assert |b| == |multiset(b)|;
    }
  }

  /** What the summary line shows: counts over the non-hidden files, or the path when listing fails. */
  datatype CacheInfo = Counts(files: nat, totalBytes: int) | DirectoryPath

  /** `updateCacheInfo`. */
  function UpdateCacheInfo(entries: seq<RecordingFile>, listable: bool): (info: CacheInfo)
    ensures info.Counts? <==> listable
    ensures info.Counts? ==> info.files == |Visible(entries)| && info.totalBytes == TotalSize(Visible(entries))
  {
    if listable then Counts(|Visible(entries)|, TotalSize(Visible(entries))) else DirectoryPath
  }

  /**
   * After a cleanup pass the summary counts at most the configured maximum
   * when auto-clean is on (all files when they were within it), and the
   * same files as before when it is off.
   */
  lemma CleanupBoundsCount(entries: seq<RecordingFile>, s: Snapshot, listable: bool)
    requires DistinctPaths(entries)
    ensures var before, after := UpdateCacheInfo(entries, listable), UpdateCacheInfo(AfterCleanup(entries, s, listable), listable);
      && (listable && s.autoCleanOldRecordings ==>
            after.files == if before.files <= s.maxAudioRecordings then before.files else Max(s.maxAudioRecordings, 0))
      && (!s.autoCleanOldRecordings ==> after == before)
  {
    if listable && s.autoCleanOldRecordings {
      CleanupCount(entries, s.maxAudioRecordings);
    }
  }

  /** `cleanNow`: the retention cleanup under the current settings, then the summary refreshed. */
  method CleanNow(settings: SettingsInfo, dir: RecordingsDirectory) returns (info: CacheInfo)
    requires dir.Valid()
    modifies dir
    ensures dir.Valid() && dir.listable == old(dir.listable)
    ensures dir.entries == AfterCleanup(old(dir.entries), settings.Current(), old(dir.listable))
    ensures info == UpdateCacheInfo(dir.entries, dir.listable)
  {
    settings.CleanupOldRecordings(dir);
    info := UpdateCacheInfo(dir.entries, dir.listable);
  }
}
