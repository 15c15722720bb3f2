/**
 * The API-key store (`LocalKeysTool.shared`): one UTF-8 text file per
 * provider under ~/.luzhiming/key_files, trimmed on read, with an empty
 * file meaning "no key".
 */
module KeyStore {
  import opened Wrappers
  import opened Text
  import opened Settings

  /** A key file as `String(contentsOf:encoding: .utf8)` finds it. */
  datatype KeyFile = Utf8Text(content: string) | NotUtf8

  /** The file each provider's key lives in. */
  function KeyFileName(p: ApiKeyProvider): (name: string)
    ensures name == RawValue(p) + "_api_key"
  {
    match p
    case Zhipu => "zhipu_api_key"
    case OpenAI => "openai_api_key"
    case Doubao => "doubao_api_key"
  }

  /** Different providers never share a key file. */
  lemma KeyFileNamesDistinct(p: ApiKeyProvider, q: ApiKeyProvider)
    ensures KeyFileName(p) == KeyFileName(q) <==> p == q
  {
    if KeyFileName(p) == KeyFileName(q) {
      assert KeyFileName(p)[0] == KeyFileName(q)[0];
    }
  }

  /**
   * `loadKeyFromFile`: the trimmed content, or None when the file is
   * missing, is not UTF-8 text, or holds nothing but whitespace.
   */
  function LoadKey(files: map<string, KeyFile>, filename: string): (r: Option<string>)
    ensures r.Some? <==> filename in files && files[filename].Utf8Text? && !IsBlank(files[filename].content)
    ensures r.Some? ==> r.value == Trim(files[filename].content) && r.value != [] && Trim(r.value) == r.value
  {
    if filename in files && files[filename].Utf8Text? then
      var trimmed := Trim(files[filename].content);
      TrimEmptyIffBlank(files[filename].content);
      TrimIdempotent(files[filename].content);
      if trimmed == [] then None else Some(trimmed)
    else None
  }

  /**
   * A key read back after it was written is the written text trimmed, or
   * None when that text was blank; a key already trimmed comes back as is.
   */
  lemma SaveThenLoad(files: map<string, KeyFile>, filename: string, key: string)
    ensures LoadKey(files[filename := Utf8Text(key)], filename) == if IsBlank(key) then None else Some(Trim(key))
    ensures key != [] && Trim(key) == key ==> LoadKey(files[filename := Utf8Text(key)], filename) == Some(key)
  {
    if key != [] && Trim(key) == key {
      TrimEmptyIffBlank(key);
    }
  }

  /** Writing one file leaves what every other file reads as. */
  lemma SaveLeavesOthers(files: map<string, KeyFile>, filename: string, key: string, other: string)
    requires other != filename
    ensures LoadKey(files[filename := Utf8Text(key)], other) == LoadKey(files, other)
  {
  }

  /** Reading is trimming: what a read returns reads back unchanged when stored again. */
  lemma LoadIsStable(files: map<string, KeyFile>, filename: string)
    ensures var r := LoadKey(files, filename);
      r.Some? ==> LoadKey(files[filename := Utf8Text(r.value)], filename) == r
  {
    var r := LoadKey(files, filename);
    if r.Some? {
      TrimIdempotent(files[filename].content);
      TrimEmptyIffBlank(r.value);
    }
  }

  /** ~/.luzhiming/key_files: whether the directory exists, and the files in it. */
  class KeyFilesDirectory {
    var present: bool
    var files: map<string, KeyFile>

    /** A directory that does not exist holds no files. */
    predicate Valid()
      reads this
    {
      !present ==> files == map[]
    }

    constructor (present: bool, files: map<string, KeyFile>)
      requires !present ==> files == map[]
      ensures Valid()
      ensures this.present == present && this.files == files
    {
      this.present := present;
      this.files := files;
    }

    /**
     * `saveKeyToFile`: create the directory when it is missing (failing
     * with nothing written when that fails), then write the key atomically,
     * replacing any previous content.
     */
    method SaveKeyToFile(key: string, filename: string, directoryCreatable: bool, writeSucceeds: bool)
      returns (ok: bool)
      requires Valid()
      modifies this
      ensures Valid()
      ensures ok == ((old(present) || directoryCreatable) && writeSucceeds)
      ensures present == (old(present) || directoryCreatable)
      ensures files == if ok then old(files)[filename := Utf8Text(key)] else old(files)
    {
      if !present {
        if !directoryCreatable {
          return false;
        }
        present := true;
      }
      if !writeSucceeds {
        return false;
      }
      files := files[filename := Utf8Text(key)];
      return true;
    }
  }

  /** `LocalKeysTool`: the per-provider get and save pairs. */
  class LocalKeysTool {
    const keyFiles: KeyFilesDirectory

    constructor (keyFiles: KeyFilesDirectory)
      ensures this.keyFiles == keyFiles
    {
      this.keyFiles := keyFiles;
    }

    /** `getZhipuAPIKey` / `getOpenAIAPIKey` / `getDoubaoAPIKey`. */
    function GetAPIKey(p: ApiKeyProvider): (r: Option<string>)
      reads keyFiles
      requires keyFiles.Valid()
      ensures !keyFiles.present ==> r.None?
      ensures r.Some? ==> r.value != [] && Trim(r.value) == r.value
    {
      LoadKey(keyFiles.files, KeyFileName(p))
    }

    /** `saveZhipuAPIKey` / `saveOpenAIAPIKey` / `saveDoubaoAPIKey`. */
    method SaveAPIKey(p: ApiKeyProvider, key: string, directoryCreatable: bool, writeSucceeds: bool)
      returns (ok: bool)
      requires keyFiles.Valid()
      modifies keyFiles
      ensures keyFiles.Valid()
      ensures ok == ((old(keyFiles.present) || directoryCreatable) && writeSucceeds)
      ensures keyFiles.files == if ok then old(keyFiles.files)[KeyFileName(p) := Utf8Text(key)] else old(keyFiles.files)
      ensures ok ==> GetAPIKey(p) == if IsBlank(key) then None else Some(Trim(key))
      ensures forall q :: q != p ==> GetAPIKey(q) == old(GetAPIKey(q))
    {
      ghost var before := keyFiles.files;
      ok := keyFiles.SaveKeyToFile(key, KeyFileName(p), directoryCreatable, writeSucceeds);
      if ok {
        SaveThenLoad(before, KeyFileName(p), key);
        forall q | q != p ensures GetAPIKey(q) == old(GetAPIKey(q)) {
          KeyFileNamesDistinct(p, q);
          SaveLeavesOthers(before, KeyFileName(p), key, KeyFileName(q));
        }
      }
    }
  }
}
