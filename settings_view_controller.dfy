/**
 * The settings window's controller: the category side bar, saving a key
 * typed into a provider card, and filling the cards from the key store.
 * It keeps its own copies of the key-file read and write helpers for the
 * OpenAI and Doubao keys, which must agree with `LocalKeysTool`.
 */
module SettingsController {
  import opened Wrappers
  import opened Text
  import opened Settings
  import opened KeyStore

  /** The side bar's categories, in display order. */
  const Categories: seq<string> := ["API Keys", "时间设置", "清理缓存"]

  /** What the status label shows after a save: rejected as empty, saved, or failed. */
  datatype SaveStatus = EmptyKey | Saved | SaveFailed

  /** `mapProviderToId`: the card id of a provider, which decodes back to it. */
  function MapProviderToId(p: ApiKeyProvider): (id: string)
    ensures ProviderFromRawValue(id) == Some(p)
    ensures id == RawValue(p)
  {
    match p
    case Zhipu => "zhipu"
    case OpenAI => "openai"
    case Doubao => "doubao"
  }

  /** `ApiKeysAreaView.setKey(_:for:)`, applied only when a key was found. */
  function WithKey(shown: map<string, string>, id: string, key: Option<string>): map<string, string> {
    if key.Some? then shown[id := key.value] else shown
  }

  /**
   * The cards filled from the three stored keys: only provider cards get a
   * key, and a card shows a key exactly when one is stored for it.
   */
  function CardKeys(zhipu: Option<string>, openai: Option<string>, doubao: Option<string>): (m: map<string, string>)
    ensures m.Keys <= {"zhipu", "openai", "doubao"}
    ensures ("zhipu" in m <==> zhipu.Some?) && (zhipu.Some? ==> m["zhipu"] == zhipu.value)
    ensures ("openai" in m <==> openai.Some?) && (openai.Some? ==> m["openai"] == openai.value)
    ensures ("doubao" in m <==> doubao.Some?) && (doubao.Some? ==> m["doubao"] == doubao.value)
  {
    CardIdsDistinct();
    WithKey(WithKey(WithKey(map[], "zhipu", zhipu), "openai", openai), "doubao", doubao)
  }

  /** The three card ids differ. */
  lemma CardIdsDistinct()
    ensures "zhipu" != "openai" && "zhipu" != "doubao" && "openai" != "doubao"
  {
    assert "zhipu"[0] != "openai"[0] && "zhipu"[0] != "doubao"[0] && "openai"[0] != "doubao"[0];
  }

  class SettingsViewController {
    var currentCategory: string
    var status: Option<SaveStatus>
    const keysTool: LocalKeysTool
    const settings: SettingsInfo

    /** The selected category is always one of the side bar's. */
    predicate Valid()
      reads this
    {
      currentCategory in Categories
    }

    /** `viewDidLoad` ends by selecting the first category. */
    constructor (keysTool: LocalKeysTool, settings: SettingsInfo)
      ensures this.keysTool == keysTool && this.settings == settings
      ensures Valid() && currentCategory == Categories[0] && status.None?
    {
      this.keysTool := keysTool;
      this.settings := settings;
      currentCategory := Categories[0];
      status := None;
    }

    /**
     * `handleCategorySelection`: an index past the end is ignored; any
     * other selects that category and clears the status label. A negative
     * index traps in the source, so it is excluded here.
     */
    method HandleCategorySelection(index: int)
      requires index >= 0
      requires Valid()
      modifies this`currentCategory, this`status
      ensures Valid()
      ensures index < |Categories| ==> currentCategory == Categories[index] && status.None?
      ensures index >= |Categories| ==> currentCategory == old(currentCategory) && status == old(status)
    {
      if index >= |Categories| {
        return;
      }
      currentCategory := Categories[index];
      status := None;
    }

    /** The controller's own `loadKeyFromFile`, which reads exactly as the key store does. */
    function LoadKeyFromFile(filename: string): (r: Option<string>)
      reads keysTool.keyFiles
      ensures r == LoadKey(keysTool.keyFiles.files, filename)
    {
      var files := keysTool.keyFiles.files;
      if filename !in files then None
      else
        match files[filename]
        case NotUtf8 => None
        case Utf8Text(content) =>
          var trimmed := Trim(content);
          if trimmed == [] then None else Some(trimmed)
    }

    /** The local read of a provider's key file gives what the key store's getter gives. */
    lemma LoadKeyFromFileAgrees(p: ApiKeyProvider)
      requires keysTool.keyFiles.Valid()
      ensures LoadKeyFromFile(KeyFileName(p)) == keysTool.GetAPIKey(p)
    {
    }

    /**
     * The controller's own `saveKeyToFile`: create the directory when it is
     * missing (failing with nothing written when that fails), then overwrite
     * the file; a successful write reads back as the key trimmed.
     */
    method SaveKeyToFile(key: string, filename: string, directoryCreatable: bool, writeSucceeds: bool)
      returns (ok: bool)
      requires keysTool.keyFiles.Valid()
      modifies keysTool.keyFiles
      ensures keysTool.keyFiles.Valid()
      ensures ok == ((old(keysTool.keyFiles.present) || directoryCreatable) && writeSucceeds)
      ensures keysTool.keyFiles.present == (old(keysTool.keyFiles.present) || directoryCreatable)
      ensures keysTool.keyFiles.files ==
                if ok then old(keysTool.keyFiles.files)[filename := Utf8Text(key)] else old(keysTool.keyFiles.files)
      ensures ok ==> LoadKeyFromFile(filename) == if IsBlank(key) then None else Some(Trim(key))
    {
      var dir := keysTool.keyFiles;
      if !dir.present {
        if !directoryCreatable {
          return false;
        }
        dir.present := true;
      }
      if !writeSucceeds {
        return false;
      }
      dir.files := dir.files[filename := Utf8Text(key)];
      SaveThenLoad(old(dir.files), filename, key);
      return true;
    }

    /**
     * A save of the OpenAI or Doubao key through the local helper, with
     * the same outcome as the key store's own save for that provider.
     */
    method SaveProviderKeyToFile(p: ApiKeyProvider, key: string, directoryCreatable: bool, writeSucceeds: bool)
      returns (ok: bool)
      requires keysTool.keyFiles.Valid()
      modifies keysTool.keyFiles
      ensures keysTool.keyFiles.Valid()
      ensures ok == ((old(keysTool.keyFiles.present) || directoryCreatable) && writeSucceeds)
      ensures keysTool.keyFiles.present == (old(keysTool.keyFiles.present) || directoryCreatable)
      ensures keysTool.keyFiles.files ==
                if ok then old(keysTool.keyFiles.files)[KeyFileName(p) := Utf8Text(key)] else old(keysTool.keyFiles.files)
      ensures ok ==> keysTool.GetAPIKey(p) == if IsBlank(key) then None else Some(Trim(key))
      ensures forall q :: q != p ==> keysTool.GetAPIKey(q) == old(keysTool.GetAPIKey(q))
    {
      ghost var before := keysTool.keyFiles.files;
      ok := SaveKeyToFile(key, KeyFileName(p), directoryCreatable, writeSucceeds);
      if ok {
        LoadKeyFromFileAgrees(p);
        forall q | q != p ensures keysTool.GetAPIKey(q) == old(keysTool.GetAPIKey(q)) {
          KeyFileNamesDistinct(p, q);
          SaveLeavesOthers(before, KeyFileName(p), key, KeyFileName(q));
        }
      }
    }

    /**
     * `saveAPIKey`: trim the key and reject it when nothing is left;
     * otherwise route it by card id (zhipu through the key store, openai and
     * doubao through the local helper, anything else a failure that writes
     * nothing) and show whether it was saved. A saved key reads back as the
     * trimmed key, and every other provider's key is left as it was.
     */
    method SaveAPIKey(providerId: string, key: string, directoryCreatable: bool, writeSucceeds: bool)
      returns (s: SaveStatus)
      requires keysTool.keyFiles.Valid()
      modifies keysTool.keyFiles, this`status
      ensures keysTool.keyFiles.Valid()
      ensures status == Some(s)
      ensures s == EmptyKey <==> IsBlank(key)
      ensures IsBlank(key) || ProviderFromRawValue(providerId).None? ==>
                s != Saved && keysTool.keyFiles.files == old(keysTool.keyFiles.files)
                && keysTool.keyFiles.present == old(keysTool.keyFiles.present)
      ensures !IsBlank(key) && ProviderFromRawValue(providerId).Some? ==>
                var p := ProviderFromRawValue(providerId).value;
                && (s == Saved <==> (old(keysTool.keyFiles.present) || directoryCreatable) && writeSucceeds)
                && keysTool.keyFiles.files ==
                     if s == Saved then old(keysTool.keyFiles.files)[KeyFileName(p) := Utf8Text(Trim(key))]
                     else old(keysTool.keyFiles.files)
      ensures s == Saved ==> keysTool.GetAPIKey(ProviderFromRawValue(providerId).value) == Some(Trim(key))
      ensures forall q :: Some(q) != ProviderFromRawValue(providerId) ==> keysTool.GetAPIKey(q) == old(keysTool.GetAPIKey(q))
    {
      var trimmed := Trim(key);
      TrimEmptyIffBlank(key);
      if trimmed == [] {
        status := Some(EmptyKey);
        return EmptyKey;
      }
      TrimIdempotent(key);
      TrimEmptyIffBlank(trimmed);
      var success := false;
      if providerId == "zhipu" {
        success := keysTool.SaveAPIKey(Zhipu, trimmed, directoryCreatable, writeSucceeds);
      } else if providerId == "openai" {
        success := SaveProviderKeyToFile(OpenAI, trimmed, directoryCreatable, writeSucceeds);
      } else if providerId == "doubao" {
        success := SaveProviderKeyToFile(Doubao, trimmed, directoryCreatable, writeSucceeds);
      } else {
        success := false;
      }
      s := if success then Saved else SaveFailed;
      status := Some(s);
    }

    /**
     * `loadSavedKeys`: the key shown on each provider's card (only where a
     * key is stored, read through the key store or the local helper), and
     * the card marked as selected, which is the configured provider's.
     */
    method LoadSavedKeys() returns (shown: map<string, string>, selected: string)
      requires keysTool.keyFiles.Valid()
      ensures forall p :: RawValue(p) in shown <==> keysTool.GetAPIKey(p).Some?
      ensures forall p :: keysTool.GetAPIKey(p).Some? ==> shown[RawValue(p)] == keysTool.GetAPIKey(p).value
      ensures shown.Keys <= {"zhipu", "openai", "doubao"}
      ensures ProviderFromRawValue(selected) == Some(settings.apiKeyProvider)
    {
      shown := map[];
      var zhipuKey := keysTool.GetAPIKey(Zhipu);
      shown := WithKey(shown, "zhipu", zhipuKey);
      var openaiKey := LoadKeyFromFile("openai_api_key");
      shown := WithKey(shown, "openai", openaiKey);
      var doubaoKey := LoadKeyFromFile("doubao_api_key");
      shown := WithKey(shown, "doubao", doubaoKey);
      LoadKeyFromFileAgrees(OpenAI);
      LoadKeyFromFileAgrees(Doubao);
      ghost var cards := CardKeys(zhipuKey, openaiKey, doubaoKey);
      assert shown == cards;
      forall p
        ensures RawValue(p) in shown <==> keysTool.GetAPIKey(p).Some?
        ensures keysTool.GetAPIKey(p).Some? ==> shown[RawValue(p)] == keysTool.GetAPIKey(p).value
      {
        match p
        case Zhipu =>
        case OpenAI =>
        case Doubao =>
      }
      selected := MapProviderToId(settings.apiKeyProvider);
    }
  }
}
