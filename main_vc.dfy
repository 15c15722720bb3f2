/**
 * The main window's controller: a tap on the circle toggles recording, and
 * each completed recording is sent to the speech-to-text service the
 * settings name, the recognised text going to the clipboard.
 *
 * The completion closure is `HandleRecordingCompleted`, called with the
 * completed file; the clipboard write is the `copied` result.
 */
module MainScreen {
  import opened Wrappers
  import opened Text
  import opened Upload
  import opened Recordings
  import opened Settings
  import opened KeyStore
  import opened AudioRecording
  import OpenAIClient
  import ZhipuClient

  /**
   * The text a successful transcription puts on the clipboard: the reply's
   * text trimmed, with a missing text counting as empty, and nothing when
   * the trimmed text is empty.
   */
  function ClipboardText(text: Option<string>): (r: Option<string>)
    ensures r.Some? <==> text.Some? && !IsBlank(text.value)
    ensures r.Some? ==> r.value == Trim(text.value) && r.value != [] && Trim(r.value) == r.value
  {
    TrimEmptyIffBlank(text.GetOr(""));
    TrimIdempotent(text.GetOr(""));
    var trimmed := Trim(text.GetOr(""));
    if trimmed == [] then None else Some(trimmed)
  }

  /**
   * What one OpenAI transcription does with the resolved key: a failed
   * preflight sends and copies nothing; otherwise the whisper-1 JSON form
   * goes out with the key as bearer token, and a successful reply's
   * non-blank text is copied.
   */
  predicate OpenAIOutcome(key: Option<string>, file: AudioFile, response: HttpResponse,
                          decoded: Option<OpenAIClient.TranscriptionResponse>,
                          request: Option<Request>, copied: Option<string>)
  {
    && (Preflight(key, file).Some? ==> request.None? && copied.None?)
    && (Preflight(key, file).None? ==>
          && request == Some(Request(OpenAIClient.TranscriptionsURL, Bearer(key.value),
                                     OpenAIClient.TranscriptionForm(file, "whisper-1", None, None, "json", 0.0, None)))
          && var result := OpenAIClient.ClassifyResponse(response, decoded, "json");
             copied == if result.Success? then ClipboardText(result.value.text) else None)
  }

  /**
   * What one Zhipu transcription does with the resolved key: a failed
   * preflight sends and copies nothing; otherwise the glm-asr form goes out
   * with the key as bearer token, and a successful reply's non-blank text
   * is copied.
   */
  predicate ZhipuOutcome(key: Option<string>, file: AudioFile, response: HttpResponse,
                         decoded: Option<ZhipuClient.TranscriptionResponse>,
                         request: Option<Request>, copied: Option<string>)
  {
    && (Preflight(key, file).Some? ==> request.None? && copied.None?)
    && (Preflight(key, file).None? ==>
          && request == Some(Request(ZhipuClient.TranscriptionsURL, Bearer(key.value),
                                     ZhipuClient.TranscriptionForm(file, "glm-asr", None, None, None, None)))
          && var result := ZhipuClient.ClassifyResponse(response, decoded);
             copied == if result.Success? then ClipboardText(result.value.text) else None)
  }

  class MainVC {
    const recorder: AudioRecordTool
    const keysTool: LocalKeysTool

    constructor (recorder: AudioRecordTool, keysTool: LocalKeysTool)
      ensures this.recorder == recorder && this.keysTool == keysTool
    {
      this.recorder := recorder;
      this.keysTool := keysTool;
    }

    /** `circleView.onTap`: toggle the recorder. */
    method OnTap(authorized: bool, url: Path, now: real, recorderOpens: bool)
      requires recorder.Valid()
      modifies recorder, recorder.dir
      ensures recorder.Valid()
      ensures recorder.Observed() == Toggled(old(recorder.Observed()), recorder.settings.Current(),
                                             old(recorder.dir.listable), authorized, url, now, recorderOpens)
    {
      recorder.ToggleRecording(authorized, url, now, recorderOpens);
    }

    /**
     * `transcribeAudioWithOpenAI`: the OpenAI client with every argument at
     * its default (whisper-1, JSON); a success copies its non-blank text,
     * a failure copies nothing.
     */
    method TranscribeAudioWithOpenAI(env: map<string, string>, file: AudioFile, response: HttpResponse,
                                     decoded: Option<OpenAIClient.TranscriptionResponse>)
      returns (request: Option<Request>, copied: Option<string>)
      requires keysTool.keyFiles.Valid()
      ensures OpenAIOutcome(ResolvedAPIKey(keysTool.GetAPIKey(OpenAI), env, OpenAIClient.KeyVariable),
                            file, response, decoded, request, copied)
    {
      var result;
      request, result := OpenAIClient.Transcribe(keysTool.GetAPIKey(OpenAI), env, file, response, decoded);
      copied := if result.Success? then ClipboardText(result.value.text) else None;
    }

    /**
     * `transcribeAudioWithZhipu`: the Zhipu client with every argument at
     * its default (glm-asr, stream false); a success copies its non-blank
     * text, a failure copies nothing.
     */
    method TranscribeAudioWithZhipu(env: map<string, string>, file: AudioFile, response: HttpResponse,
                                    decoded: Option<ZhipuClient.TranscriptionResponse>)
      returns (request: Option<Request>, copied: Option<string>)
      requires keysTool.keyFiles.Valid()
      ensures ZhipuOutcome(ResolvedAPIKey(keysTool.GetAPIKey(Zhipu), env, ZhipuClient.KeyVariable),
                           file, response, decoded, request, copied)
    {
      var formatWarning, result;
      formatWarning, request, result := ZhipuClient.Transcribe(keysTool.GetAPIKey(Zhipu), env, file, response, decoded);
      copied := if result.Success? then ClipboardText(result.value.text) else None;
    }

    /**
     * The `onRecordingCompleted` closure: the configured provider picks the
     * client; Doubao has none, so nothing is sent and nothing copied.
     * Whatever is copied is non-blank and already trimmed.
     */
    method HandleRecordingCompleted(env: map<string, string>, file: AudioFile, response: HttpResponse,
                                    openAIDecoded: Option<OpenAIClient.TranscriptionResponse>,
                                    zhipuDecoded: Option<ZhipuClient.TranscriptionResponse>)
      returns (request: Option<Request>, copied: Option<string>)
      requires keysTool.keyFiles.Valid()
      ensures var p := recorder.settings.apiKeyProvider;
        && (p == Doubao ==> request.None? && copied.None?)
        && (p == Zhipu ==>
              ZhipuOutcome(ResolvedAPIKey(keysTool.GetAPIKey(Zhipu), env, ZhipuClient.KeyVariable),
                           file, response, zhipuDecoded, request, copied))
        && (p == OpenAI ==>
              OpenAIOutcome(ResolvedAPIKey(keysTool.GetAPIKey(OpenAI), env, OpenAIClient.KeyVariable),
                            file, response, openAIDecoded, request, copied))
      ensures copied.Some? ==> request.Some? && copied.value != [] && Trim(copied.value) == copied.value
    {
      match recorder.settings.apiKeyProvider
      case Zhipu =>
        request, copied := TranscribeAudioWithZhipu(env, file, response, zhipuDecoded);
      case OpenAI =>
        request, copied := TranscribeAudioWithOpenAI(env, file, response, openAIDecoded);
      case Doubao =>
        request, copied := None, None;
    }
  }
}
