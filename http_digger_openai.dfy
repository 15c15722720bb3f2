/**
 * The OpenAI speech-to-text client (`HttpDiggerOpenAI.shared`):
 * transcription and translation uploads to https://api.openai.com/v1,
 * their pre-flight checks, the form each sends and how a response becomes
 * a result or an error.
 */
module OpenAIClient {
  import opened Wrappers
  import opened Text
  import opened Upload

  const BaseURL: string := "https://api.openai.com/v1"
  const TranscriptionsURL: string := BaseURL + "/audio/transcriptions"
  const TranslationsURL: string := BaseURL + "/audio/translations"
  /** The environment variable consulted when no key file holds a key. */
  const KeyVariable: string := "OPENAI_API_KEY"
  const GranularityField: string := "timestamp_granularities[]"

  datatype TranscriptionSegment = TranscriptionSegment(
    id: Option<int>, seek: Option<int>, start: Option<real>, end: Option<real>, text: Option<string>,
    tokens: Option<seq<int>>, temperature: Option<real>, avgLogprob: Option<real>,
    compressionRatio: Option<real>, noSpeechProb: Option<real>)

  datatype TranscriptionWord = TranscriptionWord(word: Option<string>, start: Option<real>, end: Option<real>)

  /** The decoded reply; the fields beyond `text` come with `verbose_json`. */
  datatype TranscriptionResponse = TranscriptionResponse(
    text: Option<string>, task: Option<string>, language: Option<string>, duration: Option<real>,
    segments: Option<seq<TranscriptionSegment>>, words: Option<seq<TranscriptionWord>>)

  /** The reply built from a plain-text body: the text and nothing else. */
  function TextOnly(text: string): TranscriptionResponse {
    TranscriptionResponse(Some(text), None, None, None, None, None)
  }

  /**
   * `mimeType(for:)`, matched on the lower-cased extension: mp3, mpeg and
   * mpga are audio/mpeg; mp4 and m4a audio/mp4; wav audio/wav; webm
   * audio/webm; anything else application/octet-stream.
   */
  function MimeType(ext: string): (m: string)
    ensures m == "audio/mpeg" <==> Lower(ext) in {"mp3", "mpeg", "mpga"}
    ensures m == "audio/mp4" <==> Lower(ext) in {"mp4", "m4a"}
    ensures m == "audio/wav" <==> Lower(ext) == "wav"
    ensures m == "audio/webm" <==> Lower(ext) == "webm"
    ensures m == "application/octet-stream" <==> Lower(ext) !in {"mp3", "mpeg", "mpga", "mp4", "m4a", "wav", "webm"}
  {
    var e := Lower(ext);
    if e == "mp3" then "audio/mpeg"
    else if e == "mp4" || e == "m4a" then "audio/mp4"
    else if e == "mpeg" || e == "mpga" then "audio/mpeg"
    else if e == "wav" then "audio/wav"
    else if e == "webm" then "audio/webm"
    else "application/octet-stream"
  }

  /** The lookup ignores case: an extension and its lower-cased form get the same type. */
  lemma MimeTypeIgnoresCase(ext: string)
    ensures MimeType(ext) == MimeType(Lower(ext))
  {
    LowerIdempotent(ext);
  }

  /** The file part both uploads start with. */
  function AudioPart(file: AudioFile): FormPart {
    FilePart("file", file.lastPathComponent, MimeType(file.pathExtension), file.path)
  }

  /** One `timestamp_granularities[]` field per granularity, in order. */
  function GranularityFields(granularities: seq<string>): (r: seq<FormPart>)
    ensures |r| == |granularities|
    ensures forall i :: 0 <= i < |r| ==> r[i] == Field(GranularityField, Text(granularities[i]))
  {
    if granularities == [] then []
    else GranularityFields(granularities[..|granularities| - 1])
         + [Field(GranularityField, Text(granularities[|granularities| - 1]))]
  }

  /** The granularities read back from their fields. */
  function Texts(values: seq<string>): (r: seq<FieldValue>)
    ensures |r| == |values| && forall i :: 0 <= i < |r| ==> r[i] == Text(values[i])
  {
    if values == [] then [] else Texts(values[..|values| - 1]) + [Text(values[|values| - 1])]
  }

  /** The server reads the granularity fields back as the list they came from. */
  lemma {:induction false} GranularityFieldsRead(granularities: seq<string>, name: string)
    ensures FieldsNamed(GranularityFields(granularities), name)
            == if name == GranularityField then Texts(granularities) else []
    ensures Files(GranularityFields(granularities)) == []
  {
    if granularities != [] {
      var init := granularities[..|granularities| - 1];
      var last := Field(GranularityField, Text(granularities[|granularities| - 1]));
      GranularityFieldsRead(init, name);
      FieldsConcat(GranularityFields(init), [last], name);
      FilesConcat(GranularityFields(init), [last]);
      FieldsOfSingle(last, name);
    }
  }

  /**
   * The transcription form: file, model, language if given, prompt if
   * given, response_format, temperature, then one field per timestamp
   * granularity.
   */
  function TranscriptionForm(file: AudioFile, model: string, language: Option<string>, prompt: Option<string>,
                             responseFormat: string, temperature: real, granularities: Option<seq<string>>)
    : seq<FormPart>
  {
    [AudioPart(file), Field("model", Text(model))]
      + OptionalField("language", language)
      + OptionalField("prompt", prompt)
      + [Field("response_format", Text(responseFormat)), Field("temperature", Number(temperature))]
      + GranularityFields(granularities.GetOr([]))
  }

  /** The translation form: file, model, prompt if given, response_format, temperature. */
  function TranslationForm(file: AudioFile, model: string, prompt: Option<string>, responseFormat: string,
                           temperature: real): seq<FormPart>
  {
    [AudioPart(file), Field("model", Text(model))]
      + OptionalField("prompt", prompt)
      + [Field("response_format", Text(responseFormat)), Field("temperature", Number(temperature))]
  }

  /** What the server reads under `name` from the transcription form, part by part. */
  lemma TranscriptionFormSplit(file: AudioFile, model: string, language: Option<string>, prompt: Option<string>,
                               responseFormat: string, temperature: real, granularities: Option<seq<string>>,
                               name: string)
    ensures var a, b, c, d, e := [AudioPart(file), Field("model", Text(model))],
                                 OptionalField("language", language), OptionalField("prompt", prompt),
                                 [Field("response_format", Text(responseFormat)), Field("temperature", Number(temperature))],
                                 GranularityFields(granularities.GetOr([]));
      var form := TranscriptionForm(file, model, language, prompt, responseFormat, temperature, granularities);
      && FieldsNamed(form, name)
         == FieldsNamed(a, name) + FieldsNamed(b, name) + FieldsNamed(c, name) + FieldsNamed(d, name) + FieldsNamed(e, name)
      && Files(form) == Files(a) + Files(b) + Files(c) + Files(d) + Files(e)
  {
    var a, b, c, d, e := [AudioPart(file), Field("model", Text(model))],
                         OptionalField("language", language), OptionalField("prompt", prompt),
                         [Field("response_format", Text(responseFormat)), Field("temperature", Number(temperature))],
                         GranularityFields(granularities.GetOr([]));
    FormConcat(a, b, name);
    FormConcat(a + b, c, name);
    FormConcat(a + b + c, d, name);
    FormConcat(a + b + c + d, e, name);
  }

  /** What each field name of the transcription form should read back as. */
  function TranscriptionFieldRead(model: string, language: Option<string>, prompt: Option<string>,
                                  responseFormat: string, temperature: real, granularities: Option<seq<string>>,
                                  name: string): seq<FieldValue>
  {
    if name == "model" then [Text(model)]
    else if name == "language" then (if language.Some? then [Text(language.value)] else [])
    else if name == "prompt" then (if prompt.Some? then [Text(prompt.value)] else [])
    else if name == "response_format" then [Text(responseFormat)]
    else if name == "temperature" then [Number(temperature)]
    else if name == GranularityField then Texts(granularities.GetOr([]))
    else []
  }

  /** Reading the transcription form under any name gives what each of its fields contributes. */
  lemma TranscriptionFieldPieces(file: AudioFile, model: string, language: Option<string>, prompt: Option<string>,
                                 responseFormat: string, temperature: real, granularities: Option<seq<string>>,
                                 name: string)
    ensures FieldsNamed(TranscriptionForm(file, model, language, prompt, responseFormat, temperature, granularities), name)
            == Named("model", name, [Text(model)])
               + Named("language", name, if language.Some? then [Text(language.value)] else [])
               + Named("prompt", name, if prompt.Some? then [Text(prompt.value)] else [])
               + (Named("response_format", name, [Text(responseFormat)]) + Named("temperature", name, [Number(temperature)]))
               + Named(GranularityField, name, Texts(granularities.GetOr([])))
  {
    var a, b, c, d, e := [AudioPart(file), Field("model", Text(model))],
                         OptionalField("language", language), OptionalField("prompt", prompt),
                         [Field("response_format", Text(responseFormat)), Field("temperature", Number(temperature))],
                         GranularityFields(granularities.GetOr([]));
    assert FieldsNamed(a, name) == Named("model", name, [Text(model)]) by {
      FieldsOfPair(a[0], a[1], name);
    }
    assert FieldsNamed(b, name) == Named("language", name, if language.Some? then [Text(language.value)] else []) by {
      OptionalFieldRead("language", language, name);
    }
    assert FieldsNamed(c, name) == Named("prompt", name, if prompt.Some? then [Text(prompt.value)] else []) by {
      OptionalFieldRead("prompt", prompt, name);
    }
    assert FieldsNamed(d, name) == Named("response_format", name, [Text(responseFormat)])
                                   + Named("temperature", name, [Number(temperature)]) by {
      FieldsOfPair(d[0], d[1], name);
    }
    assert FieldsNamed(e, name) == Named(GranularityField, name, Texts(granularities.GetOr([]))) by {
      GranularityFieldsRead(granularities.GetOr([]), name);
    }
    TranscriptionFormSplit(file, model, language, prompt, responseFormat, temperature, granularities, name);
  }

  /** Reading the transcription form under one name gives what that name was given. */
  lemma TranscriptionFieldReadsBack(file: AudioFile, model: string, language: Option<string>, prompt: Option<string>,
                                    responseFormat: string, temperature: real, granularities: Option<seq<string>>,
                                    name: string)
    ensures FieldsNamed(TranscriptionForm(file, model, language, prompt, responseFormat, temperature, granularities), name)
            == TranscriptionFieldRead(model, language, prompt, responseFormat, temperature, granularities, name)
  {
    TranscriptionFieldPieces(file, model, language, prompt, responseFormat, temperature, granularities, name);
    if name == "model" {
    } else if name == "language" {
    } else if name == "prompt" {
    } else if name == "response_format" {
    } else if name == "temperature" {
    } else if name == GranularityField {
    }
  }

  /** The transcription form holds one file part, the audio, and it comes first. */
  lemma TranscriptionFilesReadBack(file: AudioFile, model: string, language: Option<string>, prompt: Option<string>,
                                   responseFormat: string, temperature: real, granularities: Option<seq<string>>)
    ensures var form := TranscriptionForm(file, model, language, prompt, responseFormat, temperature, granularities);
      form[0] == AudioPart(file) && Files(form) == [AudioPart(file)]
  {
    TranscriptionFormSplit(file, model, language, prompt, responseFormat, temperature, granularities, "");
    FieldsOfPair(AudioPart(file), Field("model", Text(model)), "");
    FieldsOfPair(Field("response_format", Text(responseFormat)), Field("temperature", Number(temperature)), "");
    OptionalFieldRead("language", language, "");
    OptionalFieldRead("prompt", prompt, "");
    GranularityFieldsRead(granularities.GetOr([]), "");
  }

  /**
   * The transcription form carries every argument under its own name, and
   * a server reading it back recovers each one: the single file part comes
   * first, model, response_format and temperature once each, language and
   * prompt once when given and not at all otherwise, and the granularities
   * in their order.
   */
  lemma TranscriptionFormReadBack(file: AudioFile, model: string, language: Option<string>, prompt: Option<string>,
                                  responseFormat: string, temperature: real, granularities: Option<seq<string>>)
    ensures var form := TranscriptionForm(file, model, language, prompt, responseFormat, temperature, granularities);
      && form[0] == AudioPart(file) && Files(form) == [AudioPart(file)]
      && FieldsNamed(form, "model") == [Text(model)]
      && FieldsNamed(form, "language") == (if language.Some? then [Text(language.value)] else [])
      && FieldsNamed(form, "prompt") == (if prompt.Some? then [Text(prompt.value)] else [])
      && FieldsNamed(form, "response_format") == [Text(responseFormat)]
      && FieldsNamed(form, "temperature") == [Number(temperature)]
      && FieldsNamed(form, GranularityField) == Texts(granularities.GetOr([]))
  {
    TranscriptionFilesReadBack(file, model, language, prompt, responseFormat, temperature, granularities);
    TranscriptionFieldReadsBack(file, model, language, prompt, responseFormat, temperature, granularities, "model");
    TranscriptionFieldReadsBack(file, model, language, prompt, responseFormat, temperature, granularities, "language");
    TranscriptionFieldReadsBack(file, model, language, prompt, responseFormat, temperature, granularities, "prompt");
    TranscriptionFieldReadsBack(file, model, language, prompt, responseFormat, temperature, granularities, "response_format");
    TranscriptionFieldReadsBack(file, model, language, prompt, responseFormat, temperature, granularities, "temperature");
    TranscriptionFieldReadsBack(file, model, language, prompt, responseFormat, temperature, granularities, GranularityField);
  }

  /** The granularity loop of `transcribe`: one field per granularity, appended in order. */
  method AppendGranularities(form: seq<FormPart>, granularities: seq<string>) returns (r: seq<FormPart>)
    ensures r == form + GranularityFields(granularities)
  {
    r := form;
    for i := 0 to |granularities|
      invariant r == form + GranularityFields(granularities[..i])
    {
      assert granularities[..i + 1][..i] == granularities[..i];
      r := r + [Field(GranularityField, Text(granularities[i]))];
    }
    assert granularities[..|granularities|] == granularities;
  }

  /** The `AF.upload(multipartFormData:)` closure of `transcribe`, appending part after part. */
  method BuildTranscriptionForm(file: AudioFile, model: string, language: Option<string>, prompt: Option<string>,
                                responseFormat: string, temperature: real, granularities: Option<seq<string>>)
    returns (form: seq<FormPart>)
    ensures form == TranscriptionForm(file, model, language, prompt, responseFormat, temperature, granularities)
  {
    form := [AudioPart(file)];
    form := form + [Field("model", Text(model))];
    if language.Some? {
      form := form + [Field("language", Text(language.value))];
    }
    assert form == [AudioPart(file), Field("model", Text(model))] + OptionalField("language", language);
    if prompt.Some? {
      form := form + [Field("prompt", Text(prompt.value))];
    }
    assert form == [AudioPart(file), Field("model", Text(model))] + OptionalField("language", language)
                   + OptionalField("prompt", prompt);
    form := form + [Field("response_format", Text(responseFormat)), Field("temperature", Number(temperature))];
    assert form == [AudioPart(file), Field("model", Text(model))] + OptionalField("language", language)
                   + OptionalField("prompt", prompt)
                   + [Field("response_format", Text(responseFormat)), Field("temperature", Number(temperature))];
    if granularities.Some? && granularities.value != [] {
      form := AppendGranularities(form, granularities.value);
    } else {
      assert GranularityFields(granularities.GetOr([])) == [];
    }
  }

  /** The translation closure, appending part after part. */
  method BuildTranslationForm(file: AudioFile, model: string, prompt: Option<string>, responseFormat: string,
                              temperature: real)
    returns (form: seq<FormPart>)
    ensures form == TranslationForm(file, model, prompt, responseFormat, temperature)
    ensures form[0] == AudioPart(file) && FieldsNamed(form, "model") == [Text(model)]
    ensures FieldsNamed(form, "prompt") == if prompt.Some? then [Text(prompt.value)] else []
  {
    form := [AudioPart(file)];
    form := form + [Field("model", Text(model))];
    if prompt.Some? {
      form := form + [Field("prompt", Text(prompt.value))];
    }
    form := form + [Field("response_format", Text(responseFormat))];
    form := form + [Field("temperature", Number(temperature))];
    var a, b, c := [AudioPart(file), Field("model", Text(model))], OptionalField("prompt", prompt),
                   [Field("response_format", Text(responseFormat)), Field("temperature", Number(temperature))];
    assert form == a + b + c;
    FormConcat(a, b, "model");
    FormConcat(a + b, c, "model");
    FormConcat(a, b, "prompt");
    FormConcat(a + b, c, "prompt");
    OptionalFieldRead("prompt", prompt, "model");
    FieldsOfPair(a[0], a[1], "model");
    FieldsOfPair(c[0], c[1], "model");
    FieldsOfPair(a[0], a[1], "prompt");
    FieldsOfPair(c[0], c[1], "prompt");
  }

  /**
   * The `responseData` handler: a status outside 2xx fails with it; no data
   * is an invalid response; with `responseFormat == "text"` a UTF-8 body is
   * the whole result and any other body is invalid; otherwise the JSON
   * decoding result decides, a decoding error being a request failure.
   */
  function ClassifyResponse(response: HttpResponse, decoded: Option<TranscriptionResponse>, responseFormat: string)
    : (r: Result<TranscriptionResponse, ClientError>)
    ensures StatusFailure(response, "OpenAI").Some? ==> r == Failure(StatusFailure(response, "OpenAI").value)
    ensures r.Success? <==> StatusFailure(response, "OpenAI").None? && response.data.Some?
                            && (if responseFormat == "text" then response.data.value.Utf8? else decoded.Some?)
    ensures r == Failure(InvalidResponse) <==>
              StatusFailure(response, "OpenAI").None?
              && (response.data.None? || (responseFormat == "text" && response.data.value.NotUtf8?))
    ensures r == Failure(RequestFailed(DecodingFailed)) <==>
              StatusFailure(response, "OpenAI").None? && response.data.Some? && responseFormat != "text" && decoded.None?
    ensures r.Success? && responseFormat == "text" ==> r.value == TextOnly(response.data.value.text)
    ensures r.Success? && responseFormat != "text" ==> r.value == decoded.value
  {
    match StatusFailure(response, "OpenAI")
    case Some(e) => Failure(e)
    case None =>
      match response.data
      case None => Failure(InvalidResponse)
      case Some(body) =>
        if responseFormat == "text" then
          (match body
           case Utf8(text) => Success(TextOnly(text))
           case NotUtf8 => Failure(InvalidResponse))
        else
          (match decoded
           case Some(v) => Success(v)
           case None => Failure(RequestFailed(DecodingFailed)))
  }

  /**
   * `transcribe`: the key, file and size guards in that order, each ending
   * the call with its error and no request; otherwise one POST to
   * /audio/transcriptions with the bearer key and the form, whose response
   * is classified. `storedKey` is what the key file holds for OpenAI.
   */
  method Transcribe(storedKey: Option<string>, env: map<string, string>, file: AudioFile,
                    response: HttpResponse, decoded: Option<TranscriptionResponse>,
                    model: string := "whisper-1", language: Option<string> := None, prompt: Option<string> := None,
                    responseFormat: string := "json", temperature: real := 0.0,
                    timestampGranularities: Option<seq<string>> := None)
    returns (request: Option<Request>, result: Result<TranscriptionResponse, ClientError>)
    ensures var key := ResolvedAPIKey(storedKey, env, KeyVariable);
      && (Preflight(key, file).Some? ==> request.None? && result == Failure(Preflight(key, file).value))
      && (Preflight(key, file).None? ==>
            && request == Some(Request(TranscriptionsURL, Bearer(key.value),
                                       TranscriptionForm(file, model, language, prompt, responseFormat,
                                                         temperature, timestampGranularities)))
            && result == ClassifyResponse(response, decoded, responseFormat))
  {
    var apiKey := ResolvedAPIKey(storedKey, env, KeyVariable);
    var refused := Preflight(apiKey, file);
    if refused.Some? {
      return None, Failure(refused.value);
    }
    var form := BuildTranscriptionForm(file, model, language, prompt, responseFormat, temperature,
                                       timestampGranularities);
    request := Some(Request(TranscriptionsURL, Bearer(apiKey.value), form));
    result := ClassifyResponse(response, decoded, responseFormat);
  }

  /** `translate`: the same guards and classification, POSTed to /audio/translations. */
  method Translate(storedKey: Option<string>, env: map<string, string>, file: AudioFile,
                   response: HttpResponse, decoded: Option<TranscriptionResponse>,
                   model: string := "whisper-1", prompt: Option<string> := None,
                   responseFormat: string := "json", temperature: real := 0.0)
    returns (request: Option<Request>, result: Result<TranscriptionResponse, ClientError>)
    ensures var key := ResolvedAPIKey(storedKey, env, KeyVariable);
      && (Preflight(key, file).Some? ==> request.None? && result == Failure(Preflight(key, file).value))
      && (Preflight(key, file).None? ==>
            && request == Some(Request(TranslationsURL, Bearer(key.value),
                                       TranslationForm(file, model, prompt, responseFormat, temperature)))
            && result == ClassifyResponse(response, decoded, responseFormat))
  {
    var apiKey := ResolvedAPIKey(storedKey, env, KeyVariable);
    var refused := Preflight(apiKey, file);
    if refused.Some? {
      return None, Failure(refused.value);
    }
    var form := BuildTranslationForm(file, model, prompt, responseFormat, temperature);
    request := Some(Request(TranslationsURL, Bearer(apiKey.value), form));
    result := ClassifyResponse(response, decoded, responseFormat);
  }
}
