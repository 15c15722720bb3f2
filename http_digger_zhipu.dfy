/**
 * The Zhipu speech-to-text client (`HttpDiggerZhipu.shared`): GLM ASR
 * transcription uploads to https://open.bigmodel.cn/api, their pre-flight
 * checks, the form sent and how a response becomes a result or an error.
 */
module ZhipuClient {
  import opened Wrappers
  import opened Text
  import opened Upload

  const BaseURL: string := "https://open.bigmodel.cn/api"
  const TranscriptionsURL: string := BaseURL + "/paas/v4/audio/transcriptions"
  /** The environment variable consulted when no key file holds a key. */
  const KeyVariable: string := "ZHIPU_API_KEY"

  datatype TranscriptionSegment = TranscriptionSegment(
    id: Option<int>, start: Option<real>, end: Option<real>, text: Option<string>)

  datatype TranscriptionResponse = TranscriptionResponse(
    id: Option<string>, created: Option<int>, requestId: Option<string>, model: Option<string>,
    segments: Option<seq<TranscriptionSegment>>, text: Option<string>)

  /** `mimeType(for:)`: wav, mp3 and m4a are known; everything else is a byte stream. */
  function MimeType(ext: string): (m: string)
    ensures m == "audio/wav" <==> Lower(ext) == "wav"
    ensures m == "audio/mpeg" <==> Lower(ext) == "mp3"
    ensures m == "audio/mp4" <==> Lower(ext) == "m4a"
    ensures m == "application/octet-stream" <==> Lower(ext) !in {"wav", "mp3", "m4a"}
  {
    var e := Lower(ext);
    if e == "wav" then "audio/wav"
    else if e == "mp3" then "audio/mpeg"
    else if e == "m4a" then "audio/mp4"
    else "application/octet-stream"
  }

  /** Lower-casing the extension before the lookup, as `transcribe` does, changes nothing. */
  lemma MimeTypeIgnoresCase(ext: string)
    ensures MimeType(Lower(ext)) == MimeType(ext)
  {
    LowerIdempotent(ext);
  }

  /** wav and mp3 are the formats the service recommends; others draw a warning but are still sent. */
  predicate RecommendedFormat(ext: string) {
    Lower(ext) == "wav" || Lower(ext) == "mp3"
  }

  /** The `stream` field: the flag as Swift prints it, `false` when absent. */
  function StreamValue(stream: Option<bool>): (s: string)
    ensures s == "true" <==> stream == Some(true)
    ensures s == "false" <==> stream != Some(true)
  {
    match stream
    case Some(b) => if b then "true" else "false"
    case None => "false"
  }

  /** The temperature field, appended only when a temperature is given. */
  function TemperatureField(temperature: Option<real>): seq<FormPart> {
    match temperature
    case Some(t) => [Field("temperature", Number(t))]
    case None => []
  }

  /** The audio part, last in the form. */
  function AudioPart(file: AudioFile): FormPart {
    FilePart("file", file.lastPathComponent, MimeType(Lower(file.pathExtension)), file.path)
  }

  /** The form: model, temperature if given, stream always, request_id and user_id if given, then the file. */
  function TranscriptionForm(file: AudioFile, model: string, temperature: Option<real>, stream: Option<bool>,
                             requestId: Option<string>, userId: Option<string>): seq<FormPart>
  {
    [Field("model", Text(model))]
      + TemperatureField(temperature)
      + [Field("stream", Text(StreamValue(stream)))]
      + OptionalField("request_id", requestId)
      + OptionalField("user_id", userId)
      + [AudioPart(file)]
  }

  /** What each field name of the form should read back as. */
  function TranscriptionFieldRead(model: string, temperature: Option<real>, stream: Option<bool>,
                                  requestId: Option<string>, userId: Option<string>, name: string): seq<FieldValue>
  {
    if name == "model" then [Text(model)]
    else if name == "temperature" then (if temperature.Some? then [Number(temperature.value)] else [])
    else if name == "stream" then [Text(StreamValue(stream))]
    else if name == "request_id" then (if requestId.Some? then [Text(requestId.value)] else [])
    else if name == "user_id" then (if userId.Some? then [Text(userId.value)] else [])
    else []
  }

  /** What the server reads under `name`, part by part. */
  lemma TranscriptionFormSplit(file: AudioFile, model: string, temperature: Option<real>, stream: Option<bool>,
                               requestId: Option<string>, userId: Option<string>, name: string)
    ensures var a, b, c, d, e, f := [Field("model", Text(model))], TemperatureField(temperature),
                                    [Field("stream", Text(StreamValue(stream)))],
                                    OptionalField("request_id", requestId), OptionalField("user_id", userId),
                                    [AudioPart(file)];
      var form := TranscriptionForm(file, model, temperature, stream, requestId, userId);
      && FieldsNamed(form, name) == FieldsNamed(a, name) + FieldsNamed(b, name) + FieldsNamed(c, name)
                                    + FieldsNamed(d, name) + FieldsNamed(e, name) + FieldsNamed(f, name)
      && Files(form) == Files(a) + Files(b) + Files(c) + Files(d) + Files(e) + Files(f)
  {
    var a, b, c, d, e, f := [Field("model", Text(model))], TemperatureField(temperature),
                            [Field("stream", Text(StreamValue(stream)))],
                            OptionalField("request_id", requestId), OptionalField("user_id", userId),
                            [AudioPart(file)];
    FormConcat(a, b, name);
    FormConcat(a + b, c, name);
    FormConcat(a + b + c, d, name);
    FormConcat(a + b + c + d, e, name);
    FormConcat(a + b + c + d + e, f, name);
  }

  /** Reading the form under any name gives what each of its fields contributes. */
  lemma TranscriptionFieldPieces(file: AudioFile, model: string, temperature: Option<real>, stream: Option<bool>,
                                 requestId: Option<string>, userId: Option<string>, name: string)
    ensures FieldsNamed(TranscriptionForm(file, model, temperature, stream, requestId, userId), name)
            == Named("model", name, [Text(model)])
               + Named("temperature", name, if temperature.Some? then [Number(temperature.value)] else [])
               + Named("stream", name, [Text(StreamValue(stream))])
               + Named("request_id", name, if requestId.Some? then [Text(requestId.value)] else [])
               + Named("user_id", name, if userId.Some? then [Text(userId.value)] else [])
               + []
  {
    var a, b, c, d, e, f := [Field("model", Text(model))], TemperatureField(temperature),
                            [Field("stream", Text(StreamValue(stream)))],
                            OptionalField("request_id", requestId), OptionalField("user_id", userId),
                            [AudioPart(file)];
    assert FieldsNamed(a, name) == Named("model", name, [Text(model)]) by {
      FieldsOfSingle(a[0], name);
    }
    assert FieldsNamed(b, name) == Named("temperature", name, if temperature.Some? then [Number(temperature.value)] else []) by {
      if temperature.Some? {
        FieldsOfSingle(b[0], name);
      }
    }
    assert FieldsNamed(c, name) == Named("stream", name, [Text(StreamValue(stream))]) by {
      FieldsOfSingle(c[0], name);
    }
    assert FieldsNamed(d, name) == Named("request_id", name, if requestId.Some? then [Text(requestId.value)] else []) by {
      OptionalFieldRead("request_id", requestId, name);
    }
    assert FieldsNamed(e, name) == Named("user_id", name, if userId.Some? then [Text(userId.value)] else []) by {
      OptionalFieldRead("user_id", userId, name);
    }
    assert FieldsNamed(f, name) == [] by {
      FieldsOfSingle(f[0], name);
    }
    TranscriptionFormSplit(file, model, temperature, stream, requestId, userId, name);
  }

  /** Reading the form under one name gives what that name was given. */
  lemma TranscriptionFieldReadsBack(file: AudioFile, model: string, temperature: Option<real>, stream: Option<bool>,
                                    requestId: Option<string>, userId: Option<string>, name: string)
    ensures FieldsNamed(TranscriptionForm(file, model, temperature, stream, requestId, userId), name)
            == TranscriptionFieldRead(model, temperature, stream, requestId, userId, name)
  {
    TranscriptionFieldPieces(file, model, temperature, stream, requestId, userId, name);
    if name == "model" {
    } else if name == "temperature" {
    } else if name == "stream" {
    } else if name == "request_id" {
    } else if name == "user_id" {
    }
  }

  /** The form holds one file part, the audio, and it comes last. */
  lemma TranscriptionFilesReadBack(file: AudioFile, model: string, temperature: Option<real>, stream: Option<bool>,
                                   requestId: Option<string>, userId: Option<string>)
    ensures var form := TranscriptionForm(file, model, temperature, stream, requestId, userId);
      form[|form| - 1] == AudioPart(file) && Files(form) == [AudioPart(file)]
  {
    var a, b, c, d, e, f := [Field("model", Text(model))], TemperatureField(temperature),
                            [Field("stream", Text(StreamValue(stream)))],
                            OptionalField("request_id", requestId), OptionalField("user_id", userId),
                            [AudioPart(file)];
    assert Files(a) == [] by {
      FieldsOfSingle(a[0], "");
    }
    assert Files(b) == [] by {
      if temperature.Some? {
        FieldsOfSingle(b[0], "");
      }
    }
    assert Files(c) == [] by {
      FieldsOfSingle(c[0], "");
    }
    assert Files(d) == [] && Files(e) == [] by {
      OptionalFieldRead("request_id", requestId, "");
      OptionalFieldRead("user_id", userId, "");
    }
    assert Files(f) == [AudioPart(file)] by {
      FieldsOfSingle(f[0], "");
    }
    TranscriptionFormSplit(file, model, temperature, stream, requestId, userId, "");
  }

  /**
   * The form carries every argument under its own name and a server
   * reading it back recovers each one: model and stream once each (stream
   * `false` unless given as true), temperature, request_id and user_id once
   * when given and not at all otherwise, and the audio as the only file
   * part, placed last.
   */
  lemma TranscriptionFormReadBack(file: AudioFile, model: string, temperature: Option<real>, stream: Option<bool>,
                                  requestId: Option<string>, userId: Option<string>)
    ensures var form := TranscriptionForm(file, model, temperature, stream, requestId, userId);
      && form[|form| - 1] == AudioPart(file) && Files(form) == [AudioPart(file)]
      && FieldsNamed(form, "model") == [Text(model)]
      && FieldsNamed(form, "temperature") == (if temperature.Some? then [Number(temperature.value)] else [])
      && FieldsNamed(form, "stream") == [Text(if stream == Some(true) then "true" else "false")]
      && FieldsNamed(form, "request_id") == (if requestId.Some? then [Text(requestId.value)] else [])
      && FieldsNamed(form, "user_id") == (if userId.Some? then [Text(userId.value)] else [])
  {
    TranscriptionFilesReadBack(file, model, temperature, stream, requestId, userId);
    TranscriptionFieldReadsBack(file, model, temperature, stream, requestId, userId, "model");
    TranscriptionFieldReadsBack(file, model, temperature, stream, requestId, userId, "temperature");
    TranscriptionFieldReadsBack(file, model, temperature, stream, requestId, userId, "stream");
    TranscriptionFieldReadsBack(file, model, temperature, stream, requestId, userId, "request_id");
    TranscriptionFieldReadsBack(file, model, temperature, stream, requestId, userId, "user_id");
  }

  /** The `AF.upload(multipartFormData:)` closure, appending part after part. */
  method BuildTranscriptionForm(file: AudioFile, model: string, temperature: Option<real>, stream: Option<bool>,
                                requestId: Option<string>, userId: Option<string>)
    returns (form: seq<FormPart>)
    ensures form == TranscriptionForm(file, model, temperature, stream, requestId, userId)
  {
    form := [Field("model", Text(model))];
    if temperature.Some? {
      form := form + [Field("temperature", Number(temperature.value))];
    }
    var streamValue := if stream.Some? then (if stream.value then "true" else "false") else "false";
    form := form + [Field("stream", Text(streamValue))];
    assert form == [Field("model", Text(model))] + TemperatureField(temperature)
                   + [Field("stream", Text(StreamValue(stream)))];
    if requestId.Some? {
      form := form + [Field("request_id", Text(requestId.value))];
    }
    assert form == [Field("model", Text(model))] + TemperatureField(temperature)
                   + [Field("stream", Text(StreamValue(stream)))] + OptionalField("request_id", requestId);
    if userId.Some? {
      form := form + [Field("user_id", Text(userId.value))];
    }
    assert form == [Field("model", Text(model))] + TemperatureField(temperature)
                   + [Field("stream", Text(StreamValue(stream)))] + OptionalField("request_id", requestId)
                   + OptionalField("user_id", userId);
    form := form + [AudioPart(file)];
  }

  /**
   * The `responseData` handler: a status outside 2xx fails with it; no data
   * is an invalid response; otherwise the JSON decoding result decides, a
   * decoding error being a request failure. Unlike the OpenAI client there
   * is no plain-text format.
   */
  function ClassifyResponse(response: HttpResponse, decoded: Option<TranscriptionResponse>)
    : (r: Result<TranscriptionResponse, ClientError>)
    ensures StatusFailure(response, "Zhipu").Some? ==> r == Failure(StatusFailure(response, "Zhipu").value)
    ensures r.Success? <==> StatusFailure(response, "Zhipu").None? && response.data.Some? && decoded.Some?
    ensures r == Failure(InvalidResponse) <==> StatusFailure(response, "Zhipu").None? && response.data.None?
    ensures r == Failure(RequestFailed(DecodingFailed)) <==>
              StatusFailure(response, "Zhipu").None? && response.data.Some? && decoded.None?
    ensures r.Success? ==> r.value == decoded.value
  {
    match StatusFailure(response, "Zhipu")
    case Some(e) => Failure(e)
    case None =>
      if response.data.None? then Failure(InvalidResponse)
      else
        match decoded
        case Some(v) => Success(v)
        case None => Failure(RequestFailed(DecodingFailed))
  }

  /**
   * `transcribe`: the key, file and size guards in that order, each ending
   * the call with its error and no request; otherwise a warning when the
   * extension is not wav or mp3 (the upload goes ahead regardless), one
   * POST with the bearer key and the form, and the response classified.
   * `storedKey` is what the key file holds for Zhipu.
   */
  method Transcribe(storedKey: Option<string>, env: map<string, string>, file: AudioFile,
                    response: HttpResponse, decoded: Option<TranscriptionResponse>,
                    model: string := "glm-asr", temperature: Option<real> := None, stream: Option<bool> := None,
                    requestId: Option<string> := None, userId: Option<string> := None)
    returns (formatWarning: bool, request: Option<Request>, result: Result<TranscriptionResponse, ClientError>)
    ensures var key := ResolvedAPIKey(storedKey, env, KeyVariable);
      && (Preflight(key, file).Some? ==>
            !formatWarning && request.None? && result == Failure(Preflight(key, file).value))
      && (Preflight(key, file).None? ==>
            && formatWarning == !RecommendedFormat(file.pathExtension)
            && request == Some(Request(TranscriptionsURL, Bearer(key.value),
                                       TranscriptionForm(file, model, temperature, stream, requestId, userId)))
            && result == ClassifyResponse(response, decoded))
  {
    var apiKey := ResolvedAPIKey(storedKey, env, KeyVariable);
    var refused := Preflight(apiKey, file);
    if refused.Some? {
      return false, None, Failure(refused.value);
    }
    var lowerExt := Lower(file.pathExtension);
    formatWarning := lowerExt != "wav" && lowerExt != "mp3";
    var form := BuildTranscriptionForm(file, model, temperature, stream, requestId, userId);
    request := Some(Request(TranscriptionsURL, Bearer(apiKey.value), form));
    result := ClassifyResponse(response, decoded);
  }
}
