/**
 * What the two speech-to-text clients share: the audio file as the file
 * system describes it, key resolution, the ordered pre-flight checks, the
 * bearer header (section 2.1 of RFC 6750), the multipart/form-data parts
 * (RFC 7578) as an ordered list, and the status check on a response.
 *
 * A response is an input: the optional HTTP status, the optional body, and
 * separately the outcome of JSON-decoding that body.
 */
module Upload {
  import opened Wrappers

  /** Both providers reject files over 25 MiB. */
  const MaxUploadBytes: int := 25 * 1024 * 1024

  /**
   * The local audio file: its path, last path component and extension,
   * whether `fileExists(atPath:)` holds, and its size when the attributes
   * can be read.
   */
  datatype AudioFile = AudioFile(path: string, lastPathComponent: string, pathExtension: string,
                                 present: bool, size: Option<int>)

  /** A text field's content: a string, or a `Double` rendered with `"\(value)"`. */
  datatype FieldValue = Text(text: string) | Number(value: real)

  /** One part of the multipart body, in the order appended. */
  datatype FormPart =
    | Field(name: string, value: FieldValue)
    | FilePart(name: string, fileName: string, mimeType: string, path: string)

  /** The upload: POST to `url` with an `Authorization` header and the form. */
  datatype Request = Request(url: string, authorization: string, form: seq<FormPart>)

  /** A body as `String(data:encoding: .utf8)` sees it. */
  datatype Body = Utf8(text: string) | NotUtf8

  /** What Alamofire hands to `responseData`: the HTTP status and the data, each optional. */
  datatype HttpResponse = HttpResponse(status: Option<int>, data: Option<Body>)

  /** The error wrapped by `requestFailed`: an HTTP status error or a JSON decoding error. */
  datatype Underlying = HttpStatus(domain: string, code: int, body: string) | DecodingFailed

  /** `OpenAIError` and `ZhipuError`, which have the same five cases. */
  datatype ClientError =
    | MissingAPIKey
    | FileNotFound
    | FileTooLarge
    | RequestFailed(underlying: Underlying)
    | InvalidResponse

  /**
   * `resolvedAPIKey`: the key stored in the key file when it is non-empty,
   * else the environment variable when it is set and non-empty, else none.
   */
  function ResolvedAPIKey(stored: Option<string>, env: map<string, string>, variable: string): (r: Option<string>)
    ensures stored.Some? && stored.value != [] ==> r == stored
    ensures !(stored.Some? && stored.value != []) ==>
              (r.Some? <==> variable in env && env[variable] != []) && (r.Some? ==> r.value == env[variable])
    ensures r.Some? ==> r.value != []
  {
    if stored.Some? && stored.value != [] then stored
    else if variable in env && env[variable] != [] then Some(env[variable])
    else None
  }

  /**
   * The guards that run before any request: the key first, then the file's
   * existence, then its size; a size that cannot be read is not checked,
   * and exactly 25 MiB passes.
   */
  function Preflight(key: Option<string>, file: AudioFile): (r: Option<ClientError>)
    ensures r == Some(MissingAPIKey) <==> key.None?
    ensures r == Some(FileNotFound) <==> key.Some? && !file.present
    ensures r == Some(FileTooLarge) <==> key.Some? && file.present && file.size.Some? && file.size.value > MaxUploadBytes
    ensures r.None? <==> key.Some? && file.present && (file.size.None? || file.size.value <= MaxUploadBytes)
  {
    if key.None? then Some(MissingAPIKey)
    else if !file.present then Some(FileNotFound)
    else if file.size.Some? && file.size.value > MaxUploadBytes then Some(FileTooLarge)
    else None
  }

  /** `"Bearer \(apiKey)"`. */
  function Bearer(key: string): (h: string)
    ensures |h| == 7 + |key| && h[..7] == "Bearer " && h[7..] == key
  {
    "Bearer " + key
  }

  /** `(200..<300).contains(status)`. */
  predicate IsSuccessStatus(code: int) {
    200 <= code < 300
  }

  /** The body for an error message: the UTF-8 text, or "<empty>" when there is none. */
  function BodyText(data: Option<Body>): (s: string)
    ensures data.Some? && data.value.Utf8? ==> s == data.value.text
    ensures !(data.Some? && data.value.Utf8?) ==> s == "<empty>"
  {
    match data
    case Some(Utf8(text)) => text
    case _ => "<empty>"
  }

  /** The status check both clients run first: a status outside 2xx fails with it and the body. */
  function StatusFailure(response: HttpResponse, domain: string): (r: Option<ClientError>)
    ensures r.Some? <==> response.status.Some? && !IsSuccessStatus(response.status.value)
    ensures r.Some? ==> r.value == RequestFailed(HttpStatus(domain, response.status.value, BodyText(response.data)))
  {
    if response.status.Some? && !IsSuccessStatus(response.status.value) then
      Some(RequestFailed(HttpStatus(domain, response.status.value, BodyText(response.data))))
    else None
  }

  /** A text field that is appended only when the optional argument is present. */
  function OptionalField(name: string, value: Option<string>): seq<FormPart> {
    match value
    case Some(v) => [Field(name, Text(v))]
    case None => []
  }

  /** What a field called `field` holding `values` contributes when the server reads `name`. */
  function Named(field: string, name: string, values: seq<FieldValue>): seq<FieldValue> {
    if name == field then values else []
  }

  /** Every value the server receives under the field name `name`, in order. */
  function FieldsNamed(form: seq<FormPart>, name: string): seq<FieldValue> {
    if form == [] then []
    else (if form[0].Field? && form[0].name == name then [form[0].value] else []) + FieldsNamed(form[1..], name)
  }

  /** Every file part of the form, in order. */
  function Files(form: seq<FormPart>): seq<FormPart> {
    if form == [] then []
    else (if form[0].FilePart? then [form[0]] else []) + Files(form[1..])
  }

  /** What the server reads under a name from a form put together from two halves is what it reads from each. */
  lemma {:induction false} FieldsConcat(a: seq<FormPart>, b: seq<FormPart>, name: string)
    ensures FieldsNamed(a + b, name) == FieldsNamed(a, name) + FieldsNamed(b, name)
  {
    if a == [] {
      assert a + b == b;
    } else {
      assert (a + b)[0] == a[0] && (a + b)[1..] == a[1..] + b;
      FieldsConcat(a[1..], b, name);
    }
  }

  /** The file parts of a form put together from two halves are those of each, in order. */
  lemma {:induction false} FilesConcat(a: seq<FormPart>, b: seq<FormPart>)
    ensures Files(a + b) == Files(a) + Files(b)
  {
    if a == [] {
      assert a + b == b;
    } else {
      assert (a + b)[0] == a[0] && (a + b)[1..] == a[1..] + b;
      FilesConcat(a[1..], b);
    }
  }

  /** Both readings of a form put together from two halves. */
  lemma FormConcat(a: seq<FormPart>, b: seq<FormPart>, name: string)
    ensures FieldsNamed(a + b, name) == FieldsNamed(a, name) + FieldsNamed(b, name)
    ensures Files(a + b) == Files(a) + Files(b)
  {
    FieldsConcat(a, b, name);
    FilesConcat(a, b);
  }

  /** Reading a one-part form reads that part. */
  lemma FieldsOfSingle(p: FormPart, name: string)
    ensures FieldsNamed([p], name) == if p.Field? && p.name == name then [p.value] else []
    ensures Files([p]) == if p.FilePart? then [p] else []
  {
    assert [p][1..] == [];
  }

  /** Reading a two-part form reads each part. */
  lemma FieldsOfPair(p: FormPart, q: FormPart, name: string)
    ensures FieldsNamed([p, q], name)
            == (if p.Field? && p.name == name then [p.value] else [])
               + (if q.Field? && q.name == name then [q.value] else [])
    ensures Files([p, q]) == (if p.FilePart? then [p] else []) + (if q.FilePart? then [q] else [])
  {
    assert [p, q][1..] == [q];
    assert [q][1..] == [];
    assert FieldsNamed([q], name) == (if q.Field? && q.name == name then [q.value] else []) + FieldsNamed([], name);
    assert Files([q]) == (if q.FilePart? then [q] else []) + Files([]);
  }

  /** Reading back an optional field gives the argument it came from. */
  lemma OptionalFieldRead(name: string, value: Option<string>, other: string)
    ensures FieldsNamed(OptionalField(name, value), name) == if value.Some? then [Text(value.value)] else []
    ensures other != name ==> FieldsNamed(OptionalField(name, value), other) == []
    ensures Files(OptionalField(name, value)) == []
  {
  }
}
