/** What the two Flask services share: the JSON reply of a handler, the
    exceptions the handlers tell apart, the answer of a call forwarded with
    `requests`, and the path under which an uploaded image is stored. */
module Service {
  import opened Text
  import opened Json
  import opened Urls

  /** A handler's reply: the HTTP status and the JSON body. */
  datatype Reply = Reply(status: int, body: Json)

  /** An exception that escapes a handler: Flask answers with its own 500
      page, which is not JSON (its body is written JNull here). */
  const ServerErrorPage: Reply := Reply(500, JNull)

  /** `{"error": message}`. */
  function ErrorBody(message: string): Json {
    JObj([("error", JStr(message))])
  }

  /** The exceptions the handlers catch, each with its `str(e)`. A
      marshmallow `ValidationError` also carries its messages per field, in
      the order the schema reported them. */
  datatype Failure =
    | ValidationError(messages: seq<(string, seq<string>)>, text: string)
    | ValueError(text: string)
    | RuntimeError(text: string)
    | OtherError(text: string)

  /** A step that may raise: model code, `schema.load`, `requests.post`. */
  datatype Attempt<T> = Returned(value: T) | Raised(failure: Failure)

  /** Python's truth value of a JSON value. */
  predicate Truthy(j: Json) {
    match j
    case JNull => false
    case JBool(b) => b
    case JNum(n, _) => n != 0.0
    case JStr(s) => s != ""
    case JArr(items) => items != []
    case JObj(m) => m != []
  }

  /** Python's name for the type of a JSON value; a number is a `float`
      when its text has a fraction or an exponent. */
  function PyTypeName(j: Json): string {
    match j
    case JNull => "NoneType"
    case JBool(_) => "bool"
    case JNum(_, t) => if ContainsChar(t, '.') || ContainsChar(t, 'e') || ContainsChar(t, 'E') then "float" else "int"
    case JStr(_) => "str"
    case JArr(_) => "list"
    case JObj(_) => "dict"
  }

  /** `errors[next(iter(errors))][0]` answered with 400. With no field, or
      with an empty list for the first field, the expression itself throws
      inside the `except` block and the exception escapes the handler. */
  function ValidationReply(messages: seq<(string, seq<string>)>): (r: Reply)
    ensures r.status == 400 <==> messages != [] && messages[0].1 != []
    ensures r.status == 400 ==> r.body == ErrorBody(messages[0].1[0])
    ensures r.status != 400 ==> r == ServerErrorPage
  {
    if messages != [] && messages[0].1 != [] then Reply(400, ErrorBody(messages[0].1[0]))
    else ServerErrorPage
  }

  /** The stored image path: the name `photos.save` gives the upload, under
      the photos directory, when an `imagen` file with a non-empty filename
      came; the default file otherwise. `save` stands for `photos.save`. */
  function ImagenUrl(upload: Option<string>, save: string -> string, default: string): (r: string)
    ensures StartsWith(r, PhotosDir)
    ensures upload.Some? && upload.value != "" ==> r[|PhotosDir|..] == save(upload.value)
    ensures upload.None? || upload.value == "" ==> r[|PhotosDir|..] == default
  {
    var name := if upload.Some? && upload.value != "" then save(upload.value) else default;
    assert (PhotosDir + name)[..|PhotosDir|] == PhotosDir;
    PhotosDir + name
  }

  /** The DELETE handlers' mapping: `ValueError` is 404, `RuntimeError`
      is 500 with its text, anything else is 500 with `prefix` before its
      text. */
  function DeleteFailureReply(f: Failure, prefix: string): (r: Reply)
    ensures r.status == 404 <==> f.ValueError?
    ensures r.status != 404 ==> r.status == 500
    ensures f.ValueError? || f.RuntimeError? ==> r.body == ErrorBody(f.text)
    ensures f.ValidationError? || f.OtherError? ==> r.body == ErrorBody(prefix + f.text)
  {
    match f
    case ValueError(t) => Reply(404, ErrorBody(t))
    case RuntimeError(t) => Reply(500, ErrorBody(t))
    case _ => Reply(500, ErrorBody(prefix + f.text))
  }

  /** What `.json()` of a forwarded answer gives, or the message of the
      exception it throws. */
  datatype Decoded = Parsed(value: Json) | NotJson(message: string)

  /** The answer of a call forwarded with `requests`: its status, its
      decoded body, its text, and `str(HTTPError)` for it. */
  datatype Response = Response(status: int, json: Decoded, text: string, errorText: string)

  /** `raise_for_status()` raises exactly for a 4xx or 5xx status. */
  predicate RaisesForStatus(resp: Response) {
    400 <= resp.status < 600
  }

  /** `bool(response)`: `requests` defines it as `response.ok`, which is
      true exactly when `raise_for_status()` does not raise. */
  predicate ResponseOk(resp: Response) {
    !RaisesForStatus(resp)
  }

  /** `e.response.status_code if e.response else fallback`, as written; the
      truth value of a response is the parameter `truthy`. */
  function HttpErrorStatusAsWritten(resp: Response, truthy: Response -> bool, fallback: int): (s: int)
    ensures truthy(resp) ==> s == resp.status
    ensures !truthy(resp) ==> s == fallback
  {
    if truthy(resp) then resp.status else fallback
  }

  /** An `HTTPError` comes only from a response that raises, and such a
      response is false: the written status is always the fallback, so the
      backend's 4xx or 5xx status is lost. */
  lemma HttpErrorStatusLost(resp: Response, fallback: int)
    requires RaisesForStatus(resp)
    ensures HttpErrorStatusAsWritten(resp, ResponseOk, fallback) == fallback
    ensures fallback != resp.status ==> HttpErrorStatusAsWritten(resp, ResponseOk, fallback) != resp.status
  {
  }

  /** The status the handlers evidently mean to pass on: the backend's,
      as `e.response is not None` would give, since an `HTTPError` from
      `raise_for_status()` always carries its response. */
  function HttpErrorStatus(resp: Response): (s: int)
    requires RaisesForStatus(resp)
    ensures 400 <= s < 600
    ensures s == resp.status
  {
    resp.status
  }
}
