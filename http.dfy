/**
 * What the client sees of an HTTP exchange. The transport (the `requests`
 * library) is not modelled: a response arrives with its body already
 * decoded as JSON (when it parses), as text and as raw bytes.
 */
module Http {
  import opened Wrappers
  import opened Json
  import opened Encoding
  import opened Text
  import Dicts

  /** The request handlers of the client, one per HTTP call shape. */
  datatype Verb = Get | Post | JsonPost | MultipartPost | Put | JsonPut | Delete

  /** A query-parameter value: a string, an integer or a list of strings. */
  datatype Param = PStr(s: string) | PInt(i: int) | PList(items: seq<string>)

  /**
   * An HTTP response: its status, its `Content-type` header (absent when the
   * server sent none), its body parsed as JSON (`None` when it does not
   * parse), as text and as bytes.
   */
  datatype Response = Response(
    status: int,
    contentType: Option<string>,
    json: Option<Json>,
    text: string,
    content: seq<byte>)

  /** `response.headers['Content-type']`. */
  function ContentTypeOf(r: Response): (ct: Result<string, Fault>)
    ensures ct.Failure? <==> r.contentType.None?
    ensures ct.Failure? ==> ct.error == KeyError("Content-type")
  {
    match r.contentType
    case None => Failure(KeyError("Content-type"))
    case Some(t) => Success(t)
  }

  /** `response.json()`. */
  function JsonOf(r: Response): (j: Result<Json, Fault>)
    ensures j.Failure? <==> r.json.None?
  {
    match r.json
    case None => Failure(JsonDecodeError)
    case Some(v) => Success(v)
  }

  /** One request as it leaves the client, with the session headers it carries. */
  datatype Request = Request(
    verb: Verb,
    url: string,
    params: Dicts.Dict<Param>,
    headers: Dicts.Dict<string>,
    files: Dicts.Dict<seq<byte>>,
    payload: Option<Json>,
    sessionHeaders: Dicts.Dict<string>)

  /** A caller-supplied response handler: it receives the response and returns what the call returns. */
  type Handler = Response -> Json

  /** What a successful call returns when no handler is supplied. */
  datatype Body =
    | Entry(value: Json)        // the `entry` member of a JSON body
    | Whole(value: Json)        // a JSON body without `entry`
    | TextBody(text: string)    // a body of a `text/` media type
    | Bytes(content: seq<byte>) // any other body

  /**
   * The unwrapping of a success response by content type, shared by both
   * clients: JSON is unwrapped from its `entry` envelope, `text/` media
   * types give the text, anything else the raw bytes. Reading the header,
   * parsing the body or indexing it may raise.
   */
  function ClassifyBody(r: Response): Result<Body, Fault> {
    var ct :- ContentTypeOf(r);
    if IsJsonContentType(ct) then
      var body :- JsonOf(r);
      var hasEntry :- Contains(body, "entry");
      if hasEntry then
        var entry :- Index(body, "entry");
        Success(Entry(entry))
      else Success(Whole(body))
    else if IsTextContentType(ct) then Success(TextBody(r.text))
    else Success(Bytes(r.content))
  }

  /** The entry envelope is unwrapped; a JSON object without `entry` (a list envelope) comes back whole. */
  lemma JsonEnvelope(r: Response, body: map<string, Json>)
    requires r.contentType.Some? && IsJsonContentType(r.contentType.value)
    requires r.json == Some(Obj(body))
    ensures "entry" in body ==> ClassifyBody(r) == Success(Entry(body["entry"]))
    ensures "entry" !in body ==> ClassifyBody(r) == Success(Whole(Obj(body)))
  {
  }

  /**
   * A JSON array holding the string "entry" passes the membership test but
   * cannot be indexed by a string: the unwrapping raises TypeError.
   */
  lemma EntryInArrayRaises(r: Response, items: seq<Json>)
    requires r.contentType.Some? && IsJsonContentType(r.contentType.value)
    requires r.json == Some(Arr(items)) && Str("entry") in items
    ensures ClassifyBody(r).Failure? && ClassifyBody(r).error.TypeError?
  {
  }

  /** Bodies of a `text/` media type come back as text, every other non-JSON body as bytes; neither can fail. */
  lemma NonJsonBodies(r: Response)
    requires r.contentType.Some? && !IsJsonContentType(r.contentType.value)
    ensures IsTextContentType(r.contentType.value) ==> ClassifyBody(r) == Success(TextBody(r.text))
    ensures !IsTextContentType(r.contentType.value) ==> ClassifyBody(r) == Success(Bytes(r.content))
  {
  }

  /** Without a `Content-type` header the unwrapping raises KeyError. */
  lemma MissingContentTypeFails(r: Response)
    requires r.contentType.None?
    ensures ClassifyBody(r) == Failure(KeyError("Content-type"))
  {
  }
}
