/**
 * The error taxonomy of the public v1 client (common/errors.py): the
 * status-to-class table, the extraction of a summary message from an error
 * body, and the string form of an error.
 */
module Errors {
  import opened Wrappers
  import opened Json
  import opened Text
  import opened Http

  /** `RequestError` and its seven subclasses. */
  datatype ErrorKind =
    | BadRequest
    | Unauthorized
    | Forbidden
    | NotFound
    | Conflict
    | InternalServerError
    | ServiceUnavailable
    | RequestErrorBase

  /** A raised `RequestError`: its class, `statusCode` and `message` (a JSON value, text bodies as strings). */
  datatype RequestError = RequestError(kind: ErrorKind, statusCode: int, message: Json)

  /** `_errorSwitcher.get(status, RequestError)`. */
  function KindFor(status: int): (k: ErrorKind)
    ensures k == BadRequest <==> status == 400
    ensures k == Unauthorized <==> status == 401
    ensures k == Forbidden <==> status == 403
    ensures k == NotFound <==> status == 404
    ensures k == Conflict <==> status == 409
    ensures k == InternalServerError <==> status == 500
    ensures k == ServiceUnavailable <==> status == 503
    ensures k == RequestErrorBase <==> status !in {400, 401, 403, 404, 409, 500, 503}
  {
    match status
    case 400 => BadRequest
    case 401 => Unauthorized
    case 403 => Forbidden
    case 404 => NotFound
    case 409 => Conflict
    case 500 => InternalServerError
    case 503 => ServiceUnavailable
    case _ => RequestErrorBase
  }

  /**
   * `_extractResponseMessage`: `error.briefSummary` of a JSON body that has
   * it, the body text otherwise; reading the header or the JSON body may
   * raise instead.
   */
  function ExtractMessage(r: Response): Result<Json, Fault> {
    var ct :- ContentTypeOf(r);
    if IsJsonContentType(ct) then
      var body :- JsonOf(r);
      var hasError :- Contains(body, "error");
      if !hasError then Success(Str(r.text))
      else
        var error :- Index(body, "error");
        var hasSummary :- Contains(error, "briefSummary");
        if !hasSummary then Success(Str(r.text)) else Index(error, "briefSummary")
    else
      Success(Str(r.text))
  }

  /** `handleErrorResponse`: the error class for the status, built from the response. */
  function HandleErrorResponse(r: Response): (e: Result<RequestError, Fault>)
    ensures e.Success? ==> e.value.statusCode == r.status && e.value.kind == KindFor(r.status)
    ensures e.Success? <==> ExtractMessage(r).Success?
    ensures e.Success? ==> e.value.message == ExtractMessage(r).value
    ensures e.Failure? ==> e.error == ExtractMessage(r).error
  {
    var message :- ExtractMessage(r);
    Success(RequestError(KindFor(r.status), r.status, message))
  }

  /** A JSON error body with a nested `error.briefSummary` gives that summary as the message. */
  lemma NestedSummaryIsMessage(r: Response, summary: Json, rest: map<string, Json>)
    requires r.contentType.Some? && IsJsonContentType(r.contentType.value)
    requires r.json.Some? && r.json.value.Obj? && "error" in r.json.value.fields
    requires r.json.value.fields["error"] == Obj(rest[("briefSummary") := summary])
    ensures HandleErrorResponse(r).Success?
    ensures HandleErrorResponse(r).value.message == summary
  {
  }

  /** A top-level `briefSummary` is not looked at: without `error`, the message is the body text. */
  lemma TopLevelSummaryIgnored(r: Response)
    requires r.contentType.Some? && IsJsonContentType(r.contentType.value)
    requires r.json.Some? && r.json.value.Obj? && "error" !in r.json.value.fields
    ensures HandleErrorResponse(r) == Success(RequestError(KindFor(r.status), r.status, Str(r.text)))
  {
  }

  /** A body that is not JSON gives its text as the message. */
  lemma NonJsonMessageIsText(r: Response)
    requires r.contentType.Some? && !IsJsonContentType(r.contentType.value)
    ensures HandleErrorResponse(r) == Success(RequestError(KindFor(r.status), r.status, Str(r.text)))
  {
  }

  /** A response without a `Content-type` header raises KeyError while the error is being built. */
  lemma MissingContentTypeRaises(r: Response)
    requires r.contentType.None?
    ensures HandleErrorResponse(r) == Failure(KeyError("Content-type"))
  {
  }

  /**
   * `RequestError.__str__`: `'HTTP ' + str(statusCode)`, then a space and the
   * message unless it is None; a message that is neither a string nor None
   * makes the concatenation raise TypeError.
   */
  function ErrorString(e: RequestError): (s: Result<string, Fault>)
    ensures s.Success? <==> e.message.Null? || e.message.Str?
  {
    var head := "HTTP " + IntToString(e.statusCode);
    match e.message
    case Null => Success(head)
    case Str(m) => Success(head + " " + m)
    case _ => Failure(TypeError("can only concatenate str to str"))
  }

  /** The status code can be read back from the string form, and the message follows it after one space. */
  lemma {:induction false} ErrorStringReadsBack(e: RequestError)
    requires e.statusCode >= 0
    requires e.message.Null? || e.message.Str?
    ensures var s := ErrorString(e).value;
            var d := NatToString(e.statusCode);
            && StartsWith(s, "HTTP ")
            && |s| >= 5 + |d|
            && s[5..5 + |d|] == d
            && ParseNat(s[5..5 + |d|]) == e.statusCode
            && (e.message.Null? ==> |s| == 5 + |d|)
            && (e.message.Str? ==> s[5 + |d|..] == " " + e.message.s)
  {
    ParseNatToString(e.statusCode);
    var d := NatToString(e.statusCode);
    var head := "HTTP " + d;
    assert ErrorString(e).value[..|head|] == head;
    if e.message.Str? {
      assert ErrorString(e).value == head + (" " + e.message.s);
    }
  }
}
