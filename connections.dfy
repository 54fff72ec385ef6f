/**
 * The request pipeline of the public v1 client (common/connections.py):
 * URL construction, query-parameter normalisation, the session and its
 * Basic credential, the classification of a response into data or an
 * error, and login.
 *
 * The remote service is the function `server` a client is built with; the
 * ghost log `sent` records every request that reached it.
 */
module Connections {
  import opened Wrappers
  import opened Json
  import opened Text
  import opened Encoding
  import opened Http
  import opened Errors
  import opened Dicts

  /** What a raised exception carries: one of the client's error classes, or a Python fault. */
  datatype Exception = RequestFailure(error: RequestError) | PythonFault(fault: Fault)

  /** What `__processResponse` gives back. `NoContent` and `NoResult` are both Python's None. */
  datatype Outcome =
    | Data(body: Body)          // an unwrapped success body
    | NoContent                 // status 204
    | NoResult                  // a status outside [200, 300) and [400, 600)
    | Handled(value: Json)      // what a caller-supplied handler returned
    | Raised(exception: Exception)

  // ---------------------------------------------------------------- URL

  const ApiRoot: string := "/api/-default-/public/"

  /** `effectiveUrl`: the API namespace and version in front of the operation path; version "1" by default. */
  function EffectiveUrl(baseUrl: string, api: string, opUrl: string, version: Option<string>): (url: string)
    ensures StartsWith(url, baseUrl + ApiRoot + api + "/versions/")
    ensures version.None? ==> url == baseUrl + ApiRoot + api + "/versions/1/" + opUrl
  {
    var v := if version.Some? then version.value else "1";
    var url := baseUrl + ApiRoot + api + "/versions/" + v + "/" + opUrl;
    assert url == (baseUrl + ApiRoot + api + "/versions/") + (v + "/" + opUrl);
    url
  }

  /** Naming the default version explicitly builds the same URL as leaving it out. */
  lemma DefaultVersionIsOne(baseUrl: string, api: string, opUrl: string)
    ensures EffectiveUrl(baseUrl, api, opUrl, None) == EffectiveUrl(baseUrl, api, opUrl, Some("1"))
  {
  }

  // ---------------------------------------------------------------- parameters

  /** One parameter value after normalisation: lists are comma-joined, an empty list is dropped. */
  function NormalisedValue(v: Param): Option<Param> {
    match v
    case PList(xs) => if |xs| > 0 then Some(PStr(JoinComma(xs))) else None
    case _ => Some(v)
  }

  /** The parameters the loop over `params` puts into `effectiveParams`, in order. */
  function NormalisedParams(ps: Dict<Param>): Dict<Param> {
    if |ps| == 0 then []
    else
      var prev := NormalisedParams(ps[..|ps| - 1]);
      var (k, v) := ps[|ps| - 1];
      match NormalisedValue(v)
      case None => prev
      case Some(w) => Set(prev, k, w)
  }

  /** The keys that survive normalisation, in the order of the input: an order-preserving filter. */
  function KeptKeys(ps: Dict<Param>): seq<string> {
    if |ps| == 0 then []
    else KeptKeys(ps[..|ps| - 1]) + (if NormalisedValue(ps[|ps| - 1].1).Some? then [ps[|ps| - 1].0] else [])
  }

  /**
   * Every parameter keeps its own value after normalisation: a non-empty
   * list becomes the comma-join of its elements, an empty list disappears,
   * a scalar is unchanged.
   */
  lemma {:induction false} NormalisedLookup(ps: Dict<Param>, k: string)
    requires UniqueKeys(ps)
    ensures Lookup(NormalisedParams(ps), k) ==
            (match Lookup(ps, k) case None => None case Some(v) => NormalisedValue(v))
  {
    if |ps| > 0 {
      var init, last := ps[..|ps| - 1], ps[|ps| - 1];
      UniqueParts(ps);
      NormalisedLookup(init, k);
      LookupSnoc(init, last.0, last.1, k);
      assert init + [last] == ps;
      if last.0 == k {
        NormalisedLookup(init, k);
      }
    }
  }

  /** Normalisation keeps the order of the keys it does not drop, and never repeats a key. */
  lemma {:induction false} NormalisedKeys(ps: Dict<Param>)
    requires UniqueKeys(ps)
    ensures Keys(NormalisedParams(ps)) == KeptKeys(ps)
  {
    if |ps| > 0 {
      var init, last := ps[..|ps| - 1], ps[|ps| - 1];
      UniqueParts(ps);
      NormalisedKeys(init);
      if NormalisedValue(last.1).Some? {
        NormalisedLookup(init, last.0);
        assert Lookup(init, last.0).None?;
      }
    }
  }

  /** The loop of `__processRequest` that fills `effectiveParams`. */
  method NormaliseParams(params: Option<Dict<Param>>) returns (eff: Dict<Param>)
    ensures params.None? ==> eff == []
    ensures params.Some? ==> eff == NormalisedParams(params.value)
  {
    eff := [];
    if params.Some? {
      var ps := params.value;
      var i := 0;
      while i < |ps|
        invariant 0 <= i <= |ps|
        invariant eff == NormalisedParams(ps[..i])
      {
        var (k, v) := ps[i];
        assert ps[..i + 1][..i] == ps[..i];
        match v {
          case PList(xs) =>
            if |xs| > 0 {
              eff := Set(eff, k, PStr(JoinComma(xs)));
            }
          case _ =>
            eff := Set(eff, k, v);
        }
        i := i + 1;
      }
      assert ps[..|ps|] == ps;
    }
  }

  /** The loops of `__processRequest` that copy `headers` and `files` key for key. */
  method CopyPairs<V>(d: Option<Dict<V>>) returns (eff: Dict<V>)
    ensures d.None? ==> eff == []
    ensures d.Some? ==> eff == Copied(d.value)
  {
    eff := [];
    if d.Some? {
      var ps := d.value;
      var i := 0;
      while i < |ps|
        invariant 0 <= i <= |ps|
        invariant eff == Copied(ps[..i])
      {
        assert ps[..i + 1][..i] == ps[..i];
        eff := Set(eff, ps[i].0, ps[i].1);
        i := i + 1;
      }
      assert ps[..|ps|] == ps;
    }
  }

  // ---------------------------------------------------------------- credentials

  const AuthorizationHeader: string := "Authorization"

  /** `'BASIC ' + b64encode(bytes(ticket, 'utf-8')).decode('utf-8')`. */
  function BasicCredential(ticket: string): string {
    "BASIC " + Base64Encode(Utf8(ticket))
  }

  /** What a server reads out of the credential: the ticket, when the header is well-formed. */
  function TicketOfCredential(header: string): Option<string> {
    if StartsWith(header, "BASIC ") then
      var raw :- Base64Decode(header[6..]);
      Utf8Decode(raw)
    else None
  }

  /** The credential carries the ticket unchanged, whatever characters it holds. */
  lemma CredentialRoundTrip(ticket: string)
    ensures TicketOfCredential(BasicCredential(ticket)) == Some(ticket)
  {
    var h := BasicCredential(ticket);
    assert h[6..] == Base64Encode(Utf8(ticket));
    Base64RoundTrip(Utf8(ticket));
    Utf8RoundTrip(ticket);
  }

  /** The session headers once `__updateTicket` has run: the credential set when there is a ticket. */
  function Authorized(headers: Dict<string>, ticket: Option<string>): Dict<string> {
    if ticket.Some? then Set(headers, AuthorizationHeader, BasicCredential(ticket.value)) else headers
  }

  // ---------------------------------------------------------------- request handlers

  /** How many arguments each request handler declares after `self`. */
  function HandlerArity(verb: Verb): nat {
    if verb == MultipartPost then 5 else 4
  }

  /** `__processRequest` calls the handler with url, params, headers, files and payload. */
  const CallSiteArguments: nat := 5

  /** The handler call as written at common/connections.py:55. */
  function DispatchAsWritten(verb: Verb): Result<(), Fault> {
    if HandlerArity(verb) == CallSiteArguments then Success(())
    else Failure(TypeError("takes 4 positional arguments but 5 were given"))
  }

  /** As written, every request except a multipart POST fails before it is sent. */
  lemma OnlyMultipartDispatchesAsWritten(verb: Verb)
    ensures DispatchAsWritten(verb).Success? <==> verb == MultipartPost
    ensures DispatchAsWritten(Get) == Failure(TypeError("takes 4 positional arguments but 5 were given"))
  {
  }

  /** What each handler puts on the wire: GET and DELETE drop the payload, only the multipart POST sends files. */
  function BuildRequest(
    verb: Verb, url: string, params: Dict<Param>, headers: Dict<string>,
    files: Dict<seq<byte>>, payload: Option<Json>, session: Dict<string>): Request
  {
    Request(verb, url, params, headers,
      if verb == MultipartPost then files else [],
      if verb == Get || verb == Delete then None else payload,
      session)
  }

  // ---------------------------------------------------------------- responses

  /**
   * `__processResponse`: an error status goes to the error handler or
   * raises the classified error; a success status goes to the response
   * handler or is unwrapped by content type; any other status gives None.
   */
  function ProcessResponse(r: Response, responseHandler: Option<Handler>, errorHandler: Option<Handler>): Outcome {
    if 400 <= r.status < 600 then
      if errorHandler.Some? then Handled(errorHandler.value(r))
      else
        (match HandleErrorResponse(r)
         case Success(e) => Raised(RequestFailure(e))
         case Failure(f) => Raised(PythonFault(f)))
    else if 200 <= r.status < 300 then
      if responseHandler.Some? then Handled(responseHandler.value(r))
      else if r.status == 204 then NoContent
      else
        (match ClassifyBody(r)
         case Success(body) => Data(body)
         case Failure(f) => Raised(PythonFault(f)))
    else NoResult
  }

  /** A status in [400, 600) never yields data: the error handler decides, or a typed error is raised. */
  lemma ErrorStatusNeverYieldsData(r: Response, responseHandler: Option<Handler>, errorHandler: Option<Handler>)
    requires 400 <= r.status < 600
    ensures var o := ProcessResponse(r, responseHandler, errorHandler);
            && !o.Data?
            && (errorHandler.Some? ==> o == Handled(errorHandler.value(r)))
            && (errorHandler.None? && HandleErrorResponse(r).Success? ==>
                  o == Raised(RequestFailure(HandleErrorResponse(r).value))
                  && o.exception.error.statusCode == r.status
                  && o.exception.error.kind == KindFor(r.status))
  {
  }

  /** A response handler takes every success status, 204 included; without one, 204 gives no content. */
  lemma SuccessStatusHandling(r: Response, responseHandler: Option<Handler>, errorHandler: Option<Handler>)
    requires 200 <= r.status < 300
    ensures responseHandler.Some? ==> ProcessResponse(r, responseHandler, errorHandler) == Handled(responseHandler.value(r))
    ensures responseHandler.None? && r.status == 204 ==> ProcessResponse(r, responseHandler, errorHandler) == NoContent
  {
  }

  /** Without a handler, every other success status is unwrapped by content type. */
  lemma SuccessBodyIsUnwrapped(r: Response, errorHandler: Option<Handler>)
    requires 200 <= r.status < 300 && r.status != 204
    ensures ClassifyBody(r).Success? ==> ProcessResponse(r, None, errorHandler) == Data(ClassifyBody(r).value)
    ensures ClassifyBody(r).Failure? ==> ProcessResponse(r, None, errorHandler) == Raised(PythonFault(ClassifyBody(r).error))
  {
  }

  /** Informational and redirect statuses give None, whatever handlers are supplied. */
  lemma OtherStatusesGiveNothing(r: Response, responseHandler: Option<Handler>, errorHandler: Option<Handler>)
    requires !(200 <= r.status < 300) && !(400 <= r.status < 600)
    ensures ProcessResponse(r, responseHandler, errorHandler) == NoResult
  {
  }

  /** `ticketEntity['id']` for the outcome of the ticket request; None keeps the current ticket. */
  function TicketIdOf(o: Outcome): Result<Option<string>, Exception> {
    match o
    case Raised(e) => Failure(e)
    case Data(TextBody(_)) => Failure(PythonFault(TypeError("string indices must be integers")))
    case Data(Bytes(_)) => Failure(PythonFault(TypeError("byte indices must be integers")))
    case NoContent => Failure(PythonFault(TypeError("'NoneType' object is not subscriptable")))
    case NoResult => Failure(PythonFault(TypeError("'NoneType' object is not subscriptable")))
    case Data(Entry(v)) => TicketIdOfEntity(v)
    case Data(Whole(v)) => TicketIdOfEntity(v)
    case Handled(v) => TicketIdOfEntity(v)
  }

  /** The `id` of a ticket entity, which `__updateTicket` encodes as a string. */
  function TicketIdOfEntity(entity: Json): Result<Option<string>, Exception> {
    match Index(entity, "id")
    case Failure(f) => Failure(PythonFault(f))
    case Success(Null) => Success(None)
    case Success(Str(t)) => Success(Some(t))
    case Success(_) => Failure(PythonFault(TypeError("encoding without a string argument")))
  }

  function LoginPayload(userName: string, password: string): Json {
    Obj(map["userId" := Str(userName), "password" := Str(password)])
  }

  // ---------------------------------------------------------------- the client

  class Client {
    const baseUrl: string
    const server: Request -> Response
    var ticket: Option<string>
    /** The session's headers; None until the first request creates the session. */
    var session: Option<Dict<string>>
    ghost var sent: seq<Request>

    /** A live session always carries the credential of the current ticket. */
    ghost predicate Valid()
      reads this
    {
      session.Some? ==>
        && UniqueKeys(session.value)
        && (ticket.Some? ==> Lookup(session.value, AuthorizationHeader) == Some(BasicCredential(ticket.value)))
    }

    constructor(baseUrl: string, server: Request -> Response)
      ensures Valid()
      ensures this.baseUrl == baseUrl && this.server == server
      ensures ticket == None && session == None && sent == []
    {
      this.baseUrl := baseUrl;
      this.server := server;
      ticket := None;
      session := None;
      sent := [];
    }

    /** `__updateTicket`: a given ticket replaces the current one; a live session gets its credential. */
    method UpdateTicket(t: Option<string>)
      requires Valid()
      modifies this
      ensures Valid()
      ensures ticket == (if t.Some? then t else old(ticket))
      ensures session == (if old(session).Some? then Some(Authorized(old(session).value, ticket)) else None)
      ensures sent == old(sent)
    {
      if t.Some? {
        ticket := t;
      }
      if ticket.Some? && session.Some? {
        SetKeepsUniqueKeys(session.value, AuthorizationHeader, BasicCredential(ticket.value));
        session := Some(Set(session.value, AuthorizationHeader, BasicCredential(ticket.value)));
      }
    }

    /** `useTicket`: `useTicket(None)` keeps the ticket there is. */
    method UseTicket(t: Option<string>)
      requires Valid()
      modifies this
      ensures Valid()
      ensures ticket == (if t.Some? then t else old(ticket))
      ensures session == (if old(session).Some? then Some(Authorized(old(session).value, ticket)) else None)
      ensures sent == old(sent)
    {
      UpdateTicket(t);
    }

    /**
     * `__processRequest`: builds the URL, normalises the parameters, copies
     * headers and files, creates the session (with the credential) on the
     * first request, sends exactly one request and classifies the response.
     */
    method ProcessRequest(
      verb: Verb, api: string, opUrl: string, version: Option<string>,
      params: Option<Dict<Param>>, headers: Option<Dict<string>>, files: Option<Dict<seq<byte>>>,
      payload: Option<Json>, responseHandler: Option<Handler>, errorHandler: Option<Handler>)
      returns (out: Outcome)
      requires Valid()
      modifies this
      ensures Valid()
      ensures ticket == old(ticket)
      ensures session == Some(if old(session).Some? then old(session).value else Authorized([], ticket))
      ensures sent == old(sent) + [BuildRequest(verb, EffectiveUrl(baseUrl, api, opUrl, version),
                                     NormalisedParams(params.GetOr([])), Copied(headers.GetOr([])),
                                     Copied(files.GetOr([])), payload, session.value)]
      ensures out == ProcessResponse(server(sent[|sent| - 1]), responseHandler, errorHandler)
    {
      var url := EffectiveUrl(baseUrl, api, opUrl, version);
      var effParams := NormaliseParams(params);
      var effHeaders := CopyPairs(headers);
      var effFiles := CopyPairs(files);
      OpenSession();
      var request := BuildRequest(verb, url, effParams, effHeaders, effFiles, payload, session.value);
      out := Send(request, responseHandler, errorHandler);
    }

    /** The session a first request creates: `Session()` followed by `__updateTicket()`. */
    method OpenSession()
      requires Valid()
      modifies this
      ensures Valid()
      ensures ticket == old(ticket) && sent == old(sent)
      ensures session == Some(if old(session).Some? then old(session).value else Authorized([], ticket))
    {
      if session.None? {
        if ticket.Some? {
          SetKeepsUniqueKeys([], AuthorizationHeader, BasicCredential(ticket.value));
        }
        session := Some(Authorized([], ticket));
      }
    }

    /** One request reaching the server, and its response classified. */
    method Send(request: Request, responseHandler: Option<Handler>, errorHandler: Option<Handler>)
      returns (out: Outcome)
      requires Valid()
      modifies this
      ensures Valid()
      ensures ticket == old(ticket) && session == old(session)
      ensures sent == old(sent) + [request]
      ensures out == ProcessResponse(server(request), responseHandler, errorHandler)
    {
      sent := sent + [request];
      out := ProcessResponse(server(request), responseHandler, errorHandler);
    }

    method Get(api: string, opUrl: string, version: Option<string>, params: Option<Dict<Param>>,
               headers: Option<Dict<string>>, responseHandler: Option<Handler>, errorHandler: Option<Handler>)
      returns (out: Outcome)
      requires Valid()
      modifies this
      ensures Valid()
      ensures ticket == old(ticket)
      ensures session == Some(if old(session).Some? then old(session).value else Authorized([], ticket))
      ensures sent == old(sent) + [BuildRequest(Verb.Get, EffectiveUrl(baseUrl, api, opUrl, version),
                                     NormalisedParams(params.GetOr([])), Copied(headers.GetOr([])),
                                     [], None, session.value)]
      ensures out == ProcessResponse(server(sent[|sent| - 1]), responseHandler, errorHandler)
    {
      out := ProcessRequest(Verb.Get, api, opUrl, version, params, headers, None, None, responseHandler, errorHandler);
    }

    method MultipartPost(api: string, opUrl: string, payload: Json, version: Option<string>,
                         params: Option<Dict<Param>>, headers: Option<Dict<string>>,
                         files: Option<Dict<seq<byte>>>, responseHandler: Option<Handler>,
                         errorHandler: Option<Handler>)
      returns (out: Outcome)
      requires Valid()
      modifies this
      ensures Valid()
      ensures ticket == old(ticket)
      ensures session == Some(if old(session).Some? then old(session).value else Authorized([], ticket))
      ensures sent == old(sent) + [BuildRequest(Verb.MultipartPost, EffectiveUrl(baseUrl, api, opUrl, version),
                                     NormalisedParams(params.GetOr([])), Copied(headers.GetOr([])),
                                     Copied(files.GetOr([])), Some(payload), session.value)]
      ensures out == ProcessResponse(server(sent[|sent| - 1]), responseHandler, errorHandler)
    {
      out := ProcessRequest(Verb.MultipartPost, api, opUrl, version, params, headers, files, Some(payload),
                            responseHandler, errorHandler);
    }

    method JsonPost(api: string, opUrl: string, payload: Json, version: Option<string>,
                    params: Option<Dict<Param>>, headers: Option<Dict<string>>,
                    responseHandler: Option<Handler>, errorHandler: Option<Handler>)
      returns (out: Outcome)
      requires Valid()
      modifies this
      ensures Valid()
      ensures ticket == old(ticket)
      ensures session == Some(if old(session).Some? then old(session).value else Authorized([], ticket))
      ensures sent == old(sent) + [BuildRequest(Verb.JsonPost, EffectiveUrl(baseUrl, api, opUrl, version),
                                     NormalisedParams(params.GetOr([])), Copied(headers.GetOr([])),
                                     [], Some(payload), session.value)]
      ensures out == ProcessResponse(server(sent[|sent| - 1]), responseHandler, errorHandler)
    {
      out := ProcessRequest(Verb.JsonPost, api, opUrl, version, params, headers, None, Some(payload),
                            responseHandler, errorHandler);
    }

    method JsonPut(api: string, opUrl: string, payload: Json, version: Option<string>,
                   params: Option<Dict<Param>>, headers: Option<Dict<string>>,
                   responseHandler: Option<Handler>, errorHandler: Option<Handler>)
      returns (out: Outcome)
      requires Valid()
      modifies this
      ensures Valid()
      ensures ticket == old(ticket)
      ensures session == Some(if old(session).Some? then old(session).value else Authorized([], ticket))
      ensures sent == old(sent) + [BuildRequest(Verb.JsonPut, EffectiveUrl(baseUrl, api, opUrl, version),
                                     NormalisedParams(params.GetOr([])), Copied(headers.GetOr([])),
                                     [], Some(payload), session.value)]
      ensures out == ProcessResponse(server(sent[|sent| - 1]), responseHandler, errorHandler)
    {
      out := ProcessRequest(Verb.JsonPut, api, opUrl, version, params, headers, None, Some(payload),
                            responseHandler, errorHandler);
    }

    /** `login`: one ticket request; the `id` of the ticket entity becomes the ticket. */
    method Login(userName: string, password: string) returns (r: Result<(), Exception>)
      requires Valid()
      modifies this
      ensures Valid()
      ensures |sent| == |old(sent)| + 1 && sent[..|old(sent)|] == old(sent) && session.Some?
      ensures sent[|sent| - 1] == BuildRequest(Verb.JsonPost, EffectiveUrl(baseUrl, "authentication", "tickets", None),
                                               [], [], [], Some(LoginPayload(userName, password)),
                                               if old(session).Some? then old(session).value else Authorized([], old(ticket)))
      ensures var id := TicketIdOf(ProcessResponse(server(sent[|sent| - 1]), None, None));
              && (r.Failure? <==> id.Failure?)
              && (r.Failure? ==> r.error == id.error && ticket == old(ticket))
              && (r.Success? ==> ticket == if id.value.Some? then id.value else old(ticket))
    {
      var out := JsonPost("authentication", "tickets", LoginPayload(userName, password), None, None, None, None, None);
      var id := TicketIdOf(out);
      if id.Failure? {
        return Failure(id.error);
      }
      UpdateTicket(id.value);
      r := Success(());
    }
  }

  /** `connect`: a given ticket wins over credentials; credentials lead to one login request. */
  method Connect(baseUrl: string, server: Request -> Response,
                 userName: Option<string>, password: Option<string>, ticket: Option<string>)
    returns (client: Client, r: Result<(), Exception>)
    ensures fresh(client) && client.Valid()
    ensures client.baseUrl == baseUrl && client.server == server
    ensures ticket.Some? ==> client.ticket == ticket && client.sent == [] && r.Success?
    ensures ticket.None? && userName.Some? && password.Some? ==>
              && |client.sent| == 1
              && client.sent[0] == BuildRequest(Verb.JsonPost, EffectiveUrl(baseUrl, "authentication", "tickets", None),
                                                [], [], [], Some(LoginPayload(userName.value, password.value)),
                                                Authorized([], None))
              && var id := TicketIdOf(ProcessResponse(server(client.sent[0]), None, None));
                 && (r.Failure? <==> id.Failure?)
                 && (r.Failure? ==> r.error == id.error && client.ticket == None)
                 && (r.Success? ==> client.ticket == id.value)
    ensures ticket.None? && !(userName.Some? && password.Some?) ==>
              client.ticket == None && client.sent == [] && r.Success?
  {
    client := new Client(baseUrl, server);
    r := Success(());
    if ticket.Some? {
      client.UseTicket(ticket);
    } else if userName.Some? && password.Some? {
      r := client.Login(userName.value, password.value);
    }
  }
}
