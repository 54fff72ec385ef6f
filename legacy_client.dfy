/**
 * The legacy client (alfresco_client.py): one GET and one POST call that
 * take the ticket per call, a status dispatch that differs from the public
 * v1 client in three places (every status from 400 up fails, the summary
 * is read at the top level, 204 is not special), and a connection that
 * remembers the ticket `login` returned.
 */
module LegacyClient {
  import opened Wrappers
  import opened Json
  import opened Text
  import opened Http
  import opened Dicts
  import Connections
  import Errors

  /** `RequestFailed`, `UnhandledStatus`, and faults raised while handling a response. */
  datatype Exception =
    | RequestFailed(statusCode: int, message: Json)
    | UnhandledStatus(statusCode: int)
    | PythonFault(fault: Fault)

  /** What `get` and `post` return when they do not raise. */
  datatype Value =
    | Data(body: Body)      // an unwrapped success body
    | Handled(value: Json)  // what `responseDataHandler` returned
    | Nothing               // Python's None, after `specialStatusHandler` ran

  /** The URL of both calls: always version 1 of the API. */
  function LegacyUrl(baseUrl: string, api: string, opUrl: string): string {
    baseUrl + Connections.ApiRoot + api + "/versions/1/" + opUrl
  }

  /** The legacy URL is the public client's URL with the default version. */
  lemma LegacyUrlIsDefaultVersion(baseUrl: string, api: string, opUrl: string)
    ensures LegacyUrl(baseUrl, api, opUrl) == Connections.EffectiveUrl(baseUrl, api, opUrl, None)
  {
  }

  /** The message of `RequestFailed`: the top-level `briefSummary` of a JSON body, the text otherwise. */
  function FailureMessage(r: Response): Result<Json, Fault> {
    var ct :- ContentTypeOf(r);
    if IsJsonContentType(ct) then
      var body :- JsonOf(r);
      var hasSummary :- Contains(body, "briefSummary");
      if hasSummary then Index(body, "briefSummary") else Success(Str(r.text))
    else Success(Str(r.text))
  }

  /** The status dispatch shared by `get` and `post`. */
  function Dispatch(r: Response, responseDataHandler: Option<Handler>, specialStatusHandler: Option<Handler>)
    : Result<Value, Exception>
  {
    if r.status >= 400 then
      match FailureMessage(r)
      case Success(m) => Failure(RequestFailed(r.status, m))
      case Failure(f) => Failure(PythonFault(f))
    else if 200 <= r.status < 300 then
      if responseDataHandler.Some? then Success(Handled(responseDataHandler.value(r)))
      else
        match ClassifyBody(r)
        case Success(b) => Success(Data(b))
        case Failure(f) => Failure(PythonFault(f))
    else if specialStatusHandler.Some? then Success(Nothing)
    else Failure(UnhandledStatus(r.status))
  }

  /** Every status from 400 up raises `RequestFailed` carrying that status and the extracted message. */
  lemma FailureStatuses(r: Response, responseDataHandler: Option<Handler>, specialStatusHandler: Option<Handler>)
    requires r.status >= 400
    ensures var v := Dispatch(r, responseDataHandler, specialStatusHandler);
            && v.Failure?
            && (FailureMessage(r).Success? ==> v.error == RequestFailed(r.status, FailureMessage(r).value))
  {
  }

  /** A top-level `briefSummary` of a JSON error body is the message. */
  lemma TopLevelSummaryIsMessage(r: Response, body: map<string, Json>)
    requires r.status >= 400
    requires r.contentType.Some? && IsJsonContentType(r.contentType.value)
    requires r.json == Some(Obj(body)) && "briefSummary" in body
    ensures Dispatch(r, None, None) == Failure(RequestFailed(r.status, body["briefSummary"]))
  {
  }

  /**
   * The two clients disagree on where the summary lives: for a body whose
   * only summary is nested under `error`, the legacy client reports the
   * text while the public client reports the summary.
   */
  lemma NestedSummaryOnlyInPublicClient(r: Response, summary: Json)
    requires 400 <= r.status < 600
    requires r.contentType.Some? && IsJsonContentType(r.contentType.value)
    requires r.json == Some(Obj(map["error" := Obj(map["briefSummary" := summary])]))
    ensures Dispatch(r, None, None) == Failure(RequestFailed(r.status, Str(r.text)))
    ensures Connections.ProcessResponse(r, None, None).Raised?
    ensures Connections.ProcessResponse(r, None, None).exception.error.message == summary
  {
    Errors.NestedSummaryIsMessage(r, summary, map[]);
  }

  /** A success status yields the handler's result, or the body unwrapped exactly as by the public client. */
  lemma SuccessStatuses(r: Response, responseDataHandler: Option<Handler>, specialStatusHandler: Option<Handler>)
    requires 200 <= r.status < 300
    ensures responseDataHandler.Some? ==>
              Dispatch(r, responseDataHandler, specialStatusHandler) == Success(Handled(responseDataHandler.value(r)))
    ensures responseDataHandler.None? && ClassifyBody(r).Success? ==>
              Dispatch(r, responseDataHandler, specialStatusHandler) == Success(Data(ClassifyBody(r).value))
    ensures responseDataHandler.None? && r.status != 204 ==>
              (Dispatch(r, None, specialStatusHandler).Success? <==> Connections.ProcessResponse(r, None, None).Data?)
  {
  }

  /** Any other status returns None after the special handler, or raises `UnhandledStatus`. */
  lemma OtherStatuses(r: Response, responseDataHandler: Option<Handler>, specialStatusHandler: Option<Handler>)
    requires r.status < 200 || 300 <= r.status < 400
    ensures specialStatusHandler.Some? ==> Dispatch(r, responseDataHandler, specialStatusHandler) == Success(Nothing)
    ensures specialStatusHandler.None? ==>
              Dispatch(r, responseDataHandler, specialStatusHandler) == Failure(UnhandledStatus(r.status))
  {
  }

  /** `RequestFailed.__str__`: the code, then a space and the message unless it is None. */
  function FailedString(statusCode: int, message: Json): (s: Result<string, Fault>)
    ensures s.Success? <==> message.Null? || message.Str?
  {
    var head := IntToString(statusCode);
    match message
    case Null => Success(head)
    case Str(m) => Success(head + " " + m)
    case _ => Failure(TypeError("can only concatenate str to str"))
  }

  /** The string form starts with the status code, which reads back, and ends with the message. */
  lemma {:induction false} FailedStringReadsBack(statusCode: nat, message: Json)
    requires message.Null? || message.Str?
    ensures var s := FailedString(statusCode, message).value;
            var d := NatToString(statusCode);
            && StartsWith(s, d)
            && ParseNat(s[..|d|]) == statusCode
            && (message.Null? ==> s == d)
            && (message.Str? ==> s[|d|..] == " " + message.s)
  {
    ParseNatToString(statusCode);
  }

  /** `entity[key]` on what a call returned. */
  function Subscript(v: Value, key: string): Result<Json, Fault> {
    match v
    case Data(Entry(j)) => Index(j, key)
    case Data(Whole(j)) => Index(j, key)
    case Handled(j) => Index(j, key)
    case Data(TextBody(_)) => Failure(TypeError("string indices must be integers"))
    case Data(Bytes(_)) => Failure(TypeError("byte indices must be integers"))
    case Nothing => Failure(TypeError("'NoneType' object is not subscriptable"))
  }

  /** The login body, which the source serialises with `json.dumps` before posting it. */
  function LoginData(userName: string, password: string): Json {
    Obj(map["userId" := Str(userName), "password" := Str(password)])
  }

  class Client {
    const baseUrl: string
    const server: Request -> Response
    ghost var sent: seq<Request>

    constructor(baseUrl: string, server: Request -> Response)
      ensures this.baseUrl == baseUrl && this.server == server && sent == []
    {
      this.baseUrl := baseUrl;
      this.server := server;
      sent := [];
    }

    /** The request `get` or `post` sends: copied parameters, copied headers, the ticket's credential on top. */
    function RequestFor(verb: Verb, api: string, opUrl: string, ticket: Option<string>,
                        params: Option<Dict<Param>>, headers: Option<Dict<string>>, data: Option<Json>): Request
    {
      Request(verb, LegacyUrl(baseUrl, api, opUrl), Copied(params.GetOr([])),
              Connections.Authorized(Copied(headers.GetOr([])), ticket), [], data, [])
    }

    /** `get` and `post`: copy, authorise, send one request, dispatch on the status. */
    method Call(verb: Verb, api: string, opUrl: string, ticket: Option<string>, data: Option<Json>,
                params: Option<Dict<Param>>, headers: Option<Dict<string>>,
                responseDataHandler: Option<Handler>, specialStatusHandler: Option<Handler>)
      returns (r: Result<Value, Exception>)
      modifies this
      ensures sent == old(sent) + [RequestFor(verb, api, opUrl, ticket, params, headers, data)]
      ensures r == Dispatch(server(sent[|sent| - 1]), responseDataHandler, specialStatusHandler)
    {
      var url := LegacyUrl(baseUrl, api, opUrl);
      var effParams := Connections.CopyPairs(params);
      var effHeaders := Connections.CopyPairs(headers);
      if ticket.Some? {
        effHeaders := Set(effHeaders, Connections.AuthorizationHeader, Connections.BasicCredential(ticket.value));
      }
      var request := Request(verb, url, effParams, effHeaders, [], data, []);
      sent := sent + [request];
      r := Dispatch(server(request), responseDataHandler, specialStatusHandler);
    }

    method Get(api: string, opUrl: string, ticket: Option<string>,
               params: Option<Dict<Param>>, headers: Option<Dict<string>>,
               responseDataHandler: Option<Handler>, specialStatusHandler: Option<Handler>)
      returns (r: Result<Value, Exception>)
      modifies this
      ensures sent == old(sent) + [RequestFor(Verb.Get, api, opUrl, ticket, params, headers, None)]
      ensures r == Dispatch(server(sent[|sent| - 1]), responseDataHandler, specialStatusHandler)
    {
      r := Call(Verb.Get, api, opUrl, ticket, None, params, headers, responseDataHandler, specialStatusHandler);
    }

    method Post(api: string, opUrl: string, ticket: Option<string>, data: Json,
                params: Option<Dict<Param>>, headers: Option<Dict<string>>,
                responseDataHandler: Option<Handler>, specialStatusHandler: Option<Handler>)
      returns (r: Result<Value, Exception>)
      modifies this
      ensures sent == old(sent) + [RequestFor(Verb.Post, api, opUrl, ticket, params, headers, Some(data))]
      ensures r == Dispatch(server(sent[|sent| - 1]), responseDataHandler, specialStatusHandler)
    {
      r := Call(Verb.Post, api, opUrl, ticket, Some(data), params, headers, responseDataHandler, specialStatusHandler);
    }

    /** `login`: posts the credentials without a ticket and returns the `id` of the ticket entity. */
    method Login(userName: string, password: string) returns (r: Result<Json, Exception>)
      modifies this
      ensures sent == old(sent) + [RequestFor(Verb.Post, "authentication", "tickets", None, None, None,
                                              Some(LoginData(userName, password)))]
      ensures var v := Dispatch(server(sent[|sent| - 1]), None, None);
              && (v.Failure? ==> r == Failure(v.error))
              && (v.Success? ==> r == match Subscript(v.value, "id")
                                      case Success(id) => Success(id)
                                      case Failure(f) => Failure(PythonFault(f)))
    {
      var v := Post("authentication", "tickets", None, LoginData(userName, password), None, None, None, None);
      if v.Failure? {
        return Failure(v.error);
      }
      var id := Subscript(v.value, "id");
      if id.Failure? {
        return Failure(PythonFault(id.error));
      }
      r := Success(id.value);
    }
  }

  /** A caller-supplied `Authorization` header never survives a ticket; every other header does. */
  lemma CredentialOverridesCallerHeader(c: Client, api: string, opUrl: string, t: string,
                                        params: Option<Dict<Param>>, headers: Dict<string>, data: Option<Json>)
    requires UniqueKeys(headers)
    ensures var h := c.RequestFor(Verb.Get, api, opUrl, Some(t), params, Some(headers), data).headers;
            && Lookup(h, Connections.AuthorizationHeader) == Some(Connections.BasicCredential(t))
            && forall k :: k != Connections.AuthorizationHeader ==> Lookup(h, k) == Lookup(headers, k)
  {
    CopiedIsIdentity(headers);
  }

  /** `Connection`: a client and, once `connect` has run, the ticket it obtained. */
  class Connection {
    const client: Client
    /** The `ticket` attribute; None until `connect` assigns it. */
    var ticket: Option<Json>

    constructor(client: Client)
      ensures this.client == client && ticket == None
    {
      this.client := client;
      ticket := None;
    }

    /** `connect`: log in and keep the ticket; a failed login leaves the attribute as it was. */
    method Connect(userName: string, password: string) returns (r: Result<(), Exception>)
      modifies this, client
      ensures client.sent == old(client.sent) + [client.RequestFor(Verb.Post, "authentication", "tickets", None,
                                                                   None, None, Some(LoginData(userName, password)))]
      ensures var v := Dispatch(client.server(client.sent[|client.sent| - 1]), None, None);
              var id := if v.Success? then Subscript(v.value, "id") else Failure(KeyError("id"));
              && (r.Success? <==> v.Success? && id.Success?)
              && (r.Success? ==> ticket == Some(id.value))
              && (r.Failure? ==> ticket == old(ticket))
    {
      var id := client.Login(userName, password);
      if id.Failure? {
        return Failure(id.error);
      }
      ticket := Some(id.value);
      r := Success(());
    }

    /** The value of `self.connection.ticket` as a caller passes it on. */
    function TicketArgument(): (t: Result<Option<string>, Fault>)
      reads this
      ensures ticket.None? ==> t == Failure(AttributeError("ticket"))
      ensures ticket == Some(Null) ==> t == Success(None)
      ensures t.Success? && t.value.Some? <==> ticket.Some? && ticket.value.Str?
    {
      match ticket
      case None => Failure(AttributeError("ticket"))
      case Some(Null) => Success(None)
      case Some(Str(s)) => Success(Some(s))
      case Some(_) => Failure(TypeError("encoding without a string argument"))
    }
  }

  /** The module-level `connect`: a new client, a new connection, one login. */
  method Connect(baseUrl: string, server: Request -> Response, userName: string, password: string)
    returns (connection: Connection, r: Result<(), Exception>)
    ensures fresh(connection) && fresh(connection.client)
    ensures connection.client.baseUrl == baseUrl && connection.client.server == server
    ensures |connection.client.sent| == 1
    ensures connection.client.sent[0] == connection.client.RequestFor(Verb.Post, "authentication", "tickets",
                                           None, None, None, Some(LoginData(userName, password)))
    ensures var v := Dispatch(server(connection.client.sent[0]), None, None);
            var id := if v.Success? then Subscript(v.value, "id") else Failure(KeyError("id"));
            && (r.Success? <==> v.Success? && id.Success?)
            && (r.Success? ==> connection.ticket == Some(id.value))
            && (r.Failure? ==> connection.ticket == None)
  {
    var client := new Client(baseUrl, server);
    connection := new Connection(client);
    r := connection.Connect(userName, password);
  }
}
