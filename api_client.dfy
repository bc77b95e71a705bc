/**
 * The HTTP client façade: attaches the session id to every request when it
 * has one, adopts a session id from a response only while it has none, and
 * hands back the response body or the transport's error. The transport is
 * a function from request to raw response or network failure.
 */
module ApiClient {
  import opened Optional

  /** The header carrying the session identifier, both ways. */
  const SessionHeader := "x-session-id"

  /** The headers every request starts with. */
  const DefaultHeaders: map<string, string> := map["Content-Type" := "application/json"]

  datatype Verb = Get | Post | Put | Delete

  /** A request as the interceptors see it; bodies are serialised JSON. */
  datatype Request = Request(
    verb: Verb, baseUrl: string, url: string, headers: map<string, string>, body: Option<string>)

  /** A raw response; header names are lower-case. */
  datatype Response = Response(status: int, headers: map<string, string>, body: string)

  /** Why a call rejected: the network failed or timed out, or the status was not 2xx. */
  datatype RequestError = NetworkFailure(message: string) | StatusError(status: int, body: string)

  /** The transport's default acceptance test. */
  predicate IsSuccessStatus(status: int) {
    200 <= status < 300
  }

  /** The session id a response offers: a present, non-empty `x-session-id` header. */
  function OfferedSessionId(r: Response): Option<string> {
    if SessionHeader in r.headers && r.headers[SessionHeader] != "" then Some(r.headers[SessionHeader]) else None
  }

  /** JavaScript truthiness of a nullable string. */
  predicate Truthy(s: Option<string>) {
    s.Some? && s.value != ""
  }

  class ApiClient {
    const baseUrl: string
    var sessionId: Option<string>

    /** A client for the configured API origin, without a session yet. */
    constructor (baseUrl: string)
      ensures this.baseUrl == baseUrl && sessionId == None
    {
      this.baseUrl := baseUrl;
      sessionId := None;
    }

    /**
     * The request interceptor: the outgoing request carries the session
     * header exactly when the client holds a non-empty session id; nothing
     * else about the request changes.
     */
    function Intercept(req: Request): (r: Request)
      reads this
      ensures Truthy(sessionId) ==> SessionHeader in r.headers && r.headers[SessionHeader] == sessionId.value
      ensures !Truthy(sessionId) ==> r.headers == req.headers
      ensures forall h | h != SessionHeader ::
        (h in r.headers <==> h in req.headers) && (h in req.headers ==> r.headers[h] == req.headers[h])
      ensures r.verb == req.verb && r.baseUrl == req.baseUrl && r.url == req.url && r.body == req.body
    {
      if Truthy(sessionId) then req.(headers := req.headers[SessionHeader := sessionId.value]) else req
    }

    /** The session id after the response interceptor has seen `resp`. */
    function AdoptedSessionId(resp: Response): (r: Option<string>)
      reads this
      ensures Truthy(sessionId) ==> r == sessionId
      ensures !Truthy(sessionId) && OfferedSessionId(resp).Some? ==> r == OfferedSessionId(resp)
      ensures !Truthy(sessionId) && OfferedSessionId(resp).None? ==> r == sessionId
    {
      if OfferedSessionId(resp).Some? && !Truthy(sessionId) then OfferedSessionId(resp) else sessionId
    }

    /** The response interceptor: adopt the offered id only while none is held. */
    method OnResponse(resp: Response)
      modifies this
      ensures sessionId == old(AdoptedSessionId(resp))
    {
      var offered := OfferedSessionId(resp);
      if offered.Some? && !Truthy(sessionId) {
        sessionId := offered;
      }
    }

    /** `setSessionId(id)`: overwrites whatever was held. */
    method SetSessionId(id: string)
      modifies this
      ensures sessionId == Some(id)
    {
      sessionId := Some(id);
    }

    /**
     * One call: the request goes out through the interceptor; a 2xx
     * response passes the response interceptor and its body is returned
     * as it is; anything else is rejected once, without retry, and leaves
     * the session id alone.
     */
    method Send(verb: Verb, url: string, body: Option<string>, transport: Request -> Result<Response, string>)
      returns (r: Result<string, RequestError>)
      modifies this
      ensures var sent := old(Intercept(Request(verb, baseUrl, url, DefaultHeaders, body)));
        match transport(sent)
        case Err(msg) => r == Err(NetworkFailure(msg)) && sessionId == old(sessionId)
        case Ok(resp) =>
          if IsSuccessStatus(resp.status) then r == Ok(resp.body) && sessionId == old(AdoptedSessionId(resp))
          else r == Err(StatusError(resp.status, resp.body)) && sessionId == old(sessionId)
    {
      var sent := Intercept(Request(verb, baseUrl, url, DefaultHeaders, body));
      var outcome := transport(sent);
      match outcome {
        case Err(msg) =>
          r := Err(NetworkFailure(msg));
        case Ok(resp) =>
          if IsSuccessStatus(resp.status) {
            OnResponse(resp);
            r := Ok(resp.body);
          } else {
            r := Err(StatusError(resp.status, resp.body));
          }
      }
    }

    method GetRequest(url: string, transport: Request -> Result<Response, string>) returns (r: Result<string, RequestError>)
      modifies this
      ensures var sent := old(Intercept(Request(Get, baseUrl, url, DefaultHeaders, None)));
        match transport(sent)
        case Err(msg) => r == Err(NetworkFailure(msg)) && sessionId == old(sessionId)
        case Ok(resp) =>
          if IsSuccessStatus(resp.status) then r == Ok(resp.body) && sessionId == old(AdoptedSessionId(resp))
          else r == Err(StatusError(resp.status, resp.body)) && sessionId == old(sessionId)
    {
      r := Send(Get, url, None, transport);
    }

    method PostRequest(url: string, body: Option<string>, transport: Request -> Result<Response, string>)
      returns (r: Result<string, RequestError>)
      modifies this
      ensures var sent := old(Intercept(Request(Post, baseUrl, url, DefaultHeaders, body)));
        match transport(sent)
        case Err(msg) => r == Err(NetworkFailure(msg)) && sessionId == old(sessionId)
        case Ok(resp) =>
          if IsSuccessStatus(resp.status) then r == Ok(resp.body) && sessionId == old(AdoptedSessionId(resp))
          else r == Err(StatusError(resp.status, resp.body)) && sessionId == old(sessionId)
    {
      r := Send(Post, url, body, transport);
    }

    method PutRequest(url: string, body: Option<string>, transport: Request -> Result<Response, string>)
      returns (r: Result<string, RequestError>)
      modifies this
      ensures var sent := old(Intercept(Request(Put, baseUrl, url, DefaultHeaders, body)));
        match transport(sent)
        case Err(msg) => r == Err(NetworkFailure(msg)) && sessionId == old(sessionId)
        case Ok(resp) =>
          if IsSuccessStatus(resp.status) then r == Ok(resp.body) && sessionId == old(AdoptedSessionId(resp))
          else r == Err(StatusError(resp.status, resp.body)) && sessionId == old(sessionId)
    {
      r := Send(Put, url, body, transport);
    }

    method DeleteRequest(url: string, transport: Request -> Result<Response, string>) returns (r: Result<string, RequestError>)
      modifies this
      ensures var sent := old(Intercept(Request(Delete, baseUrl, url, DefaultHeaders, None)));
        match transport(sent)
        case Err(msg) => r == Err(NetworkFailure(msg)) && sessionId == old(sessionId)
        case Ok(resp) =>
          if IsSuccessStatus(resp.status) then r == Ok(resp.body) && sessionId == old(AdoptedSessionId(resp))
          else r == Err(StatusError(resp.status, resp.body)) && sessionId == old(sessionId)
    {
      r := Send(Delete, url, None, transport);
    }
  }

  /**
   * Once a client holds a session id, no response replaces it: two
   * responses offering different ids leave the first one in place.
   */
  method FirstSessionIdSticks(baseUrl: string, first: string, second: string) returns (held: Option<string>)
    requires first != "" && second != ""
    ensures held == Some(first)
  {
    var client := new ApiClient(baseUrl);
    client.OnResponse(Response(200, map[SessionHeader := first], "{}"));
    client.OnResponse(Response(200, map[SessionHeader := second], "{}"));
    held := client.sessionId;
  }
}
