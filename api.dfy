/** service/api.ts: the shared HTTP client. A request interceptor attaches the
    stored access token as a bearer credential (section 2.1 of RFC 6750); a
    response interceptor passes successes through and turns every failure into
    a rejected value. The transport itself is a parameter: a backend maps a
    request to what axios reports for it. */
module Api {
  import opened Wrappers
  import opened Js

  const BaseUrl := "http://localhost:3001/api/v1"
  const TokenKey := "accessToken"
  const AuthorizationHeader := "Authorization"
  const ServerErrorMessage := "Error en la respuesta del servidor."
  const NoConnectionMessage := "No se pudo conectar al servidor. Intente de nuevo."
  const UnexpectedMessage := "Ocurrió un error inesperado."

  datatype Method = Get | Post | Patch | Delete

  /** A request: method, path under BaseUrl, and body (Undefined when none). */
  datatype Request = Request(verb: Method, path: string, body: Value)

  /** An axios error: `response` holds the body of a response outside the 2xx
      range, if one arrived; `request` says whether a request went out. */
  datatype AxiosError = AxiosError(response: Option<Value>, request: bool)

  datatype Transport = Answered(data: Value) | Failed(error: AxiosError)

  type Backend = Request -> Transport

  // ------------------------------------------------------- request interceptor

  /** The credentials of RFC 6750, section 2.1: the scheme, one space, the token. */
  function BearerCredentials(token: string): string {
    "Bearer " + token
  }

  /** Reads a token back out of bearer credentials. */
  function ParseBearer(credentials: string): Option<string> {
    if |credentials| >= 7 && credentials[..7] == "Bearer " then Some(credentials[7..]) else None
  }

  lemma BearerRoundTrip(token: string)
    ensures ParseBearer(BearerCredentials(token)) == Some(token)
  {
    assert BearerCredentials(token)[..7] == "Bearer ";
    assert BearerCredentials(token)[7..] == token;
  }

  /** `localStorage.getItem("accessToken")` when it is truthy: present and non-empty. */
  function StoredToken(storage: map<string, string>): (t: Option<string>)
    ensures t.Some? <==> TokenKey in storage && storage[TokenKey] != ""
    ensures t.Some? ==> t.value == storage[TokenKey]
  {
    if TokenKey in storage && storage[TokenKey] != "" then Some(storage[TokenKey]) else None
  }

  /** The headers after the interceptor: with a token and a header object,
      `Authorization` carries the bearer credentials and no other header
      changes; otherwise nothing changes. */
  function WithAuthorization(headers: Option<map<string, string>>, storage: map<string, string>)
    : (h: Option<map<string, string>>)
    ensures StoredToken(storage).None? || headers.None? ==> h == headers
    ensures StoredToken(storage).Some? && headers.Some? ==>
              && h.Some? && h.value.Keys == headers.value.Keys + {AuthorizationHeader}
              && ParseBearer(h.value[AuthorizationHeader]) == StoredToken(storage)
              && forall k :: k in headers.value && k != AuthorizationHeader ==> h.value[k] == headers.value[k]
  {
    match StoredToken(storage)
    case None => headers
    case Some(token) =>
      if headers.None? then headers
      else
        BearerRoundTrip(token);
        Some(headers.value[AuthorizationHeader := BearerCredentials(token)])
  }

  /** An outgoing request's configuration; the interceptor edits its headers in place. */
  class RequestConfig {
    var headers: Option<map<string, string>>

    constructor (headers: Option<map<string, string>>)
      ensures this.headers == headers
    {
      this.headers := headers;
    }

    method AttachToken(storage: map<string, string>)
      modifies this
      ensures headers == WithAuthorization(old(headers), storage)
    {
      var token := StoredToken(storage);
      if token.Some? && headers.Some? {
        headers := Some(headers.value[AuthorizationHeader := BearerCredentials(token.value)]);
      }
    }
  }

  // ------------------------------------------------------ response interceptor

  /** The value the error handler rejects with: the server's body, or a fixed
      message object when the body is falsy, when no response came back, or
      when the request never went out. The value is always truthy. */
  function Rejection(e: AxiosError): (v: Value)
    ensures Truthy(v)
    ensures e.response.Some? && Truthy(e.response.value) ==> v == e.response.value
    ensures e.response.Some? && !Truthy(e.response.value) ==> v == MessageObject(ServerErrorMessage)
    ensures e.response.None? && e.request ==> v == MessageObject(NoConnectionMessage)
    ensures e.response.None? && !e.request ==> v == MessageObject(UnexpectedMessage)
  {
    if e.response.Some? then Or(e.response.value, MessageObject(ServerErrorMessage))
    else if e.request then MessageObject(NoConnectionMessage)
    else MessageObject(UnexpectedMessage)
  }

  /** The response interceptor: a success is returned unchanged, a failure is
      never turned into a success. */
  function Intercept(t: Transport): (r: Result<Value, Value>)
    ensures t.Answered? <==> r.Success?
    ensures t.Answered? ==> r.value == t.data
    ensures t.Failed? ==> r.error == Rejection(t.error)
  {
    match t
    case Answered(data) => Success(data)
    case Failed(e) => Failure(Rejection(e))
  }

  /** One call through the client. */
  function Send(backend: Backend, req: Request): Result<Value, Value> {
    Intercept(backend(req))
  }

  /** When no response arrived, the rejection is one of the two fixed
      messages, chosen by whether the request went out. */
  lemma NoResponseMessages(e: AxiosError)
    requires e.response.None?
    ensures Js.Get(Rejection(e), "message") ==
            Some(Str(if e.request then NoConnectionMessage else UnexpectedMessage))
  {
  }
}
