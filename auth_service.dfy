/** service/authService.ts: log in, and register followed by a log-in with the
    same credentials. Every function returns its result together with the
    requests it made, in order. */
module AuthService {
  import opened Wrappers
  import opened Js
  import opened Schemas
  import Api
  import Endpoints

  /** The camelCase response the rest of the program uses. */
  datatype LoginResponse = LoginResponse(
    accessToken: string, refreshToken: string, tokenType: string,
    expiresIn: real, user: LoginUserInfo)

  /** What a failed call throws: the client's rejection value, or the schema
      error of a malformed response. */
  datatype AuthError = Rejected(body: Value) | InvalidResponse

  datatype Traced<T> = Traced(result: T, calls: seq<Api.Request>)

  /** `mapLoginResponse`: renames the four token fields and passes the user
      record through unchanged. */
  function MapLoginResponse(raw: RawLoginResponse): (m: LoginResponse)
    ensures m.accessToken == raw.access_token && m.refreshToken == raw.refresh_token
    ensures m.tokenType == raw.token_type && m.expiresIn == raw.expires_in
    ensures m.user == raw.user
  {
    LoginResponse(raw.access_token, raw.refresh_token, raw.token_type, raw.expires_in, raw.user)
  }

  function UnmapLoginResponse(m: LoginResponse): RawLoginResponse {
    RawLoginResponse(m.accessToken, m.refreshToken, m.tokenType, m.expiresIn, m.user)
  }

  /** The mapping loses nothing and invents nothing: it is a bijection. */
  lemma MapLoginResponseBijective(raw: RawLoginResponse, m: LoginResponse)
    ensures UnmapLoginResponse(MapLoginResponse(raw)) == raw
    ensures MapLoginResponse(UnmapLoginResponse(m)) == m
  {
  }

  function LoginRequest(l: Login): Api.Request {
    Api.Request(Api.Post, Endpoints.AuthLogin, LoginValue(l))
  }

  function CreateUserRequest(u: UserCreate): Api.Request {
    Api.Request(Api.Post, Endpoints.Base(Endpoints.Users), UserCreateValue(u))
  }

  /** `loginUser`: one POST to the login path; a response is mapped only when
      it passed `loginResponseSchema`. */
  function LoginUser(l: Login, backend: Api.Backend, c: Checks)
    : (t: Traced<Result<LoginResponse, AuthError>>)
    ensures t.calls == [LoginRequest(l)]
    ensures t.result.Success? <==>
              Api.Send(backend, LoginRequest(l)).Success?
              && ParseLoginResponse(Api.Send(backend, LoginRequest(l)).value, c).Some?
    ensures t.result.Success? ==>
              UnmapLoginResponse(t.result.value)
              == ParseLoginResponse(Api.Send(backend, LoginRequest(l)).value, c).value
    ensures t.result.Success? ==> c.isEmail(t.result.value.user.email)
    ensures Api.Send(backend, LoginRequest(l)).Failure? ==>
              t.result == Failure(Rejected(Api.Send(backend, LoginRequest(l)).error))
  {
    var req := LoginRequest(l);
    match Api.Send(backend, req)
    case Failure(body) => Traced(Failure(Rejected(body)), [req])
    case Success(data) =>
      match ParseLoginResponse(data, c)
      case None => Traced(Failure(InvalidResponse), [req])
      case Some(raw) => Traced(Success(MapLoginResponse(raw)), [req])
  }

  /** `registerUser`: create the user, and only if that succeeded log in with
      exactly the registered email and password, returning the log-in result. */
  function RegisterUser(u: UserCreate, backend: Api.Backend, c: Checks)
    : (t: Traced<Result<LoginResponse, AuthError>>)
    ensures |t.calls| >= 1 && t.calls[0] == CreateUserRequest(u)
    ensures Api.Send(backend, CreateUserRequest(u)).Failure? ==>
              t.calls == [CreateUserRequest(u)]
              && t.result == Failure(Rejected(Api.Send(backend, CreateUserRequest(u)).error))
    ensures Api.Send(backend, CreateUserRequest(u)).Success? ==>
              t.calls == [CreateUserRequest(u), LoginRequest(Login(u.email, u.password))]
              && t.result == LoginUser(Login(u.email, u.password), backend, c).result
    ensures t.result.Success? ==> |t.calls| == 2
  {
    var create := CreateUserRequest(u);
    match Api.Send(backend, create)
    case Failure(body) => Traced(Failure(Rejected(body)), [create])
    case Success(_) =>
      var login := LoginUser(Login(u.email, u.password), backend, c);
      Traced(login.result, [create] + login.calls)
  }
}
