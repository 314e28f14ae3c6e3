/** contexts/AuthContext.tsx: the session store. Browser storage is a map from
    key to string; the provider keeps the signed-in user, the loading flag and
    the navigations it requested. JSON and number formatting come in through
    a `Js.Codec`, the library checks through a `Schemas.Checks`. */
module Session {
  import opened Wrappers
  import opened Js
  import opened Schemas
  import Api
  import AuthService

  const AccessTokenKey := Api.TokenKey
  const RefreshTokenKey := "refreshToken"
  const ExpiresInKey := "expiresIn"
  const UserKey := "user"
  const UserIdKey := "userId"

  /** `Object.values(STORAGE_KEYS)`, in declaration order. */
  const StorageKeys: seq<string> := [AccessTokenKey, RefreshTokenKey, ExpiresInKey, UserKey, UserIdKey]

  const AuthRoute := "/auth"

  predicate IsStorageKey(k: string) {
    k in StorageKeys
  }

  /** Storage after removing every session key; every other entry survives. */
  function Cleared(storage: map<string, string>): (s: map<string, string>)
    ensures forall k :: IsStorageKey(k) ==> k !in s
    ensures forall k :: !IsStorageKey(k) ==> (k in s <==> k in storage)
    ensures forall k :: k in s ==> s[k] == storage[k]
  {
    map k | k in storage && !IsStorageKey(k) :: storage[k]
  }

  /** The storage `saveSession` leaves: the access token, the decimal id and
      the serialised user always; the refresh token and the expiry only when
      truthy (a non-empty string, a non-zero number). */
  function SavedStorage(storage: map<string, string>, accessToken: string, userData: SessionUser,
                        refreshToken: Option<string>, expiresIn: Option<real>, codec: Codec)
    : (s: map<string, string>)
    ensures AccessTokenKey in s && s[AccessTokenKey] == accessToken
    ensures UserIdKey in s && s[UserIdKey] == codec.numberText(userData.id)
    ensures UserKey in s && s[UserKey] == codec.stringify(SessionUserValue(userData))
    ensures refreshToken.Some? && refreshToken.value != "" ==>
              RefreshTokenKey in s && s[RefreshTokenKey] == refreshToken.value
    ensures !(refreshToken.Some? && refreshToken.value != "") ==>
              (RefreshTokenKey in s <==> RefreshTokenKey in storage)
              && (RefreshTokenKey in s ==> s[RefreshTokenKey] == storage[RefreshTokenKey])
    ensures expiresIn.Some? && expiresIn.value != 0.0 ==>
              ExpiresInKey in s && s[ExpiresInKey] == codec.numberText(expiresIn.value)
    ensures !(expiresIn.Some? && expiresIn.value != 0.0) ==>
              (ExpiresInKey in s <==> ExpiresInKey in storage)
              && (ExpiresInKey in s ==> s[ExpiresInKey] == storage[ExpiresInKey])
    ensures forall k :: !IsStorageKey(k) ==>
              (k in s <==> k in storage) && (k in s ==> s[k] == storage[k])
  {
    var s1 := storage[AccessTokenKey := accessToken][UserIdKey := codec.numberText(userData.id)];
    var s2 := if refreshToken.Some? && refreshToken.value != "" then s1[RefreshTokenKey := refreshToken.value] else s1;
    var s3 := if expiresIn.Some? && expiresIn.value != 0.0 then s2[ExpiresInKey := codec.numberText(expiresIn.value)] else s2;
    s3[UserKey := codec.stringify(SessionUserValue(userData))]
  }

  /** The session user `login` and `register` build: id, email and role of
      the login response, with no name and no last name. */
  function AuthUser(info: LoginUserInfo): (u: SessionUser)
    ensures u.id == info.id && u.email == info.email && u.role == info.role
    ensures u.name.None? && u.lastName.None?
  {
    SessionUser(info.id, info.email, None, None, info.role)
  }

  /** What restoring a session from `storage` yields: no stored user (absent
      or empty) changes nothing; a stored user that does not parse or fails
      `sessionUserSchema` logs out; otherwise the parsed user is signed in. */
  datatype Restored = Kept | SignedIn(user: SessionUser) | LoggedOut

  function RestoreOutcome(storage: map<string, string>, codec: Codec, c: Checks): (r: Restored)
    ensures r.SignedIn? ==>
              UserKey in storage && codec.parse(storage[UserKey]).Some?
              && ParseSessionUser(codec.parse(storage[UserKey]).value, c) == Some(r.user)
    ensures r.Kept? <==> UserKey !in storage || storage[UserKey] == ""
    ensures UserKey in storage && storage[UserKey] != "" && codec.parse(storage[UserKey]).Some?
            && ParseSessionUser(codec.parse(storage[UserKey]).value, c).Some? ==>
              r == SignedIn(ParseSessionUser(codec.parse(storage[UserKey]).value, c).value)
    ensures r.LoggedOut? <==>
              UserKey in storage && storage[UserKey] != ""
              && (codec.parse(storage[UserKey]).None? || ParseSessionUser(codec.parse(storage[UserKey]).value, c).None?)
  {
    if UserKey !in storage || storage[UserKey] == "" then Kept
    else match codec.parse(storage[UserKey])
      case None => LoggedOut
      case Some(v) =>
        match ParseSessionUser(v, c)
        case None => LoggedOut
        case Some(u) => SignedIn(u)
  }

  /** The codec writes this user as non-empty text (JSON text of an object
      is never empty) and reads back what it wrote. */
  predicate ReadsBack(codec: Codec, u: SessionUser) {
    && codec.stringify(SessionUserValue(u)) != ""
    && codec.parse(codec.stringify(SessionUserValue(u))) == Some(SessionUserValue(u))
  }

  /** A saved session is restored as the same user, whatever else storage held. */
  lemma SaveThenRestore(storage: map<string, string>, accessToken: string, u: SessionUser,
                        refreshToken: Option<string>, expiresIn: Option<real>, codec: Codec, c: Checks)
    requires ReadsBack(codec, u) && c.isEmail(u.email)
    ensures RestoreOutcome(SavedStorage(storage, accessToken, u, refreshToken, expiresIn, codec), codec, c)
            == SignedIn(u)
  {
    var s := SavedStorage(storage, accessToken, u, refreshToken, expiresIn, codec);
    SessionUserRoundTrip(u, c);
  }

  /** After a logout, a restore finds nothing and changes nothing. */
  lemma LogoutThenRestore(storage: map<string, string>, codec: Codec, c: Checks)
    ensures RestoreOutcome(Cleared(storage), codec, c) == Kept
  {
  }

  /** The provider of AuthContext.tsx. */
  class AuthProvider {
    var storage: map<string, string>
    var user: Option<SessionUser>
    var loading: bool
    /** Routes pushed to the router, oldest first. */
    var navigations: seq<string>

    /** Mounting: no user yet, loading. */
    constructor (storage: map<string, string>)
      ensures this.storage == storage && user.None? && loading && navigations == []
    {
      this.storage := storage;
      user := None;
      loading := true;
      navigations := [];
    }

    /** `saveSession`: writes the keys one by one, then sets the user. */
    method SaveSession(accessToken: string, userData: SessionUser,
                       refreshToken: Option<string>, expiresIn: Option<real>, codec: Codec)
      modifies this
      ensures storage == SavedStorage(old(storage), accessToken, userData, refreshToken, expiresIn, codec)
      ensures user == Some(userData)
      ensures loading == old(loading) && navigations == old(navigations)
    {
      storage := storage[AccessTokenKey := accessToken];
      storage := storage[UserIdKey := codec.numberText(userData.id)];
      if refreshToken.Some? && refreshToken.value != "" {
        storage := storage[RefreshTokenKey := refreshToken.value];
      }
      if expiresIn.Some? && expiresIn.value != 0.0 {
        storage := storage[ExpiresInKey := codec.numberText(expiresIn.value)];
      }
      storage := storage[UserKey := codec.stringify(SessionUserValue(userData))];
      user := Some(userData);
    }

    /** `logout`: removes each session key in turn, forgets the user and
        navigates to the sign-in page. */
    method Logout()
      modifies this
      ensures storage == Cleared(old(storage))
      ensures user.None? && navigations == old(navigations) + [AuthRoute]
      ensures loading == old(loading)
    {
      var i := 0;
      while i < |StorageKeys|
        invariant 0 <= i <= |StorageKeys|
        invariant storage == map k | k in old(storage) && k !in StorageKeys[..i] :: old(storage)[k]
        invariant user == old(user) && loading == old(loading) && navigations == old(navigations)
      {
        storage := map k | k in storage && k != StorageKeys[i] :: storage[k];
        i := i + 1;
      }
      assert StorageKeys[..|StorageKeys|] == StorageKeys;
      user := None;
      navigations := navigations + [AuthRoute];
    }

    /** `restoreSession`: a parse failure logs out; loading ends false. */
    method RestoreSession(codec: Codec, c: Checks)
      modifies this
      ensures !loading
      ensures RestoreOutcome(old(storage), codec, c).Kept? ==>
                storage == old(storage) && user == old(user) && navigations == old(navigations)
      ensures RestoreOutcome(old(storage), codec, c).SignedIn? ==>
                storage == old(storage) && navigations == old(navigations)
                && user == Some(RestoreOutcome(old(storage), codec, c).user)
      ensures RestoreOutcome(old(storage), codec, c).LoggedOut? ==>
                storage == Cleared(old(storage)) && user.None?
                && navigations == old(navigations) + [AuthRoute]
    {
      if UserKey in storage && storage[UserKey] != "" {
        var parsed := codec.parse(storage[UserKey]);
        if parsed.None? {
          Logout();
        } else {
          var u := ParseSessionUser(parsed.value, c);
          if u.None? {
            Logout();
          } else {
            user := u;
          }
        }
      }
      loading := false;
    }

    /** `login`: on success saves the session built from the response;
        on failure (the call's error propagates) nothing changes. */
    method Login(credentials: Login, backend: Api.Backend, codec: Codec, c: Checks)
      returns (r: Result<(), AuthService.AuthError>, calls: seq<Api.Request>)
      modifies this
      ensures calls == [AuthService.LoginRequest(credentials)]
      ensures r.Success? <==> AuthService.LoginUser(credentials, backend, c).result.Success?
      ensures r.Failure? ==> r.error == AuthService.LoginUser(credentials, backend, c).result.error
      ensures r.Failure? ==> storage == old(storage) && user == old(user)
      ensures r.Success? ==>
                var data := AuthService.LoginUser(credentials, backend, c).result.value;
                && user == Some(AuthUser(data.user))
                && storage == SavedStorage(old(storage), data.accessToken, AuthUser(data.user),
                                           Some(data.refreshToken), Some(data.expiresIn), codec)
      ensures loading == old(loading) && navigations == old(navigations)
    {
      var t := AuthService.LoginUser(credentials, backend, c);
      calls := t.calls;
      if t.result.Failure? {
        return Failure(t.result.error), calls;
      }
      var data := t.result.value;
      SaveSession(data.accessToken, AuthUser(data.user), Some(data.refreshToken), Some(data.expiresIn), codec);
      r := Success(());
    }

    /** `register`: like `login`, after `registerUser`. */
    method Register(formData: UserCreate, backend: Api.Backend, codec: Codec, c: Checks)
      returns (r: Result<(), AuthService.AuthError>, calls: seq<Api.Request>)
      modifies this
      ensures calls == AuthService.RegisterUser(formData, backend, c).calls
      ensures r.Success? <==> AuthService.RegisterUser(formData, backend, c).result.Success?
      ensures r.Failure? ==> r.error == AuthService.RegisterUser(formData, backend, c).result.error
      ensures r.Failure? ==> storage == old(storage) && user == old(user)
      ensures r.Success? ==>
                var data := AuthService.RegisterUser(formData, backend, c).result.value;
                && user == Some(AuthUser(data.user))
                && storage == SavedStorage(old(storage), data.accessToken, AuthUser(data.user),
                                           Some(data.refreshToken), Some(data.expiresIn), codec)
      ensures loading == old(loading) && navigations == old(navigations)
    {
      var t := AuthService.RegisterUser(formData, backend, c);
      calls := t.calls;
      if t.result.Failure? {
        return Failure(t.result.error), calls;
      }
      var data := t.result.value;
      SaveSession(data.accessToken, AuthUser(data.user), Some(data.refreshToken), Some(data.expiresIn), codec);
      r := Success(());
    }
  }

  /** A session saved by `login` or `register` is restored as the same user,
      given a codec that reads back what it writes. */
  lemma LoginSessionRestores(storage: map<string, string>, data: AuthService.LoginResponse, codec: Codec, c: Checks)
    requires ReadsBack(codec, AuthUser(data.user)) && c.isEmail(data.user.email)
    ensures RestoreOutcome(SavedStorage(storage, data.accessToken, AuthUser(data.user),
                                        Some(data.refreshToken), Some(data.expiresIn), codec), codec, c)
            == SignedIn(AuthUser(data.user))
  {
    SaveThenRestore(storage, data.accessToken, AuthUser(data.user), Some(data.refreshToken),
                    Some(data.expiresIn), codec, c);
  }
}
