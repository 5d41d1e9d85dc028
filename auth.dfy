/**
  * The client-side token store and session check of utils/auth.ts.
  *
  * The browser cookie jar is a map from cookie name to a value and an expiry
  * instant. Time is an integer number of milliseconds since the epoch, the unit
  * of `Date.now()`. A cookie can be read while the clock is before its expiry.
  */
module Auth {
  import opened Wrappers

  const AccessTokenKey: string := "access_token"
  const IdTokenKey: string := "id_token"
  const RefreshTokenKey: string := "refresh_token"

  /** One day in milliseconds: js-cookie's unit for `expires`. */
  const DayMs: int := 86_400_000
  /** `expires: 1 / 24` (one hour). */
  const AccessLifetimeMs: int := DayMs / 24
  /** `expires: 1` (one day). */
  const IdLifetimeMs: int := DayMs
  /** `expires: 30` (thirty days). */
  const RefreshLifetimeMs: int := 30 * DayMs

  datatype Cookie = Cookie(value: string, expiresAt: int)

  type Jar = map<string, Cookie>

  /** The claims of a decoded JSON Web Token that this code reads. `exp` is a NumericDate in seconds. */
  datatype Claims = Claims(exp: Option<int>, sub: string, name: string, email: string)

  /** `jwtDecode`: a partial decoder; `None` stands for the exception it throws. */
  type Decoder = string -> Option<Claims>

  /** `Cookies.get(key)`: the value of an unexpired cookie, or absent. */
  function Lookup(jar: Jar, key: string, now: int): (r: Option<string>)
    ensures r.Some? <==> key in jar && now < jar[key].expiresAt
    ensures r.Some? ==> r.value == jar[key].value
  {
    if key in jar && now < jar[key].expiresAt then Some(jar[key].value) else None
  }

  /** `getAccessToken()`: the unexpired `access_token` cookie. */
  function AccessToken(jar: Jar, now: int): (r: Option<string>)
    ensures r.Some? <==> AccessTokenKey in jar && now < jar[AccessTokenKey].expiresAt
    ensures r.Some? ==> r.value == jar[AccessTokenKey].value
  {
    Lookup(jar, AccessTokenKey, now)
  }

  /** `getIdToken()`: the unexpired `id_token` cookie. */
  function IdToken(jar: Jar, now: int): (r: Option<string>)
    ensures r.Some? <==> IdTokenKey in jar && now < jar[IdTokenKey].expiresAt
    ensures r.Some? ==> r.value == jar[IdTokenKey].value
  {
    Lookup(jar, IdTokenKey, now)
  }

  /** `getRefreshToken()`: the unexpired `refresh_token` cookie. */
  function RefreshToken(jar: Jar, now: int): (r: Option<string>)
    ensures r.Some? <==> RefreshTokenKey in jar && now < jar[RefreshTokenKey].expiresAt
    ensures r.Some? ==> r.value == jar[RefreshTokenKey].value
  {
    Lookup(jar, RefreshTokenKey, now)
  }

  /** The jar after `setTokens` at time `now`: the three cookies with their own lifetimes. */
  function WithTokens(jar: Jar, access: string, id: string, refresh: string, now: int): Jar
  {
    jar[AccessTokenKey := Cookie(access, now + AccessLifetimeMs)]
       [IdTokenKey := Cookie(id, now + IdLifetimeMs)]
       [RefreshTokenKey := Cookie(refresh, now + RefreshLifetimeMs)]
  }

  /** The jar after `removeTokens`. */
  function WithoutTokens(jar: Jar): Jar
  {
    jar - {AccessTokenKey, IdTokenKey, RefreshTokenKey}
  }

  /** JavaScript truthiness of a cookie read: `undefined` and `""` are both falsy. */
  predicate Present(token: Option<string>)
  {
    token.Some? && token.value != ""
  }

  /**
    * `isAuthenticated()`: the access token is present, decodes, and its `exp`
    * claim is strictly later than now. `exp > Date.now() / 1000` is the same
    * comparison as `exp * 1000 > now` on integers. A missing `exp` compares as
    * `undefined > x`, which is false.
    */
  function IsAuthenticated(jar: Jar, now: int, decode: Decoder): (authenticated: bool)
    ensures authenticated ==> Present(AccessToken(jar, now))
    ensures authenticated <==>
      && Present(AccessToken(jar, now))
      && decode(AccessToken(jar, now).value).Some?
      && decode(AccessToken(jar, now).value).value.exp.Some?
      && now < decode(AccessToken(jar, now).value).value.exp.value * 1000
  {
    var token := AccessToken(jar, now);
    if !Present(token) then false
    else match decode(token.value)
      case None => false
      case Some(claims) => claims.exp.Some? && claims.exp.value * 1000 > now
  }

  /** `getUserInfo()`: the decoded id token, without any expiry check. */
  function GetUserInfo(jar: Jar, now: int, decode: Decoder): (info: Option<Claims>)
    ensures info.Some? ==> Present(IdToken(jar, now)) && info == decode(IdToken(jar, now).value)
    ensures !Present(IdToken(jar, now)) ==> info.None?
  {
    var token := IdToken(jar, now);
    if !Present(token) then None else decode(token.value)
  }

  /** The shared cookie jar that `setTokens` and `removeTokens` change in place. */
  class CookieJar {
    var cookies: Jar

    /** A jar with no cookies. Starting empty is a choice of the model; no lemma depends on it. */
    constructor ()
      ensures cookies == map[]
    {
      cookies := map[];
    }

    /** `setTokens`: three sequential `Cookies.set` calls. */
    method SetTokens(access: string, id: string, refresh: string, now: int)
      modifies this
      ensures cookies == WithTokens(old(cookies), access, id, refresh, now)
    {
      cookies := cookies[AccessTokenKey := Cookie(access, now + AccessLifetimeMs)];
      cookies := cookies[IdTokenKey := Cookie(id, now + IdLifetimeMs)];
      cookies := cookies[RefreshTokenKey := Cookie(refresh, now + RefreshLifetimeMs)];
    }

    /** `removeTokens`: three sequential `Cookies.remove` calls. */
    method RemoveTokens()
      modifies this
      ensures cookies == WithoutTokens(old(cookies))
    {
      cookies := cookies - {AccessTokenKey};
      cookies := cookies - {IdTokenKey};
      cookies := cookies - {RefreshTokenKey};
    }
  }

  /** Until a token's lifetime has elapsed, each getter returns the value just stored. */
  lemma TokensReadBack(jar: Jar, access: string, id: string, refresh: string, now: int, t: int)
    requires now <= t
    ensures var j := WithTokens(jar, access, id, refresh, now);
      && (t < now + AccessLifetimeMs <==> AccessToken(j, t) == Some(access))
      && (t < now + IdLifetimeMs <==> IdToken(j, t) == Some(id))
      && (t < now + RefreshLifetimeMs <==> RefreshToken(j, t) == Some(refresh))
  {
  }

  /** Lifetimes are ordered; between one hour and one day only the access token has lapsed. */
  lemma LifetimesOrdered(jar: Jar, access: string, id: string, refresh: string, now: int, t: int)
    requires now + AccessLifetimeMs <= t < now + IdLifetimeMs
    ensures AccessLifetimeMs == 3_600_000
    ensures AccessLifetimeMs < IdLifetimeMs < RefreshLifetimeMs
    ensures var j := WithTokens(jar, access, id, refresh, now);
      AccessToken(j, t) == None && IdToken(j, t) == Some(id) && RefreshToken(j, t) == Some(refresh)
  {
  }

  /** A second `setTokens` replaces the whole previous bundle. */
  lemma SetTokensOverwrites(jar: Jar, a0: string, i0: string, r0: string, n0: int,
                            a1: string, i1: string, r1: string, n1: int)
    ensures WithTokens(WithTokens(jar, a0, i0, r0, n0), a1, i1, r1, n1) == WithTokens(jar, a1, i1, r1, n1)
  {
  }

  /** After `removeTokens` nothing can be read, and a second call changes nothing. */
  lemma RemoveTokensClears(jar: Jar, t: int)
    ensures var j := WithoutTokens(jar);
      AccessToken(j, t) == None && IdToken(j, t) == None && RefreshToken(j, t) == None
    ensures WithoutTokens(WithoutTokens(jar)) == WithoutTokens(jar)
    ensures forall k :: k in jar && k !in {AccessTokenKey, IdTokenKey, RefreshTokenKey} ==>
      k in WithoutTokens(jar) && WithoutTokens(jar)[k] == jar[k]
  {
  }

  /** Without an access token the decoder is never consulted: every decoder gives "not authenticated". */
  lemma NoAccessTokenFailsClosed(jar: Jar, now: int, decode: Decoder)
    requires !Present(AccessToken(jar, now))
    ensures !IsAuthenticated(jar, now, decode)
  {
  }

  /** A token the decoder rejects, or one without `exp`, gives "not authenticated". */
  lemma UndecodableFailsClosed(jar: Jar, now: int, decode: Decoder)
    requires Present(AccessToken(jar, now))
    requires decode(AccessToken(jar, now).value).None? || decode(AccessToken(jar, now).value).value.exp.None?
    ensures !IsAuthenticated(jar, now, decode)
  {
  }

  /** For a decodable token the session holds exactly while `exp` is strictly in the future. */
  lemma AuthenticatedIffNotExpired(jar: Jar, now: int, decode: Decoder, claims: Claims, exp: int)
    requires Present(AccessToken(jar, now))
    requires decode(AccessToken(jar, now).value) == Some(claims) && claims.exp == Some(exp)
    ensures IsAuthenticated(jar, now, decode) <==> exp * 1000 > now
    ensures exp * 1000 == now ==> !IsAuthenticated(jar, now, decode)
  {
  }

  /** Sessions only lapse as time passes: authenticated later means authenticated earlier. */
  lemma AuthenticationOnlyLapses(jar: Jar, decode: Decoder, t1: int, t2: int)
    requires t1 <= t2 && IsAuthenticated(jar, t2, decode)
    ensures IsAuthenticated(jar, t1, decode)
  {
  }

  /**
    * Right after sign-in with an access token that decodes to `exp`, the session
    * holds until the earlier of the cookie's lapse (one hour) and `exp`.
    */
  lemma SessionAfterSetTokens(jar: Jar, access: string, id: string, refresh: string, now: int,
                              t: int, decode: Decoder, exp: int)
    requires now <= t && access != ""
    requires decode(access).Some? && decode(access).value.exp == Some(exp)
    ensures IsAuthenticated(WithTokens(jar, access, id, refresh, now), t, decode)
      <==> t < now + AccessLifetimeMs && exp * 1000 > t
  {
  }

  /** After `removeTokens` there is neither a session nor user information. */
  lemma SignedOutAfterRemove(jar: Jar, now: int, decode: Decoder)
    ensures !IsAuthenticated(WithoutTokens(jar), now, decode)
    ensures GetUserInfo(WithoutTokens(jar), now, decode) == None
  {
  }

  /** `getUserInfo` is absent exactly when the id token is absent, empty or undecodable. */
  lemma UserInfoDecodesIdToken(jar: Jar, now: int, decode: Decoder)
    ensures GetUserInfo(jar, now, decode).None? <==>
      !Present(IdToken(jar, now)) || decode(IdToken(jar, now).value).None?
    ensures Present(IdToken(jar, now)) ==> GetUserInfo(jar, now, decode) == decode(IdToken(jar, now).value)
  {
  }

  /** `getUserInfo` ignores `exp`: an expired but decodable id token still yields its claims. */
  lemma UserInfoIgnoresExpiry(jar: Jar, now: int, decode: Decoder, claims: Claims, exp: int)
    requires Present(IdToken(jar, now))
    requires decode(IdToken(jar, now).value) == Some(claims) && claims.exp == Some(exp) && exp * 1000 <= now
    ensures GetUserInfo(jar, now, decode) == Some(claims)
  {
  }
}
