/**
  * The user provider of contexts/UserContext.tsx: `refreshUser` drives the
  * triple (user, loading, error) from the token store. The outcome of the
  * user-info request is an input.
  */
module UserContext {
  import opened Wrappers
  import Auth

  const FetchFailedMessage: string := "사용자 정보를 가져오는데 실패했습니다."
  const OutsideProviderMessage: string := "useUser must be used within a UserProvider"

  datatype User = User(id: string, name: string, email: string)

  /** How `fetchUserInfo()` settled: the (possibly null) user data it resolved to, or a throw. */
  datatype FetchOutcome = Fetched(data: Option<User>) | FetchThrew

  /** `{ id: userInfo.sub, name: userInfo.name, email: userInfo.email }`. */
  function UserFromClaims(claims: Auth.Claims): (user: User)
    ensures user.id == claims.sub && user.name == claims.name && user.email == claims.email
  {
    User(claims.sub, claims.name, claims.email)
  }

  class UserProvider {
    var user: Option<User>
    var loading: bool
    var error: Option<string>

    /** An error is only ever shown with no user. */
    predicate ErrorOnlyWithoutUser()
      reads this
    {
      error.Some? ==> user.None?
    }

    /** The initial state: no user, loading, no error. */
    constructor ()
      ensures user == None && loading && error == None
      ensures ErrorOnlyWithoutUser()
    {
      user := None;
      loading := true;
      error := None;
    }

    /** The first two setters of `refreshUser`: loading, with the previous error cleared and the user kept. */
    method BeginRefresh()
      modifies this
      ensures loading && error == None && user == old(user)
      ensures ErrorOnlyWithoutUser()
    {
      loading := true;
      error := None;
    }

    /**
      * `refreshUser` against the cookie jar at time `now`. It reports whether
      * the user-info request was made, which happens only for an
      * authenticated session whose id token does not decode.
      */
    method RefreshUser(jar: Auth.CookieJar, now: int, decode: Auth.Decoder, fetched: FetchOutcome)
      returns (fetchCalled: bool)
      modifies this
      ensures ErrorOnlyWithoutUser() && !loading
      ensures var isAuth := Auth.IsAuthenticated(jar.cookies, now, decode);
              var info := Auth.GetUserInfo(jar.cookies, now, decode);
        && fetchCalled == (isAuth && info.None?)
        && (!isAuth ==> user == None && error == None)
        && (isAuth && info.Some? ==> user == Some(UserFromClaims(info.value)) && error == None)
        && (fetchCalled && fetched.Fetched? ==> user == fetched.data && error == None)
        && (fetchCalled && fetched.FetchThrew? ==> user == None && error == Some(FetchFailedMessage))
      ensures user.Some? ==> Auth.IsAuthenticated(jar.cookies, now, decode)
    {
      BeginRefresh();
      fetchCalled := false;
      var isAuth := Auth.IsAuthenticated(jar.cookies, now, decode);
      if isAuth {
        var info := Auth.GetUserInfo(jar.cookies, now, decode);
        if info.Some? {
          user := Some(UserFromClaims(info.value));
        } else {
          fetchCalled := true;
          match fetched
          case Fetched(data) =>
            user := data;
          case FetchThrew =>
            error := Some(FetchFailedMessage);
            user := None;
        }
      } else {
        user := None;
      }
      loading := false;
    }
  }

  /** `useUser`: the provider's value, or the error it throws outside a provider. */
  function UseUser(context: Option<UserProvider>): (r: Result<UserProvider, string>)
    ensures r.Failure? <==> context.None?
    ensures r.Failure? ==> r.error == OutsideProviderMessage
    ensures r.Success? ==> r.value == context.value
  {
    match context
    case None => Failure(OutsideProviderMessage)
    case Some(provider) => Success(provider)
  }
}
