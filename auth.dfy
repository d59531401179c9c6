/** The session provider: the signed-in user, read back from storage when
    the app starts, written on login and erased on logout. */
module Auth {
  import opened Wrappers
  import opened Storage
  import Api

  /** The user the app starts with: the stored account, or nobody when the
      key is missing, empty or does not parse as an account. */
  function InitialUser(store: Store): (r: Option<Account>)
    ensures r.Some? <==> UserKey in store && store[UserKey].UserJson?
    ensures r.Some? ==> store[UserKey] == UserJson(r.value)
  {
    if Missing(store, UserKey) then None
    else match store[UserKey]
      case UserJson(a) => Some(a)
      case _ => None
  }

  /** What a successful login writes: the access token, then the account. */
  function StoreLogin(store: Store, token: string, a: Account): (r: Store)
    ensures TokenKey in r && r[TokenKey] == Raw(token)
    ensures UserKey in r && r[UserKey] == UserJson(a)
    ensures forall k :: k in store && k != TokenKey && k != UserKey ==> k in r && r[k] == store[k]
    ensures r.Keys == store.Keys + {TokenKey, UserKey}
  {
    store[TokenKey := Raw(token)][UserKey := UserJson(a)]
  }

  /** What logout erases: the token and the account, nothing else. */
  function StoreLogout(store: Store): (r: Store)
    ensures TokenKey !in r && UserKey !in r
    ensures forall k :: k in store && k != TokenKey && k != UserKey ==> k in r && r[k] == store[k]
    ensures r.Keys == store.Keys - {TokenKey, UserKey}
  {
    store - {TokenKey, UserKey}
  }

  /** A reload after login restores that user; after logout, nobody. */
  lemma ReloadRestoresSession(store: Store, token: string, a: Account)
    ensures InitialUser(StoreLogin(store, token, a)) == Some(a)
    ensures InitialUser(StoreLogout(StoreLogin(store, token, a))) == None
    ensures InitialUser(StoreLogout(store)) == None
  {
  }

  /** Neither login nor logout touches the checkout hand-off. */
  lemma SessionLeavesCartAlone(store: Store, token: string, a: Account)
    ensures CartKey in store ==> StoreLogin(store, token, a)[CartKey] == store[CartKey]
    ensures CartKey in store ==> StoreLogout(store)[CartKey] == store[CartKey]
  {
    KeysDiffer();
  }

  /** The body of a successful `POST /login`. */
  datatype LoginData = LoginData(accessToken: string, user: Account)

  /** What `login` resolves to. */
  datatype LoginResult = LoginOk | LoginFailed(message: string)

  class AuthSession {
    var user: Option<Account>
    var loading: bool
    var storage: Store
    var sent: seq<Api.Request>

    /** The user shown is always the one a reload would restore. */
    predicate Valid()
      reads this
    {
      user == InitialUser(storage)
    }

    constructor (stored: Store)
      ensures Valid()
      ensures user == InitialUser(stored) && storage == stored && !loading && sent == []
    {
      user := InitialUser(stored);
      loading := false;
      storage := stored;
      sent := [];
    }

    /** `login` up to the request. */
    method StartLogin(username: string, password: string)
      requires Valid()
      modifies this
      ensures Valid()
      ensures loading && sent == old(sent) + [Api.Login(username, password)]
      ensures user == old(user) && storage == old(storage)
    {
      loading := true;
      sent := sent + [Api.Login(username, password)];
    }

    /** The answer to the login: success stores token and account and signs
        the user in; failure reports the server's message or 'Login failed'
        and changes nothing. Loading ends either way. */
    method FinishLogin(outcome: Outcome<LoginData>) returns (result: LoginResult)
      requires Valid() && loading
      modifies this
      ensures Valid() && !loading && sent == old(sent)
      ensures outcome.Success? ==> result == LoginOk && user == Some(outcome.data.user)
      ensures outcome.Success? ==> storage == StoreLogin(old(storage), outcome.data.accessToken, outcome.data.user)
      ensures outcome.Failure? ==> result == LoginFailed(MessageOr(outcome.msg, "Login failed"))
      ensures outcome.Failure? ==> user == old(user) && storage == old(storage)
    {
      if outcome.Success? {
        storage := StoreLogin(storage, outcome.data.accessToken, outcome.data.user);
        user := Some(outcome.data.user);
        result := LoginOk;
      } else {
        result := LoginFailed(MessageOr(outcome.msg, "Login failed"));
      }
      loading := false;
    }

    method Logout()
      requires Valid()
      modifies this
      ensures Valid()
      ensures user == None && storage == StoreLogout(old(storage))
      ensures sent == old(sent) && loading == old(loading)
    {
      storage := StoreLogout(storage);
      user := None;
    }
  }
}
