/**
 * The session store: who is logged in, derived from the tokens kept in
 * browser storage, with the login, register and logout transitions.
 */
module Auth {
  import opened Wrappers

  const AccessTokenKey := "access_token"
  const RefreshTokenKey := "refresh_token"
  const UsernameKey := "username"

  /** The single username the client treats as privileged. */
  const AdminUsername := "admin"

  const InvalidLoginResponse := "Invalid login response"

  /** Browser storage: string keys to string values. */
  type Storage = map<string, string>

  /** A logged-in identity; `username` is absent when the token was restored without a stored name. */
  datatype User = User(username: Option<string>, isAdmin: bool)

  /** The fields of the login endpoint's reply that the store reads. */
  datatype LoginResponse = LoginResponse(access: Option<string>, refresh: Option<string>)

  /** The result object of login and register: success, or failure with a message. */
  datatype Outcome = Succeeded | Failed(message: string)

  function Get(s: Storage, key: string): Option<string> {
    if key in s then Some(s[key]) else None
  }

  /** JavaScript truthiness of a stored string: present and not empty. */
  predicate Truthy(v: Option<string>) {
    v.Some? && v.value != ""
  }

  /** What `setItem` stores for a value: an absent value is written as the text "undefined". */
  function AsStored(v: Option<string>): string {
    if v.Some? then v.value else "undefined"
  }

  /** The identity built for a username: it is admin exactly when the name is "admin". */
  function Identity(username: Option<string>): (u: User)
    ensures u.username == username
    ensures u.isAdmin <==> username == Some(AdminUsername)
  {
    User(username, username == Some(AdminUsername))
  }

  /** The user the mount effect restores from storage: one exists exactly when an access token is stored. */
  function Restore(s: Storage): (u: Option<User>)
    ensures u.Some? <==> Truthy(Get(s, AccessTokenKey))
    ensures u.Some? ==> u.value.username == Get(s, UsernameKey)
    ensures u.Some? ==> (u.value.isAdmin <==> Get(s, UsernameKey) == Some(AdminUsername))
  {
    if Truthy(Get(s, AccessTokenKey)) then Some(Identity(Get(s, UsernameKey))) else None
  }

  /** Storage after logout: the three session keys are gone, every other entry is kept. */
  function ClearSession(s: Storage): (r: Storage)
    ensures AccessTokenKey !in r && RefreshTokenKey !in r && UsernameKey !in r
    ensures forall k :: k in s && k != AccessTokenKey && k != RefreshTokenKey && k != UsernameKey ==>
      k in r && r[k] == s[k]
    ensures forall k :: k in r ==> k in s
  {
    s - {AccessTokenKey} - {RefreshTokenKey} - {UsernameKey}
  }

  /** Storage after a successful login: both tokens and the username written. */
  function SaveLogin(s: Storage, username: string, data: LoginResponse): (r: Storage)
    ensures r.Keys == s.Keys + {AccessTokenKey, RefreshTokenKey, UsernameKey}
    ensures Get(r, AccessTokenKey) == Some(AsStored(data.access))
    ensures Get(r, RefreshTokenKey) == Some(AsStored(data.refresh))
    ensures Get(r, UsernameKey) == Some(username)
    ensures forall k :: k in s && k != AccessTokenKey && k != RefreshTokenKey && k != UsernameKey ==> r[k] == s[k]
  {
    s[AccessTokenKey := AsStored(data.access)][RefreshTokenKey := AsStored(data.refresh)][UsernameKey := username]
  }

  /** What the HTTP client does to storage on a 401 reply: only the access token is removed. */
  function ExpireToken(s: Storage): (r: Storage)
    ensures Get(r, AccessTokenKey) == None
    ensures forall k :: k != AccessTokenKey ==> Get(r, k) == Get(s, k)
  {
    s - {AccessTokenKey}
  }

  /**
   * The session invariant: an identity is present exactly when an access token
   * is stored, and then it carries the stored username and the admin flag
   * derived from it.
   */
  ghost predicate Consistent(user: Option<User>, s: Storage) {
    && (user.Some? <==> Truthy(Get(s, AccessTokenKey)))
    && (user.Some? ==> user.value == Identity(Get(s, UsernameKey)))
  }

  lemma RestoreConsistent(s: Storage)
    ensures Consistent(Restore(s), s)
  {
  }

  lemma LoginConsistent(s: Storage, username: string, data: LoginResponse)
    requires Truthy(data.access)
    ensures Consistent(Some(Identity(Some(username))), SaveLogin(s, username, data))
  {
  }

  lemma LogoutConsistent(s: Storage)
    ensures Consistent(None, ClearSession(s))
  {
  }

  /** Logging out twice is the same as logging out once. */
  lemma LogoutIdempotent(s: Storage)
    ensures ClearSession(ClearSession(s)) == ClearSession(s)
  {
  }

  /** As written, a 401 reply removes the token but leaves a logged-in identity in place. */
  lemma ExpireTokenLeavesStaleUser(u: User, s: Storage)
    requires Consistent(Some(u), s)
    ensures !Consistent(Some(u), ExpireToken(s))
  {
    assert Get(ExpireToken(s), AccessTokenKey) == None;
  }

  /** With the session store told, the 401 reply ends in a consistent logged-out state. */
  lemma ExpireThenLogoutConsistent(s: Storage)
    ensures Consistent(None, ClearSession(ExpireToken(s)))
    ensures ClearSession(ExpireToken(s)) == ClearSession(s)
  {
  }

  /** The session provider. */
  class SessionStore {
    var user: Option<User>
    var loading: bool
    var storage: Storage

    /** Once the mount check has run, the identity agrees with the stored token. */
    ghost predicate Valid()
      reads this
    {
      !loading ==> Consistent(user, storage)
    }

    /** First render: no user yet, still loading. */
    constructor (saved: Storage)
      ensures Valid()
      ensures user == None && loading && storage == saved
    {
      user := None;
      loading := true;
      storage := saved;
    }

    /** The mount effect: restore the identity from a stored access token, then stop loading. */
    method Init()
      requires user.None? && loading
      modifies this
      ensures Valid()
      ensures !loading
      ensures storage == old(storage)
      ensures user == Restore(storage)
    {
      user := Restore(storage);
      loading := false;
    }

    /** `login(username, password)`, given what the login call resolved to or the error it threw. */
    method Login(username: string, response: Result<LoginResponse>) returns (outcome: Outcome)
      requires Valid()
      modifies this
      ensures Valid()
      ensures loading == old(loading)
      ensures response.Success? && Truthy(response.value.access) ==>
        && outcome == Succeeded
        && user == Some(User(Some(username), username == AdminUsername))
        && storage == old(storage)[AccessTokenKey := response.value.access.value]
                                  [RefreshTokenKey := AsStored(response.value.refresh)]
                                  [UsernameKey := username]
      ensures response.Success? && !Truthy(response.value.access) ==>
        outcome == Failed(InvalidLoginResponse) && user == old(user) && storage == old(storage)
      ensures response.Failure? ==>
        outcome == Failed(response.error) && user == old(user) && storage == old(storage)
    {
      if response.Failure? {
        return Failed(response.error);
      }
      var data := response.value;
      if !Truthy(data.access) {
        return Failed(InvalidLoginResponse);
      }
      storage := SaveLogin(storage, username, data);
      user := Some(Identity(Some(username)));
      LoginConsistent(old(storage), username, data);
      outcome := Succeeded;
    }

    /** `register(userData)`: success exactly when the registration call resolved; no state is touched. */
    method Register(response: Result<()>) returns (outcome: Outcome)
      ensures outcome.Succeeded? <==> response.Success?
      ensures response.Failure? ==> outcome == Failed(response.error)
    {
      if response.Success? {
        outcome := Succeeded;
      } else {
        outcome := Failed(response.error);
      }
    }

    /** `logout()`: the session keys are removed and the user is cleared. */
    method Logout()
      modifies this
      ensures Valid()
      ensures user == None
      ensures storage == ClearSession(old(storage))
      ensures loading == old(loading)
    {
      storage := ClearSession(storage);
      user := None;
    }

    /** The `auth-401` listener: it logs out. */
    method OnAuthFailure()
      modifies this
      ensures Valid()
      ensures user == None
      ensures storage == ClearSession(old(storage))
      ensures loading == old(loading)
    {
      Logout();
    }

    /** A 401 reply as the HTTP client handles it: the token is removed and nobody is told. */
    method OnUnauthorizedAsWritten()
      modifies this
      ensures user == old(user) && loading == old(loading)
      ensures storage == ExpireToken(old(storage))
    {
      storage := ExpireToken(storage);
    }

    /** A 401 reply with the session store told: the token is removed and the listener logs out. */
    method OnUnauthorized()
      modifies this
      ensures Valid()
      ensures user == None && loading == old(loading)
      ensures storage == ClearSession(old(storage))
    {
      storage := ExpireToken(storage);
      OnAuthFailure();
    }
  }
}
