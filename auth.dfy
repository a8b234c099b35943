/** The authentication provider (src/auth/AuthContext.tsx): the signed-in user, the flag
    that holds rendering back until the stored session is restored, the persisted copy
    under the `auth_user` storage key, and the requests sent to the backend. */
module Auth {
  import opened Wrappers

  /** `UserRole`: 'GUEST' | 'USER' | 'ADMIN' */
  datatype UserRole = Guest | Registered | Admin

  /** `User`; `email` may be null. */
  datatype User = User(
    id: int,
    name: string,
    surname: string,
    login: string,
    email: Option<string>,
    role: UserRole)

  /** The requests the provider posts to the backend. */
  datatype AuthRequest =
    | LoginRequest(loginOrEmail: string, password: string)  // POST /users/login
    | GuestRequest                                         // POST /users/guest
    | LogoutRequest(userId: int)                           // POST /users/logout

  /** The data part of the context value (the three callbacks are the provider's methods). */
  datatype ContextValue = ContextValue(user: Option<User>, isLoggedIn: bool, isAdmin: bool)

  const UseAuthError := "useAuth must be used inside AuthProvider"

  /** `{ user, isLoggedIn: !!user, isAdmin: user?.role === 'ADMIN' }` */
  function Value(user: Option<User>): (v: ContextValue)
    ensures v.user == user
    ensures v.isLoggedIn <==> user.Some?
    ensures v.isAdmin <==> user.Some? && user.value.role == Admin
    ensures v.isAdmin ==> v.isLoggedIn
  {
    ContextValue(user, user.Some?, user.Some? && user.value.role == Admin)
  }

  /** `useAuth()`: outside a provider there is no context and it throws. */
  function UseAuth(context: Option<ContextValue>): (r: Outcome<ContextValue>)
    ensures r.Ok? <==> context.Some?
    ensures r.Ok? ==> r.value == context.value
    ensures r.Err? ==> r.reason == Some(UseAuthError)
  {
    match context
    case None => Err(Some(UseAuthError))
    case Some(c) => Ok(c)
  }

  class AuthProvider {
    var user: Option<User>
    var initialized: bool
    /** The `auth_user` entry of the device storage (the user as it was stringified). */
    var stored: Option<User>
    /** Every request posted to the backend so far, in order. */
    ghost var requests: seq<AuthRequest>

    /** Mounting the provider: nobody signed in and nothing rendered yet; the storage
        keeps whatever an earlier session left there. */
    constructor(storage: Option<User>)
      ensures user == None && !initialized && stored == storage && requests == []
    {
      user := None;
      initialized := false;
      stored := storage;
      requests := [];
    }

    /** The restore effect: a stored session becomes the user; a failed read or parse
        (`readFailed`) leaves the user alone. Rendering is enabled in every case. */
    method Restore(readFailed: bool)
      modifies this
      ensures initialized
      ensures !readFailed && old(stored).Some? ==> user == old(stored)
      ensures readFailed || old(stored).None? ==> user == old(user)
      ensures stored == old(stored) && requests == old(requests)
    {
      if !readFailed && stored.Some? {
        user := stored;
      }
      initialized := true;
    }

    /** What the provider renders: nothing before the session is restored, the context
        value afterwards. */
    function Rendered(): (r: Option<ContextValue>)
      reads this
      ensures r.None? <==> !initialized
      ensures r.Some? ==> r.value == Value(user)
    {
      if initialized then Some(Value(user)) else None
    }

    /** `login(loginOrEmail, password)`: on success the returned user is signed in and
        persisted; a rejected request propagates and changes nothing. */
    method Login(loginOrEmail: string, password: string, response: Outcome<User>)
      returns (r: Outcome<()>)
      modifies this
      ensures requests == old(requests) + [LoginRequest(loginOrEmail, password)]
      ensures initialized == old(initialized)
      ensures response.Ok? ==> r == Ok(()) && user == Some(response.value) && stored == user
      ensures response.Err? ==> r == Err(response.reason) && user == old(user) && stored == old(stored)
    {
      requests := requests + [LoginRequest(loginOrEmail, password)];
      match response {
        case Err(reason) =>
          return Err(reason);
        case Ok(u) =>
          user := Some(u);
          stored := Some(u);
          return Ok(());
      }
    }

    /** `loginAsGuest()`: the backend creates a guest account that is signed in and
        persisted. */
    method LoginAsGuest(response: Outcome<User>) returns (r: Outcome<()>)
      modifies this
      ensures requests == old(requests) + [GuestRequest]
      ensures initialized == old(initialized)
      ensures response.Ok? ==> r == Ok(()) && user == Some(response.value) && stored == user
      ensures response.Err? ==> r == Err(response.reason) && user == old(user) && stored == old(stored)
    {
      requests := requests + [GuestRequest];
      match response {
        case Err(reason) =>
          return Err(reason);
        case Ok(u) =>
          user := Some(u);
          stored := Some(u);
          return Ok(());
      }
    }

    /** `logout()`: only a guest's logout is reported to the backend (so it can delete the
        guest record); whatever that call returns, the user and the stored session are
        cleared. */
    method Logout(call: Outcome<()>)
      modifies this
      ensures old(user).Some? && old(user).value.role == Guest ==>
                requests == old(requests) + [LogoutRequest(old(user).value.id)]
      ensures !(old(user).Some? && old(user).value.role == Guest) ==> requests == old(requests)
      ensures user == None && stored == None && initialized == old(initialized)
    {
      if user.Some? && user.value.role == Guest {
        requests := requests + [LogoutRequest(user.value.id)];
        // a failed call is swallowed
      }
      user := None;
      stored := None;
    }
  }

  /** A session survives a restart: after a successful login, a provider mounted over the
      same storage renders the same user as signed in; after a logout it renders nobody. */
  method SessionSurvivesRestart(storage: Option<User>, loginOrEmail: string, password: string,
                                 u: User, logoutCall: Outcome<()>)
    returns (afterLogin: Option<ContextValue>, afterLogout: Option<ContextValue>)
    ensures afterLogin == Some(Value(Some(u)))
    ensures afterLogin.value.isLoggedIn
    ensures afterLogout == Some(Value(None))
    ensures !afterLogout.value.isLoggedIn && !afterLogout.value.isAdmin
  {
    var first := new AuthProvider(storage);
    first.Restore(false);
    var _ := first.Login(loginOrEmail, password, Ok(u));
    var second := new AuthProvider(first.stored);
    second.Restore(false);
    afterLogin := second.Rendered();
    second.Logout(logoutCall);
    var third := new AuthProvider(second.stored);
    third.Restore(false);
    afterLogout := third.Rendered();
  }
}
