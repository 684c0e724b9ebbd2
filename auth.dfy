/**
 * The session manager behind the `AuthProvider`: the signed-in user, the
 * loading flag of the first session check, and the two auth-token entries of
 * the browser's local storage. Every answer of the auth provider (the current
 * session, a change notification, the result of a sign-in, sign-up or
 * revocation) is a parameter.
 */
module Auth {
  import opened Wrappers

  datatype User = User(id: string, email: string)

  datatype Session = Session(user: User, accessToken: string)

  /** An error the provider reports, e.g. bad credentials. */
  datatype AuthError = AuthError(message: string)

  const TokenKey: string := "supabase.auth.token"
  const RefreshTokenKey: string := "supabase.auth.refreshToken"

  /** `session?.user ?? null`. */
  function UserOf(session: Option<Session>): (r: Option<User>)
    ensures r.Some? <==> session.Some?
    ensures session.Some? ==> r.value == session.value.user
  {
    match session
    case None => None
    case Some(s) => Some(s.user)
  }

  /** The `finally` block's storage effect: both token entries removed, every other entry kept as it was. */
  function ClearTokens(storage: map<string, string>): (r: map<string, string>)
    ensures TokenKey !in r && RefreshTokenKey !in r
    ensures forall k :: k in r <==> k in storage && k != TokenKey && k != RefreshTokenKey
    ensures forall k :: k in r ==> r[k] == storage[k]
  {
    storage - {TokenKey, RefreshTokenKey}
  }

  /** Clearing the tokens twice is clearing them once. */
  lemma ClearTokensIdempotent(storage: map<string, string>)
    ensures ClearTokens(ClearTokens(storage)) == ClearTokens(storage)
  {
  }

  /** The provider's answer to `getSession()`: a session or none, or an exception. */
  datatype SessionReply = SessionFound(session: Option<Session>) | SessionThrew(reason: string)

  /** The provider's answer to the revocation `signOut()`: done, an error, or an exception. */
  datatype RevokeReply = Revoked | RevokeError(error: AuthError) | RevokeThrew(reason: string)

  /** What `signOut` logs with `console.warn`; it is never raised to the caller. */
  datatype SignOutWarning =
    | NoActiveSession
    | ProviderSignOutError(error: AuthError)
    | SignOutException(reason: string)

  /** The states the session manager goes through. */
  datatype Phase = Initializing | Authenticated | Anonymous

  /** A provider error is raised to the caller as it is; success returns nothing. */
  function Raised(providerError: Option<AuthError>): (r: Outcome<AuthError>)
    ensures r.Fail? <==> providerError.Some?
    ensures r.Fail? ==> r.error == providerError.value
  {
    match providerError
    case None => Pass
    case Some(e) => Fail(e)
  }

  /** The user after a series of change notifications, applied one after the other. */
  function UserAfter(initial: Option<User>, notifications: seq<Option<Session>>): Option<User>
    decreases |notifications|
  {
    if notifications == [] then initial
    else UserAfter(UserOf(notifications[0]), notifications[1..])
  }

  /** The last notification wins: whatever came before, the user is that of the latest session notified. */
  lemma {:induction false} LastNotificationWins(initial: Option<User>, notifications: seq<Option<Session>>)
    requires notifications != []
    ensures UserAfter(initial, notifications) == UserOf(notifications[|notifications| - 1])
    decreases |notifications|
  {
    if |notifications| > 1 {
      LastNotificationWins(UserOf(notifications[0]), notifications[1..]);
    }
  }

  class SessionManager {
    var user: Option<User>
    var loading: bool
    var storage: map<string, string>

    /** Mounting the provider: no user yet, the first session check pending. */
    constructor (storage: map<string, string>)
      ensures user == None && loading && this.storage == storage
      ensures Phase() == Initializing
    {
      user := None;
      loading := true;
      this.storage := storage;
    }

    function Phase(): Phase
      reads this
    {
      if loading then Initializing
      else if user.Some? then Authenticated
      else Anonymous
    }

    /**
     * The first `getSession()`: when it answers, the user is the session's (or
     * none) and loading ends. Nothing catches an exception here, so when it
     * throws, neither the user nor the loading flag is set and the manager
     * stays where it was.
     */
    method InitialSessionCheck(reply: SessionReply)
      modifies this`user, this`loading
      ensures reply.SessionFound? ==> user == UserOf(reply.session) && !loading
      ensures reply.SessionFound? ==> Phase() == if reply.session.Some? then Authenticated else Anonymous
      ensures reply.SessionThrew? ==> user == old(user) && loading == old(loading)
    {
      if reply.SessionFound? {
        user := UserOf(reply.session);
        loading := false;
      }
    }

    /** The `onAuthStateChange` callback: the notified session overwrites the user; loading is untouched. */
    method OnAuthStateChange(session: Option<Session>)
      modifies this`user
      ensures user == UserOf(session)
    {
      user := UserOf(session);
    }

    /**
     * `signIn`: `providerError` is the provider's answer to the password
     * sign-in. Its error is raised as it is; the user is never set here, the
     * change notification does that.
     */
    method SignIn(email: string, password: string, providerError: Option<AuthError>) returns (r: Outcome<AuthError>)
      ensures r.Fail? <==> providerError.Some?
      ensures r.Fail? ==> r.error == providerError.value
    {
      r := Raised(providerError);
    }

    /** `signUp`: the same contract as `signIn`, against the provider's sign-up. */
    method SignUp(email: string, password: string, providerError: Option<AuthError>) returns (r: Outcome<AuthError>)
      ensures r.Fail? <==> providerError.Some?
      ensures r.Fail? ==> r.error == providerError.value
    {
      r := Raised(providerError);
    }

    /**
     * `signOut`: asks for the current session and revokes it only when there
     * is one. Whatever the provider answers, the `finally` block signs the
     * user out locally and removes the two token entries. Nothing is raised;
     * `warning` is what would be logged.
     */
    method SignOut(current: SessionReply, revoke: RevokeReply) returns (revokeCalled: bool, warning: Option<SignOutWarning>)
      modifies this`user, this`storage
      ensures user == None
      ensures storage == ClearTokens(old(storage))
      ensures Phase() != Authenticated
      ensures revokeCalled <==> current.SessionFound? && current.session.Some?
      ensures current.SessionThrew? ==> warning == Some(SignOutException(current.reason))
      ensures current == SessionFound(None) ==> warning == Some(NoActiveSession)
      ensures revokeCalled ==> warning == match revoke
                                          case Revoked => None
                                          case RevokeError(e) => Some(ProviderSignOutError(e))
                                          case RevokeThrew(reason) => Some(SignOutException(reason))
    {
      // try
      match current {
        case SessionThrew(reason) =>
          revokeCalled := false;
          warning := Some(SignOutException(reason));
        case SessionFound(session) =>
          if session.Some? {
            revokeCalled := true;
            match revoke {
              case Revoked => warning := None;
              case RevokeError(e) => warning := Some(ProviderSignOutError(e));
              case RevokeThrew(reason) => warning := Some(SignOutException(reason));
            }
          } else {
            revokeCalled := false;
            warning := Some(NoActiveSession);
          }
      }
      // finally
      user := None;
      storage := storage - {TokenKey, RefreshTokenKey};
    }
  }

  /** `useAuth`: fails outside an `AuthProvider`, otherwise hands back the provider's value. */
  function UseAuth(context: Option<SessionManager>): (r: Result<SessionManager, string>)
    ensures r.Failure? <==> context.None?
    ensures r.Success? ==> r.value == context.value
  {
    match context
    case None => Failure("useAuth must be used within an AuthProvider")
    case Some(manager) => Success(manager)
  }
}
