/**
 * The authentication context: the session-to-user mapping the provider's
 * callbacks apply, the sign-in-or-register fallback, sign-out, and the guard
 * on reading the context. The identity provider is abstract: each of its
 * calls either succeeds or fails with a tagged error.
 */
module Auth {
  import opened Wrappers
  import opened Types
  import Text

  /** An error the identity provider reports; it is a JavaScript `Error`. */
  datatype AuthError = AuthError(message: string)

  datatype Session = Session(user: User)

  /** The first sign-in failed because the credentials matched no account. */
  predicate FallsBackToSignUp(provider: ProviderAnswers)
  {
    provider.firstSignIn.Some? && IsInvalidCredentials(provider.firstSignIn.value)
  }

  /** A call made to the identity provider. */
  datatype ProviderCall = SignInWithPassword(email: string, password: string) | SignUp(email: string, password: string)

  /**
   * How the provider answers the calls of one `signIn`, in order: the first
   * password sign-in, the sign-up, and the retried sign-in (`None` = success).
   */
  datatype ProviderAnswers = ProviderAnswers(
    firstSignIn: Option<AuthError>,
    signUp: Option<AuthError>,
    retrySignIn: Option<AuthError>)

  const INVALID_CREDENTIALS := "Invalid login credentials"
  const OUTSIDE_PROVIDER := "useAuth must be used within an AuthProvider"

  /** The error message says the credentials matched no account. */
  predicate IsInvalidCredentials(e: AuthError)
  {
    Text.Includes(e.message, INVALID_CREDENTIALS)
  }

  /**
   * `signIn`: a password sign-in; on an "Invalid login credentials" error, a
   * sign-up followed by one more sign-in; any other error is rethrown.
   * Returns the outcome and the provider calls made, in order.
   */
  method SignIn(email: string, password: string, provider: ProviderAnswers)
    returns (result: Outcome<AuthError>, calls: seq<ProviderCall>)
    ensures calls == SignInCalls(email, password, provider)
    ensures provider.firstSignIn.None? ==> result == Pass
    ensures provider.firstSignIn.Some? && !FallsBackToSignUp(provider) ==> result == Fail(provider.firstSignIn.value)
    ensures FallsBackToSignUp(provider) && provider.signUp.Some? ==> result == Fail(provider.signUp.value)
    ensures FallsBackToSignUp(provider) && provider.signUp.None? ==>
      result == if provider.retrySignIn.None? then Pass else Fail(provider.retrySignIn.value)
  {
    calls := [SignInWithPassword(email, password)];
    var signInError := provider.firstSignIn;
    if signInError.Some? && Text.Includes(signInError.value.message, INVALID_CREDENTIALS) {
      calls := calls + [SignUp(email, password)];
      if provider.signUp.Some? {
        return Fail(provider.signUp.value), calls;
      }
      calls := calls + [SignInWithPassword(email, password)];
      if provider.retrySignIn.Some? {
        return Fail(provider.retrySignIn.value), calls;
      }
      result := Pass;
    } else if signInError.Some? {
      result := Fail(signInError.value);
    } else {
      result := Pass;
    }
  }

  /**
   * Sign-in comes first; sign-up is attempted at most once and only after an
   * invalid-credentials error; a second sign-in only after a successful sign-up.
   */
  lemma SignInCallOrder(email: string, password: string, provider: ProviderAnswers)
    ensures var calls := SignInCalls(email, password, provider);
      && 1 <= |calls| <= 3
      && calls[0] == SignInWithPassword(email, password)
      && (forall i :: 0 <= i < |calls| && calls[i].SignUp? ==> i == 1)
      && (|calls| >= 2 <==> FallsBackToSignUp(provider))
      && (|calls| == 3 <==> FallsBackToSignUp(provider) && provider.signUp.None?)
  {
  }

  /** The provider calls `SignIn` makes, as a function of the answers. */
  function SignInCalls(email: string, password: string, provider: ProviderAnswers): seq<ProviderCall>
  {
    if FallsBackToSignUp(provider) then
      if provider.signUp.Some? then [SignInWithPassword(email, password), SignUp(email, password)]
      else [SignInWithPassword(email, password), SignUp(email, password), SignInWithPassword(email, password)]
    else [SignInWithPassword(email, password)]
  }

  /** A user-not-found message with surrounding text still triggers the fallback. */
  lemma WrappedMessageTriggersSignUp(prefix: string, suffix: string)
    ensures IsInvalidCredentials(AuthError(prefix + INVALID_CREDENTIALS + suffix))
  {
    var msg := prefix + INVALID_CREDENTIALS + suffix;
    assert msg[|prefix|..|prefix| + |INVALID_CREDENTIALS|] == INVALID_CREDENTIALS;
    assert Text.OccursAt(msg, INVALID_CREDENTIALS, |prefix|);
    Text.IncludesIff(msg, INVALID_CREDENTIALS);
  }

  /** `signOut`: the provider's error, if any, is rethrown. */
  method SignOut(providerError: Option<AuthError>) returns (result: Outcome<AuthError>)
    ensures providerError.None? ==> result == Pass
    ensures providerError.Some? ==> result == Fail(providerError.value)
  {
    if providerError.Some? {
      return Fail(providerError.value);
    }
    result := Pass;
  }

  /** `session?.user ?? null`. */
  function SessionUser(session: Option<Session>): (user: Option<User>)
    ensures user.Some? <==> session.Some?
    ensures session.Some? ==> user.value == session.value.user
  {
    if session.Some? then Some(session.value.user) else None
  }

  /** The value a provider hands to its consumers. */
  datatype AuthContextValue = AuthContextValue(user: Option<User>, loading: bool)

  /** The `AuthProvider` state. */
  class AuthState {
    var user: Option<User>
    var loading: bool

    constructor ()
      ensures user.None? && loading
    {
      user := None;
      loading := true;
    }

    /**
     * Both the initial session load and every auth-change event set `user`
     * to the session's user and end `loading`.
     */
    method OnSession(session: Option<Session>)
      modifies this
      ensures user == SessionUser(session) && !loading
    {
      user := SessionUser(session);
      loading := false;
    }

    function Value(): AuthContextValue
      reads this
    {
      AuthContextValue(user, loading)
    }
  }

  /** `useAuth`: outside a provider (no context value) it throws. */
  function UseAuth(context: Option<AuthContextValue>): (r: Result<AuthContextValue, string>)
    ensures context.None? ==> r == Err(OUTSIDE_PROVIDER)
    ensures context.Some? ==> r == Ok(context.value)
  {
    if context.None? then Err(OUTSIDE_PROVIDER) else Ok(context.value)
  }
}
