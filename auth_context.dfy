/**
 * The authentication-session provider: it holds the current user, a flag for a
 * sign-in, sign-up or sign-out in progress, and a flag for the initial session
 * check, and it renders its children only once that check has completed.
 */
module AuthContext {
  import opened Wrappers
  import opened AuthInterfaces

  /** The context value consumers see when no provider is mounted above them. */
  const InitialAuthContext := IAuth(None, false, true)

  /** What the provider renders: the loading placeholder, or its children under the context value. */
  datatype Rendered = LoadingPlaceholder | ProvideChildren(value: IAuth)

  class AuthProvider {
    var currentUser: Option<User>
    var isLoading: bool
    var isAuthLoading: bool
    /** Whether the auth-change listener is still registered. */
    var listening: bool

    /** Until the first notification there is no user: only notifications set one. */
    ghost predicate Valid()
      reads this
    {
      isAuthLoading ==> currentUser == None
    }

    /** Mounting: the initial state and the registration of the auth-change listener. */
    constructor ()
      ensures Valid()
      ensures currentUser == None && !isLoading && isAuthLoading && listening
      ensures ContextValue() == InitialAuthContext
    {
      currentUser := None;
      isLoading := false;
      isAuthLoading := true;
      listening := true;
    }

    /** The context value handed to consumers. */
    function ContextValue(): (v: IAuth)
      reads this
      ensures v.user == currentUser && v.loading == isLoading && v.isAuthLoading == isAuthLoading
      ensures Valid() && v.isAuthLoading ==> v.user == None
    {
      IAuth(currentUser, isLoading, isAuthLoading)
    }

    /** The render gate: the children appear only once the initial check completed. */
    function Render(): (r: Rendered)
      reads this
      ensures r.ProvideChildren? <==> !isAuthLoading
      ensures r.ProvideChildren? ==> r.value == ContextValue() && !r.value.isAuthLoading
    {
      if isAuthLoading then LoadingPlaceholder else ProvideChildren(ContextValue())
    }

    /**
     * The auth-change callback: while the listener is registered a notification
     * replaces the user and ends the initial check; after unmounting it changes nothing.
     */
    method OnAuthStateChanged(user: Option<User>)
      requires Valid()
      modifies this
      ensures Valid()
      ensures old(listening) ==> currentUser == user && !isAuthLoading
      ensures !old(listening) ==> currentUser == old(currentUser) && isAuthLoading == old(isAuthLoading)
      ensures isLoading == old(isLoading) && listening == old(listening)
    {
      if listening {
        currentUser := user;
        isAuthLoading := false;
      }
    }

    /** Unmounting: the listener is deregistered. */
    method Unsubscribe()
      modifies this
      ensures !listening
      ensures currentUser == old(currentUser) && isLoading == old(isLoading) && isAuthLoading == old(isAuthLoading)
    {
      listening := false;
    }

    /** The step before an operation awaits the identity service: the busy flag is raised. */
    method BeginCall()
      modifies this
      ensures isLoading
      ensures currentUser == old(currentUser) && isAuthLoading == old(isAuthLoading) && listening == old(listening)
    {
      isLoading := true;
    }

    /** The `finally` step of an operation: the busy flag is cleared. */
    method EndCall()
      modifies this
      ensures !isLoading
      ensures currentUser == old(currentUser) && isAuthLoading == old(isAuthLoading) && listening == old(listening)
    {
      isLoading := false;
    }

    /**
     * `signUp`: forwards the credentials to the identity service with the busy flag
     * raised, clears it afterwards, and passes a failure on unchanged. The user
     * changes only through the notification the service sends.
     */
    method SignUp(creds: UserFormValues, firebaseSignUp: UserFormValues -> Result<User, AuthError>)
      returns (r: Outcome<AuthError>)
      requires Valid()
      modifies this
      ensures Valid()
      ensures firebaseSignUp(creds).Success? ==> r == Pass
      ensures firebaseSignUp(creds).Failure? ==> r == Fail(firebaseSignUp(creds).error)
      ensures !isLoading
      ensures currentUser == old(currentUser) && isAuthLoading == old(isAuthLoading) && listening == old(listening)
    {
      BeginCall();
      var result := firebaseSignUp(creds);
      if result.Failure? {
        r := Fail(result.error);
      } else {
        r := Pass;
      }
      EndCall();
    }

    /** `signIn`: as `signUp`, with the sign-in call of the identity service. */
    method SignIn(creds: LoginFormValues, firebaseSignIn: LoginFormValues -> Result<User, AuthError>)
      returns (r: Outcome<AuthError>)
      requires Valid()
      modifies this
      ensures Valid()
      ensures firebaseSignIn(creds).Success? ==> r == Pass
      ensures firebaseSignIn(creds).Failure? ==> r == Fail(firebaseSignIn(creds).error)
      ensures !isLoading
      ensures currentUser == old(currentUser) && isAuthLoading == old(isAuthLoading) && listening == old(listening)
    {
      BeginCall();
      var result := firebaseSignIn(creds);
      if result.Failure? {
        r := Fail(result.error);
      } else {
        r := Pass;
      }
      EndCall();
    }

    /** `signOut`: `firebaseSignOut` is the outcome of the identity service's sign-out call. */
    method SignOut(firebaseSignOut: Outcome<AuthError>) returns (r: Outcome<AuthError>)
      requires Valid()
      modifies this
      ensures Valid()
      ensures r == firebaseSignOut
      ensures !isLoading
      ensures currentUser == old(currentUser) && isAuthLoading == old(isAuthLoading) && listening == old(listening)
    {
      BeginCall();
      r := firebaseSignOut;
      EndCall();
    }
  }
}
