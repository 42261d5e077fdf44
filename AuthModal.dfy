// The sign-in / sign-up dialog. The authentication service is not modelled:
// the outcome of each call it would make is an input of the handler.
module AuthModal {
  import opened Common

  /** The outcome of one call to the authentication service. */
  datatype AuthOutcome = AuthOk | AuthError(code: string)

  /** The calls the handler issues, in order. */
  datatype AuthCall =
    | SignIn(email: string, password: string)
    | CreateAccount(email: string, password: string)
    | SetDisplayName(name: string)

  const DefaultAuthError := "Authentication failed"

  /** The three error codes the dialog explains, and their messages. */
  const KnownAuthErrors: map<string, string> := map[
    "auth/invalid-credential" := "Invalid email or password",
    "auth/email-already-in-use" := "Email already in use",
    "auth/weak-password" := "Password should be at least 6 characters"
  ]

  /**
   * The message shown for a failed submission: the known code's own
   * message, and the generic one for every other code.
   */
  function AuthErrorText(code: string): (m: string)
    ensures code in KnownAuthErrors ==> m == KnownAuthErrors[code]
    ensures m == DefaultAuthError <==> code !in KnownAuthErrors
    ensures m != ""
  {
    if code in KnownAuthErrors then KnownAuthErrors[code] else DefaultAuthError
  }

  /**
   * The catch block: start from the generic message and overwrite it by
   * each `if` whose code matches. The codes are distinct, so at most one
   * assignment takes effect.
   */
  method AuthErrorMessage(code: string) returns (message: string)
    ensures message == AuthErrorText(code)
  {
    message := DefaultAuthError;
    if code == "auth/invalid-credential" {
      message := "Invalid email or password";
    }
    if code == "auth/email-already-in-use" {
      message := "Email already in use";
    }
    if code == "auth/weak-password" {
      message := "Password should be at least 6 characters";
    }
  }

  /** Whether the submission went through, given the outcomes of the calls it makes. */
  predicate Succeeds(isLogin: bool, signIn: AuthOutcome, create: AuthOutcome, profile: AuthOutcome) {
    if isLogin then signIn.AuthOk? else create.AuthOk? && profile.AuthOk?
  }

  class AuthDialog {
    var isLogin: bool
    var loading: bool

    /** The dialog opens in sign-in mode and idle. */
    constructor ()
      ensures isLogin && !loading
    {
      isLogin := true;
      loading := false;
    }

    /** The "Sign Up" / "Log In" link flips the mode and nothing else. */
    method ToggleMode()
      modifies this`isLogin
      ensures isLogin == !old(isLogin)
    {
      isLogin := !isLogin;
    }

    /** The submit button is disabled while a submission runs. */
    function CanSubmit(): (enabled: bool)
      reads this
      ensures enabled <==> !loading
    {
      !loading
    }

    /**
     * The `try` block: the awaited calls, only reached with `loading`
     * raised. Sign-in mode makes one call; sign-up mode creates the
     * account and sets the display name only when creation succeeded.
     * The result is the code of the call that failed, or none.
     */
    method Authenticate(email: string, password: string, name: string,
                        signIn: AuthOutcome, create: AuthOutcome, profile: AuthOutcome)
      returns (calls: seq<AuthCall>, failure: Option<string>)
      requires loading
      ensures !CanSubmit()
      ensures isLogin ==> calls == [SignIn(email, password)]
      ensures !isLogin ==>
                calls == [CreateAccount(email, password)] + (if create.AuthOk? then [SetDisplayName(name)] else [])
      ensures failure.None? <==> Succeeds(isLogin, signIn, create, profile)
      ensures isLogin && signIn.AuthError? ==> failure == Some(signIn.code)
      ensures !isLogin && create.AuthError? ==> failure == Some(create.code)
      ensures !isLogin && create.AuthOk? && profile.AuthError? ==> failure == Some(profile.code)
    {
      failure := None;
      if isLogin {
        calls := [SignIn(email, password)];
        if signIn.AuthError? {
          failure := Some(signIn.code);
        }
      } else {
        calls := [CreateAccount(email, password)];
        if create.AuthError? {
          failure := Some(create.code);
        } else {
          calls := calls + [SetDisplayName(name)];
          if profile.AuthError? {
            failure := Some(profile.code);
          }
        }
      }
    }

    /**
     * `handleSubmit`. `loading` is raised before the calls (which
     * `Authenticate` requires, so the button is disabled while they run)
     * and is false afterwards either way, enabling the button again. The
     * dialog closes exactly when every call made succeeded, and otherwise
     * shows the message for the code of the call that failed.
     */
    method HandleSubmit(email: string, password: string, name: string,
                        signIn: AuthOutcome, create: AuthOutcome, profile: AuthOutcome)
      returns (calls: seq<AuthCall>, closed: bool, error: Option<string>)
      modifies this`loading
      ensures !loading && CanSubmit()
      ensures isLogin ==> calls == [SignIn(email, password)]
      ensures !isLogin ==>
                calls == [CreateAccount(email, password)] + (if create.AuthOk? then [SetDisplayName(name)] else [])
      ensures closed <==> Succeeds(isLogin, signIn, create, profile)
      ensures closed <==> error.None?
      ensures isLogin && signIn.AuthError? ==> error == Some(AuthErrorText(signIn.code))
      ensures !isLogin && create.AuthError? ==> error == Some(AuthErrorText(create.code))
      ensures !isLogin && create.AuthOk? && profile.AuthError? ==> error == Some(AuthErrorText(profile.code))
    {
      loading := true;
      var failure;
      calls, failure := Authenticate(email, password, name, signIn, create, profile);
      if failure.None? {
        closed, error := true, None;
      } else {
        var message := AuthErrorMessage(failure.value);
        closed, error := false, Some(message);
      }
      loading := false;
    }
  }
}
