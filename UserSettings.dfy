// The settings page: change the display name, change the password. The
// authentication service is not modelled: each call's outcome is an input.
module UserSettings {
  import opened Common
  import AuthModal

  /** The password form refuses anything shorter than this before any call. */
  const MinPasswordLength := 6

  const TooShortText := "Password must be at least 6 characters"
  const PasswordUpdatedText := "Password updated successfully"
  const RecentLoginText := "Please log out and log in again to change password"
  const PasswordFailedText := "Failed to update password"
  const ProfileUpdatedText := "Profile updated successfully"
  const ProfileFailedText := "Failed to update profile"

  /**
   * The error shown when the password change is rejected: a request to log
   * in again for 'auth/requires-recent-login', a generic one otherwise.
   */
  function PasswordErrorText(code: string): (m: string)
    ensures m == RecentLoginText <==> code == "auth/requires-recent-login"
    ensures m == PasswordFailedText <==> code != "auth/requires-recent-login"
  {
    if code == "auth/requires-recent-login" then RecentLoginText else PasswordFailedText
  }

  class Settings {
    var displayName: string
    var newPassword: string
    var loading: bool

    /**
     * The name field starts from the user's display name, or empty when
     * there is none (`user?.displayName || ''`).
     */
    constructor (userDisplayName: Option<string>)
      ensures displayName == userDisplayName.GetOr("")
      ensures newPassword == "" && !loading
    {
      displayName := userDisplayName.GetOr("");
      newPassword := "";
      loading := false;
    }

    /** The profile form's button is disabled while a request runs. */
    function CanSubmitProfile(): (enabled: bool)
      reads this
      ensures enabled <==> !loading
    {
      !loading
    }

    /**
     * The password form's button is disabled while loading or with an
     * empty field; it is enabled for a short password, which the handler
     * then refuses.
     */
    function CanSubmitPassword(): (enabled: bool)
      reads this
      ensures enabled <==> !loading && |newPassword| > 0
    {
      !(loading || newPassword == "")
    }

    /**
     * The `try` block of `handleUpdateProfile`: only reached with `loading`
     * raised. Sends the current name; the message follows the outcome.
     */
    method SendProfile(outcome: AuthModal.AuthOutcome) returns (sentName: string, message: string)
      requires loading
      ensures !CanSubmitProfile()
      ensures sentName == displayName
      ensures message == (if outcome.AuthOk? then ProfileUpdatedText else ProfileFailedText)
    {
      sentName := displayName;
      if outcome.AuthOk? {
        message := ProfileUpdatedText;
      } else {
        message := ProfileFailedText;
      }
    }

    /**
     * `handleUpdateProfile`: `loading` is raised before the call (which
     * `SendProfile` requires) and is false afterwards either way.
     */
    method UpdateProfile(outcome: AuthModal.AuthOutcome) returns (sentName: string, message: string)
      modifies this`loading
      ensures !loading && CanSubmitProfile()
      ensures sentName == displayName
      ensures message == (if outcome.AuthOk? then ProfileUpdatedText else ProfileFailedText)
    {
      loading := true;
      sentName, message := SendProfile(outcome);
      loading := false;
    }

    /**
     * The `try` block of `handleUpdatePassword`: only reached with `loading`
     * raised and a long enough password. Sends the password; on success
     * the field is cleared, on failure it keeps its value and the message
     * depends on the error code.
     */
    method SendPassword(outcome: AuthModal.AuthOutcome) returns (sent: string, message: string)
      requires loading && |newPassword| >= MinPasswordLength
      modifies this`newPassword
      ensures !CanSubmitPassword()
      ensures sent == old(newPassword)
      ensures newPassword == (if outcome.AuthOk? then "" else old(newPassword))
      ensures message == (if outcome.AuthOk? then PasswordUpdatedText else PasswordErrorText(outcome.code))
    {
      sent := newPassword;
      if outcome.AuthOk? {
        message := PasswordUpdatedText;
        newPassword := "";
      } else if outcome.code == "auth/requires-recent-login" {
        message := RecentLoginText;
      } else {
        message := PasswordFailedText;
      }
    }

    /**
     * `handleUpdatePassword`. A password shorter than six characters is
     * refused with no call and no other change. Otherwise `loading` is
     * raised before the call (which `SendPassword` requires), the field is
     * cleared only on success, and `loading` ends false: the button is
     * enabled again exactly when the call failed and the field kept its text.
     */
    method UpdatePassword(outcome: AuthModal.AuthOutcome)
      returns (sent: Option<string>, message: string)
      modifies this`loading, this`newPassword
      ensures |old(newPassword)| < MinPasswordLength ==>
                && sent.None?
                && message == TooShortText
                && loading == old(loading)
                && newPassword == old(newPassword)
      ensures |old(newPassword)| >= MinPasswordLength ==>
                && sent == Some(old(newPassword))
                && !loading
                && newPassword == (if outcome.AuthOk? then "" else old(newPassword))
                && message == (if outcome.AuthOk? then PasswordUpdatedText else PasswordErrorText(outcome.code))
      ensures |old(newPassword)| >= MinPasswordLength ==> (CanSubmitPassword() <==> !outcome.AuthOk?)
    {
      if |newPassword| < MinPasswordLength {
        return None, TooShortText;
      }
      loading := true;
      var password;
      password, message := SendPassword(outcome);
      sent := Some(password);
      loading := false;
    }
  }
}
