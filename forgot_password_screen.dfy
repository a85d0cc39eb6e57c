/** The mobile forgot-password screen (`components/screens/auth/ForgotPasswordScreen.tsx`). */
module ForgotPasswordScreen {
  import opened Wrappers
  import opened Text
  import opened Validation
  import opened FormRules
  import opened AuthService
  import opened AuthStore

  class ForgotPasswordForm {
    var email: string
    var emailError: string
    var isEmailSent: bool

    constructor ()
      ensures email == "" && emailError == "" && !isEmailSent
    {
      email, emailError, isEmailSent := "", "", false;
    }

    /** `validateForm`: clears the message and the store's error; a blank address stops with
      * 'required' before the format is looked at, then an invalid address stops with the
      * format message. */
    method ValidateForm(store: SessionStore) returns (valid: bool)
      requires store.Valid()
      modifies this, store
      ensures valid <==> EmailError(email) == ""
      ensures emailError == EmailError(email)
      ensures email == old(email) && isEmailSent == old(isEmailSent)
      ensures store.Valid() && store.error.None? && store.user == old(store.user)
      ensures store.userProfile == old(store.userProfile) && store.isLoading == old(store.isLoading)
    {
      emailError := "";
      store.ClearError();
      if Trim(email) == "" {
        emailError := "Email is required";
        return false;
      }
      if !ValidateEmail(email) {
        emailError := "Please enter a valid email address";
        return false;
      }
      return true;
    }

    /** `handleResetPassword`: a valid form sends the trimmed address; a successful reset
      * marks the mail as sent, and nothing marks it unsent. */
    method HandleResetPassword(store: SessionStore, result: AuthResult) returns (sent: Option<string>, ok: bool)
      requires store.Valid()
      modifies this, store
      ensures store.Valid() && email == old(email)
      ensures sent.Some? <==> !Blank(email) && ValidateEmail(email)
      ensures sent.Some? ==> sent.value == Trim(email)
      ensures ok <==> sent.Some? && result.success
      ensures isEmailSent <==> old(isEmailSent) || ok
      ensures emailError == EmailError(email)
      ensures store.error == if sent.None? || ok then None else Some(MessageOr(result.error, "Password reset failed"))
      ensures store.isLoading == old(store.isLoading)
      ensures store.user == old(store.user) && store.userProfile == old(store.userProfile)
    {
      var valid := ValidateForm(store);
      if !valid {
        return None, false;
      }
      sent := Some(Trim(email));
      ok := store.ResetPassword(result);
      if ok {
        isEmailSent := true;
      }
    }
  }
}
