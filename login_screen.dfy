/** The mobile login screen (`components/screens/auth/LoginScreen.tsx`). */
module LoginScreen {
  import opened Wrappers
  import opened Text
  import opened Validation
  import opened FormRules
  import opened AuthService
  import opened AuthStore

  /** The password rule of the login form: required once trimmed; no length rule. */
  function LoginPasswordError(password: string): (m: string)
    ensures m == "" <==> !Blank(password)
    ensures m == "" || m == "Password is required"
  {
    if Trim(password) == "" then "Password is required" else ""
  }

  /** The form may be sent: a non-blank valid address and a non-blank password. */
  predicate LoginValid(email: string, password: string) {
    !Blank(email) && ValidateEmail(email) && !Blank(password)
  }

  /** The arguments of the `signIn` call. */
  datatype SignInRequest = SignInRequest(email: string, password: string)

  class LoginForm {
    var email: string
    var password: string
    var emailError: string
    var passwordError: string

    constructor ()
      ensures email == "" && password == "" && emailError == "" && passwordError == ""
    {
      email, password, emailError, passwordError := "", "", "", "";
    }

    /** `validateForm`: clears both messages and the store's error, then checks the address
      * ('required' before 'invalid') and the password, both on every call. */
    method ValidateForm(store: SessionStore) returns (valid: bool)
      requires store.Valid()
      modifies this, store
      ensures valid <==> LoginValid(email, password)
      ensures emailError == EmailError(email) && passwordError == LoginPasswordError(password)
      ensures email == old(email) && password == old(password)
      ensures store.Valid() && store.error.None? && store.user == old(store.user)
      ensures store.userProfile == old(store.userProfile) && store.isLoading == old(store.isLoading)
    {
      valid := true;
      emailError, passwordError := "", "";
      store.ClearError();
      if Trim(email) == "" {
        emailError := "Email is required";
        valid := false;
      } else if !ValidateEmail(email) {
        emailError := "Please enter a valid email address";
        valid := false;
      }
      if Trim(password) == "" {
        passwordError := "Password is required";
        valid := false;
      }
    }

    /** `handleSignIn`: an invalid form sends nothing; a valid one sends the trimmed address
      * and the password as typed. */
    method HandleSignIn(store: SessionStore, result: AuthResult) returns (sent: Option<SignInRequest>, ok: bool)
      requires store.Valid()
      modifies this, store
      ensures store.Valid() && email == old(email) && password == old(password)
      ensures sent.Some? <==> LoginValid(email, password)
      ensures sent.Some? ==> sent.value == SignInRequest(Trim(email), password)
      ensures ok <==> sent.Some? && Accepted(result)
      ensures emailError == EmailError(email) && passwordError == LoginPasswordError(password)
      ensures store.error == if sent.None? || ok then None else Some(MessageOr(result.error, "Sign in failed"))
      ensures store.isLoading == if sent.Some? then false else old(store.isLoading)
      ensures store.user == old(store.user) && store.userProfile == old(store.userProfile)
    {
      var valid := ValidateForm(store);
      if !valid {
        return None, false;
      }
      sent := Some(SignInRequest(Trim(email), password));
      ok := store.SignIn(result);
    }
  }

  /** A password of spaces only is refused. */
  lemma SpacesOnlyPasswordRefused(email: string)
    ensures !LoginValid(email, "   ") && LoginPasswordError("   ") == "Password is required"
  {
  }
}
