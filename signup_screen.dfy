/**
 * The mobile sign-up screen (`components/screens/auth/SignUpScreen.tsx`): the form, its
 * per-field messages, the validation run, and the arguments handed to the session store.
 */
module SignUpScreen {
  import opened Wrappers
  import opened Text
  import opened Validation
  import opened FormRules
  import opened AuthService
  import opened AuthStore

  /** The four text fields; the same shape holds the form and its messages. */
  datatype SignUpFields = SignUpFields(displayName: string, email: string, password: string,
                                       confirmPassword: string)

  datatype Field = DisplayNameField | EmailField | PasswordField | ConfirmPasswordField

  const EmptyFields := SignUpFields("", "", "", "")

  function Get(v: SignUpFields, f: Field): string {
    match f
    case DisplayNameField => v.displayName
    case EmailField => v.email
    case PasswordField => v.password
    case ConfirmPasswordField => v.confirmPassword
  }

  /** `{ ...v, [f]: x }`. */
  function With(v: SignUpFields, f: Field, x: string): (r: SignUpFields)
    ensures Get(r, f) == x && forall g :: g != f ==> Get(r, g) == Get(v, g)
  {
    match f
    case DisplayNameField => v.(displayName := x)
    case EmailField => v.(email := x)
    case PasswordField => v.(password := x)
    case ConfirmPasswordField => v.(confirmPassword := x)
  }

  /** The password rule: required, then at least 6 characters (untrimmed). */
  function PasswordError(password: string): (m: string)
    ensures m == "" <==> Utf16Length(password) >= 6
    ensures m == "Password is required" <==> password == ""
  {
    if password == "" then "Password is required"
    else if Utf16Length(password) < 6 then "Password must be at least 6 characters"
    else ""
  }

  /** The confirmation rule: required, then equal to the password. */
  function ConfirmError(password: string, confirm: string): (m: string)
    ensures m == "" <==> confirm != "" && confirm == password
    ensures m == "Please confirm your password" <==> confirm == ""
  {
    if confirm == "" then "Please confirm your password"
    else if password != confirm then "Passwords do not match"
    else ""
  }

  /** The message of every field for a form. */
  function FieldErrors(form: SignUpFields): SignUpFields {
    SignUpFields(NameError(form.displayName), EmailError(form.email), PasswordError(form.password),
                 ConfirmError(form.password, form.confirmPassword))
  }

  /** The form may be sent: a name of 2 or more characters, a non-blank valid address, a
    * password of 6 or more characters confirmed exactly, and the terms accepted. */
  predicate FormValid(form: SignUpFields, acceptedTerms: bool) {
    && Utf16Length(Trim(form.displayName)) >= 2
    && !Blank(form.email) && ValidateEmail(form.email)
    && Utf16Length(form.password) >= 6
    && form.confirmPassword != "" && form.confirmPassword == form.password
    && acceptedTerms
  }

  /** The form is valid exactly when no field has a message and the terms are accepted; the
    * terms never produce a field message. */
  lemma ValidIffNoMessages(form: SignUpFields, acceptedTerms: bool)
    ensures FormValid(form, acceptedTerms) <==> FieldErrors(form) == EmptyFields && acceptedTerms
  {
  }

  /** The arguments of the `signUp` call. */
  datatype SignUpRequest = SignUpRequest(email: string, password: string, displayName: string)

  class SignUpForm {
    var form: SignUpFields
    var errors: SignUpFields
    var acceptedTerms: bool

    constructor ()
      ensures form == EmptyFields && errors == EmptyFields && !acceptedTerms
    {
      form := EmptyFields;
      errors := EmptyFields;
      acceptedTerms := false;
    }

    /** `updateFormData`: sets one field and clears that field's message. */
    method UpdateFormData(f: Field, value: string)
      modifies this
      ensures form == With(old(form), f, value)
      ensures errors == With(old(errors), f, "") && acceptedTerms == old(acceptedTerms)
    {
      form := With(form, f, value);
      if Get(errors, f) != "" {
        errors := With(errors, f, "");
      } else {
        assert With(errors, f, "") == errors by {
          match f {
            case DisplayNameField => case EmailField => case PasswordField => case ConfirmPasswordField =>
          }
        }
      }
    }

    /** `validateForm`: clears the store's error, computes every field's message by the field
      * rules above (each an ordered check, 'required' first), clears the result for each
      * message and for unaccepted terms, and stores the messages. */
    method ValidateForm(store: SessionStore) returns (valid: bool)
      requires store.Valid()
      modifies this, store
      ensures valid <==> FormValid(form, acceptedTerms)
      ensures errors == FieldErrors(form) && form == old(form) && acceptedTerms == old(acceptedTerms)
      ensures store.Valid() && store.error.None? && store.user == old(store.user)
      ensures store.userProfile == old(store.userProfile) && store.isLoading == old(store.isLoading)
    {
      var f := form;
      valid := true;
      store.ClearError();
      var newErrors := FieldErrors(f);
      if newErrors.displayName != "" {
        valid := false;
      }
      if newErrors.email != "" {
        valid := false;
      }
      if newErrors.password != "" {
        valid := false;
      }
      if newErrors.confirmPassword != "" {
        valid := false;
      }
      if !acceptedTerms {
        valid := false;
      }
      ValidIffNoMessages(f, acceptedTerms);
      errors := newErrors;
    }

    /** `handleSignUp`: an invalid form sends nothing; a valid one sends the trimmed address
      * and name with the password as typed, and answers the store's result. */
    method HandleSignUp(store: SessionStore, result: AuthResult) returns (sent: Option<SignUpRequest>, ok: bool)
      requires store.Valid()
      modifies this, store
      ensures store.Valid() && form == old(form) && errors == FieldErrors(form)
      ensures sent.Some? <==> FormValid(form, acceptedTerms)
      ensures sent.Some? ==> sent.value == SignUpRequest(Trim(form.email), form.password, Trim(form.displayName))
      ensures ok <==> sent.Some? && Accepted(result)
      ensures acceptedTerms == old(acceptedTerms)
      ensures store.error == if sent.None? || ok then None else Some(MessageOr(result.error, "Sign up failed"))
      ensures store.isLoading == if sent.Some? then false else old(store.isLoading)
      ensures store.user == old(store.user) && store.userProfile == old(store.userProfile)
    {
      var valid := ValidateForm(store);
      if !valid {
        return None, false;
      }
      sent := Some(SignUpRequest(Trim(form.email), form.password, Trim(form.displayName)));
      ok := store.SignUp(result);
    }
  }
}
