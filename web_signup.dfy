/**
 * The web sign-up page (`app/auth/signup/page.tsx`): the ordered form checks, the message
 * shown for a failed account creation, and the user record written for a new account.
 */
module WebSignUp {
  import opened Wrappers
  import opened Text
  import opened Types

  datatype WebForm = WebForm(displayName: string, email: string, password: string,
                             confirmPassword: string)

  const NameMissing := "Please enter your name"
  const EmailMissing := "Please enter your email"
  const PasswordMissing := "Please enter a password"
  const PasswordShort := "Password must be at least 6 characters"
  const PasswordsDiffer := "Passwords do not match"

  /** What the page accepts: a name and an e-mail that are not blank, a password of at least
    * six characters, and a matching confirmation. */
  predicate WebFormValid(f: WebForm) {
    !Blank(f.displayName) && !Blank(f.email) && Utf16Length(f.password) >= 6
    && f.password == f.confirmPassword
  }

  /** The one message `validateForm` shows, or None when it returns true: the checks run in a
    * fixed order and the first that fails decides the message. */
  function FirstFormError(f: WebForm): (m: Option<string>)
    ensures m.None? <==> WebFormValid(f)
    ensures m == Some(NameMissing) <==> Blank(f.displayName)
    ensures m == Some(EmailMissing) <==> !Blank(f.displayName) && Blank(f.email)
    ensures m == Some(PasswordMissing)
        <==> !Blank(f.displayName) && !Blank(f.email) && f.password == ""
    ensures m == Some(PasswordShort)
        <==> !Blank(f.displayName) && !Blank(f.email) && 0 < Utf16Length(f.password) < 6
    ensures m == Some(PasswordsDiffer)
        <==> !Blank(f.displayName) && !Blank(f.email) && Utf16Length(f.password) >= 6
             && f.password != f.confirmPassword
  {
    if Trim(f.displayName) == "" then Some(NameMissing)
    else if Trim(f.email) == "" then Some(EmailMissing)
    else if f.password == "" then Some(PasswordMissing)
    else if Utf16Length(f.password) < 6 then Some(PasswordShort)
    else if f.password != f.confirmPassword then Some(PasswordsDiffer)
    else None
  }

  /** No address format is checked: any e-mail text with a non-space character passes, even
    * one without an '@'. */
  lemma NoEmailFormatCheck(f: WebForm)
    requires !Blank(f.displayName) && Utf16Length(f.password) >= 6 && f.password == f.confirmPassword
    ensures FirstFormError(f.(email := "x")).None?
  {
    assert !IsWhitespace('x');
    assert !Blank("x") by { assert "x"[0] == 'x'; }
  }

  /** The message for a failed `createUserWithEmailAndPassword`, by error code. */
  function SignUpErrorText(code: string): (m: string)
    ensures code == "auth/email-already-in-use"
        ==> m == "An account with this email already exists"
    ensures code == "auth/weak-password" ==> m == "Password is too weak"
    ensures code != "auth/email-already-in-use" && code != "auth/weak-password"
        ==> m == "Failed to create account. Please try again."
  {
    if code == "auth/email-already-in-use" then "An account with this email already exists"
    else if code == "auth/weak-password" then "Password is too weak"
    else "Failed to create account. Please try again."
  }

  /** Only the two known codes get their own message; every other code shares one. */
  lemma SignUpErrorTextKnownCodes(c: string, d: string)
    requires SignUpErrorText(c) == SignUpErrorText(d)
    requires c == "auth/email-already-in-use" || c == "auth/weak-password"
    ensures c == d
  {
  }

  /** The web `User` record (`types/index.ts`); `joinDate` is a clock reading. */
  datatype WebUser = WebUser(uid: string, email: string, displayName: string,
                             photoUrl: Option<string>, greenPoints: int, carbonOffset: real,
                             joinDate: int, level: int, badges: seq<Badge>)

  /** The record written for a new account: the form's e-mail and name as typed (not
    * trimmed), the credential's photo unless it is missing or empty, and zero points. */
  function NewWebUser(uid: string, f: WebForm, credentialPhoto: Option<string>, now: int)
    : (u: WebUser)
    ensures u.uid == uid && u.email == f.email && u.displayName == f.displayName
    ensures u.photoUrl.Some? <==> credentialPhoto.Some? && credentialPhoto.value != ""
    ensures u.photoUrl.Some? ==> u.photoUrl == credentialPhoto
    ensures u.greenPoints == 0 && u.carbonOffset == 0.0 && u.level == 1 && u.badges == []
    ensures u.joinDate == now
  {
    WebUser(uid, f.email, f.displayName,
            if credentialPhoto.Some? && credentialPhoto.value != "" then credentialPhoto
            else None,
            0, 0.0, now, 1, [])
  }

  /** A name accepted with spaces around it is stored with those spaces. */
  lemma NameStoredUntrimmed(uid: string, f: WebForm, now: int)
    requires WebFormValid(f)
    ensures NewWebUser(uid, f.(displayName := " " + f.displayName), None, now).displayName
            == " " + f.displayName
    ensures FirstFormError(f.(displayName := " " + f.displayName)).None?
  {
    var g := f.(displayName := " " + f.displayName);
    var k :| 0 <= k < |f.displayName| && !IsWhitespace(f.displayName[k]);
    assert g.displayName[k + 1] == f.displayName[k];
  }
}
