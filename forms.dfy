/**
 * The field rules the mobile sign-up, login, forgot-password and edit-profile screens share.
 * A field's message is "" when the field passes.
 */
module FormRules {
  import opened Text
  import opened Validation

  const NameRequired := "Name is required"
  const NameTooShort := "Name must be at least 2 characters"
  const EmailRequired := "Email is required"
  const EmailInvalid := "Please enter a valid email address"

  /** The display-name rule: required, and at least 2 characters once trimmed. */
  function NameError(name: string): (m: string)
    ensures m == "" <==> Utf16Length(Trim(name)) >= 2
    ensures m == NameRequired <==> Blank(name)
    ensures m == "" || m == NameRequired || m == NameTooShort
  {
    if Trim(name) == "" then NameRequired
    else if Utf16Length(Trim(name)) < 2 then NameTooShort
    else ""
  }

  /** The e-mail rule: required once trimmed, and the untrimmed text must be an address. */
  function EmailError(email: string): (m: string)
    ensures m == "" <==> !Blank(email) && ValidateEmail(email)
    ensures m == EmailRequired <==> Blank(email)
    ensures m == EmailInvalid <==> !Blank(email) && !ValidateEmail(email)
  {
    if Trim(email) == "" then EmailRequired
    else if !ValidateEmail(email) then EmailInvalid
    else ""
  }

  /** An address with white space around it is refused, although its trimmed form (the text
    * that would be sent) may be a valid address. */
  lemma PaddedEmailRefused(email: string)
    requires ValidateEmail(email)
    ensures EmailError(" " + email) == EmailInvalid && EmailError(email + " ") == EmailInvalid
  {
    EmailRejectsWhitespace(" " + email, 0);
    EmailRejectsWhitespace(email + " ", |email|);
    assert !Blank(" " + email) by { assert email[0] == (" " + email)[1]; EmailIsNotBlank(email); }
    assert !Blank(email + " ") by { assert email[0] == (email + " ")[0]; EmailIsNotBlank(email); }
  }

  /** An accepted address has a character that is not white space. */
  lemma EmailIsNotBlank(email: string)
    requires ValidateEmail(email)
    ensures |email| > 0 && !IsWhitespace(email[0])
  {
    var i, j :| EmailSplit(email, i, j);
  }
}
