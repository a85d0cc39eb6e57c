/**
 * The authentication service of the mobile application (`services/authService.ts`) in its
 * demo mode, where the hosted backend is absent and accounts live on the device. The device
 * storage is three in-memory tables: the accounts under '@demo_users' (email to identity and
 * password), the signed-in identity under '@demo_user', and one profile per uid under
 * '@demo_profile_<uid>'.
 */
module AuthService {
  import opened Wrappers
  import opened Text
  import opened Profile

  /** The user object the service hands out: the fields of the demo user. */
  datatype Identity = Identity(uid: string, email: string, displayName: string,
                               photoUrl: Option<string>, emailVerified: bool)

  /** A stored account: the identity with its password beside it. */
  datatype Account = Account(identity: Identity, password: string)

  /** `AuthResult`: success, the user on success, a message on failure. */
  datatype AuthResult = AuthResult(success: bool, user: Option<Identity>, error: Option<string>)

  function Succeeded(u: Identity): AuthResult { AuthResult(true, Some(u), None) }

  function Failed(message: string): AuthResult { AuthResult(false, None, Some(message)) }

  /** The identity of a new demo account; its uid is 'demo-' and the clock reading. */
  function DemoIdentity(email: string, displayName: string, now: nat): (u: Identity)
    ensures StartsWith(u.uid, "demo-") && u.email == email && u.displayName == displayName
    ensures u.photoUrl.None? && u.emailVerified
  {
    Identity("demo-" + NatToString(now), email, displayName, None, true)
  }

  /** Two accounts created at different clock readings get different uids. */
  lemma DemoUidsDiffer(e1: string, n1: string, t1: nat, e2: string, n2: string, t2: nat)
    requires t1 != t2
    ensures DemoIdentity(e1, n1, t1).uid != DemoIdentity(e2, n2, t2).uid
  {
    var s1, s2 := NatToString(t1), NatToString(t2);
    if "demo-" + s1 == "demo-" + s2 {
      assert s1 == ("demo-" + s1)[5..] == ("demo-" + s2)[5..] == s2;
      NatToStringRoundTrip(t1);
      NatToStringRoundTrip(t2);
    }
  }

  /** The message for a Firebase error code (`getErrorMessage`). */
  function ErrorMessage(code: string): (m: string)
    ensures m == "An error occurred. Please try again." <==> code !in KnownErrorCodes
  {
    match code
    case "auth/user-not-found" => "No account found with this email address."
    case "auth/wrong-password" => "Incorrect password. Please try again."
    case "auth/email-already-in-use" => "An account with this email already exists."
    case "auth/weak-password" => "Password should be at least 6 characters long."
    case "auth/invalid-email" => "Please enter a valid email address."
    case "auth/too-many-requests" => "Too many failed attempts. Please try again later."
    case "auth/network-request-failed" => "Network error. Please check your connection."
    case _ => "An error occurred. Please try again."
  }

  /** The codes `getErrorMessage` knows. */
  const KnownErrorCodes: set<string> := {
    "auth/user-not-found", "auth/wrong-password", "auth/email-already-in-use",
    "auth/weak-password", "auth/invalid-email", "auth/too-many-requests",
    "auth/network-request-failed"
  }

  /** The demo paths report the same text as the backend's matching error codes. */
  lemma DemoMessagesMatchErrorCodes()
    ensures ErrorMessage("auth/weak-password") == WeakPasswordMessage
    ensures ErrorMessage("auth/email-already-in-use") == AccountExistsMessage
    ensures ErrorMessage("auth/user-not-found") == NoAccountMessage
    ensures ErrorMessage("auth/wrong-password") == WrongPasswordMessage
  {
  }

  const WeakPasswordMessage := "Password should be at least 6 characters long."
  const AccountExistsMessage := "An account with this email already exists."
  const NoAccountMessage := "No account found with this email address."
  const WrongPasswordMessage := "Incorrect password. Please try again."
  const SignUpFailedMessage := "Sign up failed. Please try again."
  const SignInFailedMessage := "Sign in failed. Please try again."

  /** `signInWithGoogle`: social sign-in is not available and always fails. */
  function SignInWithGoogle(): (r: AuthResult)
    ensures !r.success && r.user.None? && r.error == Some("Google Sign-In not implemented yet")
  {
    Failed("Google Sign-In not implemented yet")
  }

  /** `resetPassword` in demo mode: no mail is sent and the call always succeeds. */
  function ResetPassword(email: string): (r: AuthResult)
    ensures r.success && r.error.None?
  {
    AuthResult(true, None, None)
  }

  /** The demo service and the device storage it reads and writes. A `storageFault` argument
    * stands for the first storage read of a call throwing. */
  class DemoAuthService {
    /** '@demo_users': the accounts, keyed by email. */
    var users: map<string, Account>
    /** '@demo_user': the signed-in identity, if any. */
    var currentUser: Option<Identity>
    /** '@demo_profile_<uid>': the profiles, keyed by uid. */
    var profiles: map<string, UserProfileData>

    /** Every account is stored under its own email and has a profile, and the signed-in
      * identity belongs to a stored account. */
    predicate Valid()
      reads this
    {
      && (forall e :: e in users ==> users[e].identity.email == e && users[e].identity.uid in profiles)
      && (currentUser.Some? ==> currentUser.value.email in users
                                 && users[currentUser.value.email].identity == currentUser.value)
    }

    /** Fresh, empty storage. */
    constructor ()
      ensures Valid() && users == map[] && currentUser.None? && profiles == map[]
    {
      users := map[];
      currentUser := None;
      profiles := map[];
    }

    /** `handleDemoSignUp`: the password length is checked first, then the accounts are read
      * and an existing email refused; otherwise the account, the signed-in identity and the
      * seeded profile are written. */
    method SignUp(email: string, password: string, displayName: string, now: nat, storageFault: bool)
      returns (r: AuthResult)
      requires Valid()
      modifies this
      ensures Valid()
      ensures Utf16Length(password) < 6 ==> r == Failed(WeakPasswordMessage)
      ensures Utf16Length(password) >= 6 && storageFault ==> r == Failed(SignUpFailedMessage)
      ensures Utf16Length(password) >= 6 && !storageFault && email in old(users) ==> r == Failed(AccountExistsMessage)
      ensures !r.success ==> users == old(users) && currentUser == old(currentUser) && profiles == old(profiles)
      ensures r.success <==> Utf16Length(password) >= 6 && !storageFault && email !in old(users)
      ensures r.success ==>
        var u := DemoIdentity(email, displayName, now);
        && r == Succeeded(u)
        && users == old(users)[email := Account(u, password)]
        && currentUser == Some(u)
        && profiles == old(profiles)[u.uid := SeedProfile(u.uid, email, None, displayName, now)]
    {
      if Utf16Length(password) < 6 {
        return Failed(WeakPasswordMessage);
      }
      if storageFault {
        return Failed(SignUpFailedMessage);
      }
      if email in users {
        return Failed(AccountExistsMessage);
      }
      var u := DemoIdentity(email, displayName, now);
      users := users[email := Account(u, password)];
      currentUser := Some(u);
      profiles := profiles[u.uid := SeedProfile(u.uid, email, None, displayName, now)];
      r := Succeeded(u);
    }

    /** `handleDemoSignIn`: an unknown email and a wrong password are refused; otherwise the
      * stored identity, without its password, becomes the signed-in identity. */
    method SignIn(email: string, password: string, storageFault: bool) returns (r: AuthResult)
      requires Valid()
      modifies this
      ensures Valid() && users == old(users) && profiles == old(profiles)
      ensures storageFault ==> r == Failed(SignInFailedMessage)
      ensures !storageFault && email !in users ==> r == Failed(NoAccountMessage)
      ensures !storageFault && email in users && users[email].password != password ==> r == Failed(WrongPasswordMessage)
      ensures r.success <==> !storageFault && email in users && users[email].password == password
      ensures r.success ==> r == Succeeded(users[email].identity) && currentUser == Some(users[email].identity)
      ensures !r.success ==> currentUser == old(currentUser)
    {
      if storageFault {
        return Failed(SignInFailedMessage);
      }
      if email !in users {
        return Failed(NoAccountMessage);
      }
      var account := users[email];
      if account.password != password {
        return Failed(WrongPasswordMessage);
      }
      currentUser := Some(account.identity);
      r := Succeeded(account.identity);
    }

    /** `signOut` in demo mode: only the signed-in identity is removed. */
    method SignOut() returns (r: AuthResult)
      requires Valid()
      modifies this
      ensures Valid() && r.success && r.error.None?
      ensures currentUser.None? && users == old(users) && profiles == old(profiles)
    {
      currentUser := None;
      r := AuthResult(true, None, None);
    }

    /** `getUserProfile` in demo mode: the stored profile, or null when there is none or the
      * read fails. */
    method GetUserProfile(uid: string, storageFault: bool) returns (p: Option<UserProfileData>)
      ensures p.Some? <==> !storageFault && uid in profiles
      ensures p.Some? ==> p.value == profiles[uid]
    {
      if storageFault || uid !in profiles {
        return None;
      }
      return Some(profiles[uid]);
    }

    /** `updateUserProfile` in demo mode: the stored profile becomes `{ ...profile, ...updates }`;
      * with no stored profile, or when the read fails, nothing is written and the answer is
      * false. */
    method UpdateUserProfile(uid: string, updates: PartialProfile, storageFault: bool) returns (ok: bool)
      requires Valid()
      modifies this
      ensures Valid() && users == old(users) && currentUser == old(currentUser)
      ensures ok <==> !storageFault && uid in old(profiles)
      ensures profiles == if ok then old(profiles)[uid := Merge(old(profiles)[uid], updates)] else old(profiles)
    {
      if storageFault || uid !in profiles {
        return false;
      }
      profiles := profiles[uid := Merge(profiles[uid], updates)];
      return true;
    }
  }

  /** Signing up, signing out and signing in again with the same email and password returns
    * the same identity, with the same uid, and leaves it signed in. */
  method SignUpSignOutSignIn(s: DemoAuthService, email: string, password: string,
                             displayName: string, now: nat)
    returns (up: AuthResult, back: AuthResult)
    requires s.Valid() && Utf16Length(password) >= 6 && email !in s.users
    modifies s
    ensures s.Valid() && up.success && back.success
    ensures up.user == back.user == Some(DemoIdentity(email, displayName, now))
    ensures s.currentUser == back.user
  {
    up := s.SignUp(email, password, displayName, now, false);
    var _ := s.SignOut();
    back := s.SignIn(email, password, false);
  }
}
