/**
 * The session store of the mobile application (`store/authStore.ts`): who is signed in, their
 * profile, a loading flag and the last error. Each action's call into the authentication
 * service is a parameter carrying the service's answer.
 */
module AuthStore {
  import opened Wrappers
  import opened Profile
  import opened AuthService
  import opened Text

  /** `message || fallback`: the service's message unless it is missing or empty. */
  function MessageOr(message: Option<string>, fallback: string): (r: string)
    ensures r == fallback || (message == Some(r) && r != "")
    ensures message.Some? && message.value != "" ==> r == message.value
  {
    if message.Some? && message.value != "" then message.value else fallback
  }

  /** `result.success && result.user`: success needs a user object as well. */
  predicate Accepted(result: AuthResult) {
    result.success && result.user.Some?
  }

  class SessionStore {
    var user: Option<Identity>
    var userProfile: Option<UserProfileData>
    var isLoading: bool
    var isAuthenticated: bool
    var error: Option<string>

    /** The flag agrees with the user, and a profile is only held for a signed-in user. */
    predicate Valid()
      reads this
    {
      (isAuthenticated <==> user.Some?) && (userProfile.Some? ==> user.Some?)
    }

    /** The state the store starts in: nobody signed in, loading. */
    constructor ()
      ensures Valid()
      ensures user.None? && userProfile.None? && isLoading && !isAuthenticated && error.None?
    {
      user := None;
      userProfile := None;
      isLoading := true;
      isAuthenticated := false;
      error := None;
    }

    /** `signIn`: the answer is whether the service accepted; the session itself is left to the
      * auth-state listener, so only the loading flag and the error change. */
    method SignIn(result: AuthResult) returns (ok: bool)
      requires Valid()
      modifies this
      ensures Valid() && ok == Accepted(result) && !isLoading
      ensures error == if ok then None else Some(MessageOr(result.error, "Sign in failed"))
      ensures user == old(user) && userProfile == old(userProfile) && isAuthenticated == old(isAuthenticated)
    {
      isLoading, error := true, None;
      if Accepted(result) {
        isLoading := false;
        return true;
      }
      isLoading, error := false, Some(MessageOr(result.error, "Sign in failed"));
      return false;
    }

    /** `signUp`: as `signIn`, with its own fallback message. */
    method SignUp(result: AuthResult) returns (ok: bool)
      requires Valid()
      modifies this
      ensures Valid() && ok == Accepted(result) && !isLoading
      ensures error == if ok then None else Some(MessageOr(result.error, "Sign up failed"))
      ensures user == old(user) && userProfile == old(userProfile) && isAuthenticated == old(isAuthenticated)
    {
      isLoading, error := true, None;
      if Accepted(result) {
        isLoading := false;
        return true;
      }
      isLoading, error := false, Some(MessageOr(result.error, "Sign up failed"));
      return false;
    }

    /** `signInWithGoogle`: as `signIn`, with its own fallback message. */
    method SignInWithGoogle(result: AuthResult) returns (ok: bool)
      requires Valid()
      modifies this
      ensures Valid() && ok == Accepted(result) && !isLoading
      ensures error == if ok then None else Some(MessageOr(result.error, "Google sign in failed"))
      ensures user == old(user) && userProfile == old(userProfile) && isAuthenticated == old(isAuthenticated)
    {
      isLoading, error := true, None;
      if Accepted(result) {
        isLoading := false;
        return true;
      }
      isLoading, error := false, Some(MessageOr(result.error, "Google sign in failed"));
      return false;
    }

    /** `signOut`: whatever the service answers, the session ends cleared. */
    method SignOut()
      requires Valid()
      modifies this
      ensures Valid()
      ensures user.None? && userProfile.None? && !isLoading && !isAuthenticated && error.None?
    {
      isLoading := true;
      user, userProfile, isLoading, isAuthenticated, error := None, None, false, false, None;
    }

    /** `resetPassword`: clears the error, records the failure message, and answers the
      * service's success; nothing else changes. */
    method ResetPassword(result: AuthResult) returns (ok: bool)
      requires Valid()
      modifies this
      ensures Valid() && ok == result.success
      ensures error == if ok then None else Some(MessageOr(result.error, "Password reset failed"))
      ensures user == old(user) && userProfile == old(userProfile)
      ensures isLoading == old(isLoading) && isAuthenticated == old(isAuthenticated)
    {
      error := None;
      if !result.success {
        error := Some(MessageOr(result.error, "Password reset failed"));
        return false;
      }
      return true;
    }

    /** `clearError`. */
    method ClearError()
      requires Valid()
      modifies this
      ensures Valid() && error.None?
      ensures user == old(user) && userProfile == old(userProfile)
      ensures isLoading == old(isLoading) && isAuthenticated == old(isAuthenticated)
    {
      error := None;
    }

    /** `loadUserProfile`: with a signed-in user, the profile becomes what the service fetched
      * for that uid (possibly nothing); without one, nothing happens. */
    method LoadUserProfile(fetched: Option<UserProfileData>)
      requires Valid()
      modifies this
      ensures Valid()
      ensures userProfile == if old(user).Some? then fetched else old(userProfile)
      ensures user == old(user) && isLoading == old(isLoading)
      ensures isAuthenticated == old(isAuthenticated) && error == old(error)
    {
      if user.None? {
        return;
      }
      userProfile := fetched;
    }

    /** `updateUserProfile`: without a user or a profile the service is not called (`called`
      * is false) and the answer is false; otherwise the answer is the service's, and on
      * success the profile becomes `{ ...userProfile, ...updates }`. */
    method UpdateUserProfile(updates: PartialProfile, serviceOk: bool) returns (ok: bool, called: bool)
      requires Valid()
      modifies this
      ensures Valid()
      ensures called <==> old(user).Some? && old(userProfile).Some?
      ensures ok <==> called && serviceOk
      ensures userProfile == if ok then Some(Merge(old(userProfile).value, updates)) else old(userProfile)
      ensures user == old(user) && isLoading == old(isLoading)
      ensures isAuthenticated == old(isAuthenticated) && error == old(error)
    {
      if user.None? || userProfile.None? {
        return false, false;
      }
      called := true;
      ok := serviceOk;
      if ok {
        userProfile := Some(Merge(userProfile.value, updates));
      }
    }

    /** The state update of the auth-state listener and of the demo bootstrap: a user and the
      * profile fetched for them, or the cleared session. The error is left as it was. */
    method ApplyAuthState(signedIn: Option<Identity>, fetched: Option<UserProfileData>)
      requires Valid()
      modifies this
      ensures Valid() && !isLoading && error == old(error)
      ensures user == signedIn && isAuthenticated == signedIn.Some?
      ensures userProfile == if signedIn.Some? then fetched else None
    {
      if signedIn.Some? {
        user, userProfile, isAuthenticated, isLoading := signedIn, fetched, true, false;
      } else {
        user, userProfile, isAuthenticated, isLoading := None, None, false, false;
      }
    }

    /** The demo branch of `initializeAuth`: the identity stored under '@demo_user', if any,
      * becomes the session with its fetched profile; a missing entry or a failing read clears
      * the session. Loading ends in every branch. */
    method InitializeAuthDemo(stored: Option<Identity>, fetched: Option<UserProfileData>, storageFault: bool)
      requires Valid()
      modifies this
      ensures Valid() && !isLoading && error == old(error)
      ensures isAuthenticated <==> !storageFault && stored.Some?
      ensures user == if storageFault then None else stored
      ensures userProfile == if !storageFault && stored.Some? then fetched else None
    {
      if storageFault {
        ApplyAuthState(None, None);
      } else {
        ApplyAuthState(stored, fetched);
      }
    }
  }

  /** The demo service and the store together: after a demo sign-up the store reports
    * success, and bootstrapping from the stored '@demo_user' entry signs the new user in with
    * the profile seeded for them. */
  method DemoSignUpThenBootstrap(service: DemoAuthService, store: SessionStore, email: string,
                                 password: string, displayName: string, now: nat)
    requires service.Valid() && store.Valid() && Utf16Length(password) >= 6 && email !in service.users
    modifies service, store
    ensures service.Valid() && store.Valid()
    ensures store.isAuthenticated && store.user == Some(DemoIdentity(email, displayName, now))
    ensures store.userProfile.Some? && store.userProfile.value.greenPoints == 0
    ensures store.userProfile.value.email == email && store.userProfile.value.displayName == displayName
  {
    var r := service.SignUp(email, password, displayName, now, false);
    var ok := store.SignUp(r);
    var stored := service.currentUser;
    var profile := service.GetUserProfile(stored.value.uid, false);
    store.InitializeAuthDemo(stored, profile, false);
  }
}
