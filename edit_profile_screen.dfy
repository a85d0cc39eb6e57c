/**
 * The mobile edit-profile screen (`components/screens/EditProfileScreen.tsx`): the form, the
 * notification and location toggles with their defaults, validation, and the update the save
 * button sends through the session store.
 */
module EditProfileScreen {
  import opened Wrappers
  import opened Types
  import opened Text
  import opened Validation
  import opened FormRules
  import opened Profile
  import opened AuthService
  import opened AuthStore

  datatype EditFields = EditFields(displayName: string, email: string, bio: string, location: string)

  datatype EditField = DisplayNameField | EmailField | BioField | LocationField

  /** Only the name and the address have messages. */
  datatype EditErrors = EditErrors(displayName: string, email: string)

  /** The preferences the screen edits: the notifications and location sharing. */
  datatype ScreenPreferences = ScreenPreferences(notifications: NotificationPreferences, locationSharing: bool)

  datatype NotificationKey = AchievementsKey | ChallengesKey | RemindersKey | MarketingKey

  function Notification(n: NotificationPreferences, k: NotificationKey): bool {
    match k
    case AchievementsKey => n.achievements
    case ChallengesKey => n.challenges
    case RemindersKey => n.reminders
    case MarketingKey => n.marketing
  }

  /** `{ ...n, [k]: !n[k] }`. */
  function Toggled(n: NotificationPreferences, k: NotificationKey): (r: NotificationPreferences)
    ensures Notification(r, k) == !Notification(n, k)
    ensures forall j :: j != k ==> Notification(r, j) == Notification(n, j)
  {
    match k
    case AchievementsKey => n.(achievements := !n.achievements)
    case ChallengesKey => n.(challenges := !n.challenges)
    case RemindersKey => n.(reminders := !n.reminders)
    case MarketingKey => n.(marketing := !n.marketing)
  }

  /** Toggling a key twice restores the settings. */
  lemma ToggleTwice(n: NotificationPreferences, k: NotificationKey)
    ensures Toggled(Toggled(n, k), k) == n
  {
  }

  /** The preferences the screen starts from: the profile's, or on and off defaults (every
    * notification on except marketing, location sharing on) without a profile. */
  function InitialPreferences(profile: Option<UserProfileData>): (p: ScreenPreferences)
    ensures profile.None? ==> p.notifications == NotificationPreferences(true, true, true, false) && p.locationSharing
    ensures profile.Some? ==> && p.notifications == profile.value.preferences.notifications
                              && p.locationSharing == profile.value.preferences.locationSharing
  {
    if profile.Some? then
      ScreenPreferences(profile.value.preferences.notifications, profile.value.preferences.locationSharing)
    else ScreenPreferences(DefaultNotifications, true)
  }

  /** The defaults of the screen are the settings a new profile is seeded with. */
  lemma DefaultsMatchSeededProfile(uid: string, email: string, photoUrl: Option<string>, name: string, now: int)
    ensures InitialPreferences(Some(SeedProfile(uid, email, photoUrl, name, now))) == InitialPreferences(None)
  {
  }

  /** The update `handleSave` sends: the trimmed name, and the edited preferences with the
    * profile's camera settings (medium quality, auto-analyse on, no gallery copy without a
    * profile). No other key is present. */
  function SaveUpdates(displayName: string, prefs: ScreenPreferences, profile: Option<UserProfileData>)
    : (u: PartialProfile)
    ensures u.displayName == Some(Trim(displayName))
    ensures u.preferences.Some? && u.preferences.value.notifications == prefs.notifications
    ensures u.preferences.value.locationSharing == prefs.locationSharing
    ensures u.preferences.value.cameraSettings ==
      if profile.Some? then profile.value.preferences.cameraSettings else CameraSettings(Quality.Medium, true, false)
    ensures forall k :: k != DisplayNameKey && k != PreferencesKey ==> Lookup(u, k).None?
  {
    var camera := if profile.Some? then profile.value.preferences.cameraSettings else DefaultCameraSettings;
    NoUpdates.(displayName := Some(Trim(displayName)),
               preferences := Some(Preferences(prefs.notifications, camera, prefs.locationSharing)))
  }

  /** Saving keeps every part of the profile except the name and the preferences, and keeps
    * the profile's camera settings. */
  lemma SaveKeepsTheRest(p: UserProfileData, displayName: string, prefs: ScreenPreferences)
    ensures var r := Merge(p, SaveUpdates(displayName, prefs, Some(p)));
      && r.displayName == Trim(displayName)
      && r.preferences == Preferences(prefs.notifications, p.preferences.cameraSettings, prefs.locationSharing)
      && forall k :: k != DisplayNameKey && k != PreferencesKey ==> Get(r, k) == Get(p, k)
  {
  }

  /** The form may be saved: a name of 2 or more characters and a non-blank valid address. */
  predicate EditValid(f: EditFields) {
    Utf16Length(Trim(f.displayName)) >= 2 && !Blank(f.email) && ValidateEmail(f.email)
  }

  class EditProfileForm {
    var form: EditFields
    var preferences: ScreenPreferences
    var errors: EditErrors
    var isLoading: bool

    /** The form starts from the signed-in user's name and address and the profile's
      * preferences. */
    constructor (user: Option<Identity>, profile: Option<UserProfileData>)
      ensures form == EditFields(if user.Some? then user.value.displayName else "",
                                 if user.Some? then user.value.email else "", "", "")
      ensures preferences == InitialPreferences(profile) && errors == EditErrors("", "") && !isLoading
    {
      form := EditFields(if user.Some? then user.value.displayName else "",
                         if user.Some? then user.value.email else "", "", "");
      preferences := InitialPreferences(profile);
      errors := EditErrors("", "");
      isLoading := false;
    }

    /** `validateForm`: both messages are computed on every call. */
    method ValidateForm() returns (valid: bool)
      modifies this
      ensures valid <==> EditValid(form)
      ensures errors == EditErrors(NameError(form.displayName), EmailError(form.email))
      ensures form == old(form) && preferences == old(preferences) && isLoading == old(isLoading)
    {
      valid := true;
      var newErrors := EditErrors("", "");
      if Trim(form.displayName) == "" {
        newErrors := newErrors.(displayName := "Name is required");
        valid := false;
      } else if Utf16Length(Trim(form.displayName)) < 2 {
        newErrors := newErrors.(displayName := "Name must be at least 2 characters");
        valid := false;
      }
      if Trim(form.email) == "" {
        newErrors := newErrors.(email := "Email is required");
        valid := false;
      } else if !ValidateEmail(form.email) {
        newErrors := newErrors.(email := "Please enter a valid email address");
        valid := false;
      }
      errors := newErrors;
    }

    /** `handleSave`: an invalid form sends nothing; otherwise the update goes through the
      * store's `updateUserProfile`, and loading is off again afterwards. */
    method HandleSave(store: SessionStore, serviceOk: bool) returns (sent: Option<PartialProfile>, ok: bool)
      requires store.Valid()
      modifies this, store
      ensures store.Valid() && form == old(form) && preferences == old(preferences)
      ensures isLoading == if sent.Some? then false else old(isLoading)
      ensures sent.Some? <==> EditValid(form)
      ensures sent.Some? ==> sent.value == SaveUpdates(form.displayName, preferences, old(store.userProfile))
      ensures ok <==> sent.Some? && serviceOk && old(store.user).Some? && old(store.userProfile).Some?
      ensures store.userProfile == if ok then Some(Merge(old(store.userProfile).value, sent.value))
                                   else old(store.userProfile)
      ensures errors == EditErrors(NameError(form.displayName), EmailError(form.email))
      ensures store.user == old(store.user) && store.error == old(store.error)
      ensures store.isLoading == old(store.isLoading)
    {
      var valid := ValidateForm();
      if !valid {
        return None, false;
      }
      var updates;
      updates, ok := SaveValidForm(store, serviceOk);
      sent := Some(updates);
    }

    /** The part of `handleSave` after validation has passed: loading is on while the store's
      * `updateUserProfile` runs with the name and preferences, and off again afterwards. */
    method SaveValidForm(store: SessionStore, serviceOk: bool) returns (updates: PartialProfile, ok: bool)
      requires store.Valid()
      modifies this, store
      ensures store.Valid() && form == old(form) && preferences == old(preferences) && !isLoading
      ensures updates == SaveUpdates(form.displayName, preferences, old(store.userProfile))
      ensures ok <==> serviceOk && old(store.user).Some? && old(store.userProfile).Some?
      ensures store.userProfile == if ok then Some(Merge(old(store.userProfile).value, updates))
                                   else old(store.userProfile)
      ensures errors == old(errors)
      ensures store.user == old(store.user) && store.error == old(store.error)
      ensures store.isLoading == old(store.isLoading)
    {
      isLoading := true;
      updates := SaveUpdates(form.displayName, preferences, store.userProfile);
      var called;
      ok, called := store.UpdateUserProfile(updates, serviceOk);
      isLoading := false;
    }

    /** `updateFormData`: sets one field; only the name and the address have a message to
      * clear. */
    method UpdateFormData(f: EditField, value: string)
      modifies this
      ensures form == match f
        case DisplayNameField => old(form).(displayName := value)
        case EmailField => old(form).(email := value)
        case BioField => old(form).(bio := value)
        case LocationField => old(form).(location := value)
      ensures errors == match f
        case DisplayNameField => old(errors).(displayName := "")
        case EmailField => old(errors).(email := "")
        case _ => old(errors)
      ensures preferences == old(preferences) && isLoading == old(isLoading)
    {
      match f {
        case DisplayNameField =>
          form := form.(displayName := value);
          errors := errors.(displayName := "");
        case EmailField =>
          form := form.(email := value);
          errors := errors.(email := "");
        case BioField =>
          form := form.(bio := value);
        case LocationField =>
          form := form.(location := value);
      }
    }

    /** `toggleNotificationPreference`: flips one notification. */
    method ToggleNotificationPreference(k: NotificationKey)
      modifies this
      ensures preferences == old(preferences).(notifications := Toggled(old(preferences).notifications, k))
      ensures form == old(form) && errors == old(errors) && isLoading == old(isLoading)
    {
      preferences := preferences.(notifications := Toggled(preferences.notifications, k));
    }

    /** The location switch: flips location sharing only. */
    method ToggleLocationSharing()
      modifies this
      ensures preferences == old(preferences).(locationSharing := !old(preferences).locationSharing)
      ensures form == old(form) && errors == old(errors) && isLoading == old(isLoading)
    {
      preferences := preferences.(locationSharing := !preferences.locationSharing);
    }
  }
}
