/**
 * The stored user profile (`UserProfileData` of `services/authService.ts`), the partial
 * update object `Partial<UserProfileData>`, and the object spread `{ ...profile, ...updates }`
 * that both stores and the demo service use to apply one to the other.
 */
module Profile {
  import opened Wrappers
  import opened Types

  datatype Platform = Ios | Android

  datatype DeviceInfo = DeviceInfo(platform: Platform, version: string, pushToken: Option<string>)

  datatype Preferences = Preferences(notifications: NotificationPreferences,
                                     cameraSettings: CameraSettings, locationSharing: bool)

  datatype OfflineData = OfflineData(lastSyncTimestamp: int, pendingActions: seq<OfflineAction>,
                                     cachedVendors: seq<Vendor>)

  /** A user profile; `joinDate` is a millisecond timestamp. */
  datatype UserProfileData =
    UserProfileData(uid: string, email: string, displayName: string, photoUrl: Option<string>,
                    greenPoints: int, carbonOffset: real, joinDate: int, level: int,
                    badges: seq<Badge>, deviceInfo: DeviceInfo, preferences: Preferences,
                    offlineData: OfflineData)

  /** `Partial<UserProfileData>`: each top-level key is either present with a value or absent. */
  datatype PartialProfile =
    PartialProfile(uid: Option<string>, email: Option<string>, displayName: Option<string>,
                  photoUrl: Option<Option<string>>, greenPoints: Option<int>,
                  carbonOffset: Option<real>, joinDate: Option<int>, level: Option<int>,
                  badges: Option<seq<Badge>>, deviceInfo: Option<DeviceInfo>,
                  preferences: Option<Preferences>, offlineData: Option<OfflineData>)

  /** The empty update `{}`. */
  const NoUpdates := PartialProfile(None, None, None, None, None, None, None, None, None, None, None, None)

  /** The top-level keys of a profile. */
  datatype Key = UidKey | EmailKey | DisplayNameKey | PhotoUrlKey | GreenPointsKey
               | CarbonOffsetKey | JoinDateKey | LevelKey | BadgesKey | DeviceInfoKey
               | PreferencesKey | OfflineDataKey

  /** The value stored under one key. */
  datatype Value = Str(s: string) | MaybeText(o: Option<string>) | Whole(i: int) | Fraction(r: real)
                 | BadgeList(b: seq<Badge>) | Device(d: DeviceInfo) | Prefs(p: Preferences)
                 | Offline(data: OfflineData)

  /** The value of key `k` in profile `p` (`p[k]`). */
  function Get(p: UserProfileData, k: Key): Value {
    match k
    case UidKey => Str(p.uid)
    case EmailKey => Str(p.email)
    case DisplayNameKey => Str(p.displayName)
    case PhotoUrlKey => MaybeText(p.photoUrl)
    case GreenPointsKey => Whole(p.greenPoints)
    case CarbonOffsetKey => Fraction(p.carbonOffset)
    case JoinDateKey => Whole(p.joinDate)
    case LevelKey => Whole(p.level)
    case BadgesKey => BadgeList(p.badges)
    case DeviceInfoKey => Device(p.deviceInfo)
    case PreferencesKey => Prefs(p.preferences)
    case OfflineDataKey => Offline(p.offlineData)
  }

  /** The value of key `k` in update `u`, if `u` has that key. */
  function Lookup(u: PartialProfile, k: Key): Option<Value> {
    match k
    case UidKey => if u.uid.Some? then Some(Str(u.uid.value)) else None
    case EmailKey => if u.email.Some? then Some(Str(u.email.value)) else None
    case DisplayNameKey => if u.displayName.Some? then Some(Str(u.displayName.value)) else None
    case PhotoUrlKey => if u.photoUrl.Some? then Some(MaybeText(u.photoUrl.value)) else None
    case GreenPointsKey => if u.greenPoints.Some? then Some(Whole(u.greenPoints.value)) else None
    case CarbonOffsetKey => if u.carbonOffset.Some? then Some(Fraction(u.carbonOffset.value)) else None
    case JoinDateKey => if u.joinDate.Some? then Some(Whole(u.joinDate.value)) else None
    case LevelKey => if u.level.Some? then Some(Whole(u.level.value)) else None
    case BadgesKey => if u.badges.Some? then Some(BadgeList(u.badges.value)) else None
    case DeviceInfoKey => if u.deviceInfo.Some? then Some(Device(u.deviceInfo.value)) else None
    case PreferencesKey => if u.preferences.Some? then Some(Prefs(u.preferences.value)) else None
    case OfflineDataKey => if u.offlineData.Some? then Some(Offline(u.offlineData.value)) else None
  }

  /** Two profiles that agree on every key are the same profile. */
  lemma ProfileExtensional(p: UserProfileData, q: UserProfileData)
    requires forall k :: Get(p, k) == Get(q, k)
    ensures p == q
  {
    assert Get(p, UidKey) == Get(q, UidKey) && Get(p, EmailKey) == Get(q, EmailKey);
    assert Get(p, DisplayNameKey) == Get(q, DisplayNameKey) && Get(p, PhotoUrlKey) == Get(q, PhotoUrlKey);
    assert Get(p, GreenPointsKey) == Get(q, GreenPointsKey) && Get(p, CarbonOffsetKey) == Get(q, CarbonOffsetKey);
    assert Get(p, JoinDateKey) == Get(q, JoinDateKey) && Get(p, LevelKey) == Get(q, LevelKey);
    assert Get(p, BadgesKey) == Get(q, BadgesKey) && Get(p, DeviceInfoKey) == Get(q, DeviceInfoKey);
    assert Get(p, PreferencesKey) == Get(q, PreferencesKey) && Get(p, OfflineDataKey) == Get(q, OfflineDataKey);
  }

  /** Two updates that agree on every key are the same update. */
  lemma UpdateExtensional(u: PartialProfile, v: PartialProfile)
    requires forall k :: Lookup(u, k) == Lookup(v, k)
    ensures u == v
  {
    assert Lookup(u, UidKey) == Lookup(v, UidKey) && Lookup(u, EmailKey) == Lookup(v, EmailKey);
    assert Lookup(u, DisplayNameKey) == Lookup(v, DisplayNameKey) && Lookup(u, PhotoUrlKey) == Lookup(v, PhotoUrlKey);
    assert Lookup(u, GreenPointsKey) == Lookup(v, GreenPointsKey) && Lookup(u, CarbonOffsetKey) == Lookup(v, CarbonOffsetKey);
    assert Lookup(u, JoinDateKey) == Lookup(v, JoinDateKey) && Lookup(u, LevelKey) == Lookup(v, LevelKey);
    assert Lookup(u, BadgesKey) == Lookup(v, BadgesKey) && Lookup(u, DeviceInfoKey) == Lookup(v, DeviceInfoKey);
    assert Lookup(u, PreferencesKey) == Lookup(v, PreferencesKey) && Lookup(u, OfflineDataKey) == Lookup(v, OfflineDataKey);
  }

  /** `{ ...p, ...u }`: every key `u` has takes `u`'s value, every other key keeps `p`'s. */
  function Merge(p: UserProfileData, u: PartialProfile): (r: UserProfileData)
    ensures forall k :: Get(r, k) == if Lookup(u, k).Some? then Lookup(u, k).value else Get(p, k)
  {
    UserProfileData(
      u.uid.GetOr(p.uid), u.email.GetOr(p.email), u.displayName.GetOr(p.displayName),
      u.photoUrl.GetOr(p.photoUrl), u.greenPoints.GetOr(p.greenPoints),
      u.carbonOffset.GetOr(p.carbonOffset), u.joinDate.GetOr(p.joinDate), u.level.GetOr(p.level),
      u.badges.GetOr(p.badges), u.deviceInfo.GetOr(p.deviceInfo),
      u.preferences.GetOr(p.preferences), u.offlineData.GetOr(p.offlineData))
  }

  /** The later of two optional key values: `b` when present, else `a`. */
  function Later<T>(a: Option<T>, b: Option<T>): Option<T> {
    if b.Some? then b else a
  }

  /** `{ ...u, ...v }` on two updates (see CombineLookup). */
  function Combine(u: PartialProfile, v: PartialProfile): PartialProfile {
    PartialProfile(
      Later(u.uid, v.uid),
      Later(u.email, v.email),
      Later(u.displayName, v.displayName),
      Later(u.photoUrl, v.photoUrl),
      Later(u.greenPoints, v.greenPoints),
      Later(u.carbonOffset, v.carbonOffset),
      Later(u.joinDate, v.joinDate),
      Later(u.level, v.level),
      Later(u.badges, v.badges),
      Later(u.deviceInfo, v.deviceInfo),
      Later(u.preferences, v.preferences),
      Later(u.offlineData, v.offlineData))
  }

  /** In `{ ...u, ...v }` a key of `v` wins over the same key of `u`. */
  lemma CombineLookup(u: PartialProfile, v: PartialProfile, k: Key)
    ensures Lookup(Combine(u, v), k) == if Lookup(v, k).Some? then Lookup(v, k) else Lookup(u, k)
  {
    match k {
      case UidKey => case EmailKey => case DisplayNameKey => case PhotoUrlKey =>
      case GreenPointsKey => case CarbonOffsetKey => case JoinDateKey => case LevelKey =>
      case BadgesKey => case DeviceInfoKey => case PreferencesKey => case OfflineDataKey =>
    }
  }

  /** A key absent from the update keeps its old value. */
  lemma MergeKeepsAbsentKeys(p: UserProfileData, u: PartialProfile, k: Key)
    requires Lookup(u, k).None?
    ensures Get(Merge(p, u), k) == Get(p, k)
  {
  }

  /** The empty update changes nothing. */
  lemma MergeNoUpdates(p: UserProfileData)
    ensures Merge(p, NoUpdates) == p
  {
    ProfileExtensional(Merge(p, NoUpdates), p);
  }

  /** Applying the same update twice is applying it once. */
  lemma MergeIdempotent(p: UserProfileData, u: PartialProfile)
    ensures Merge(Merge(p, u), u) == Merge(p, u)
  {
    ProfileExtensional(Merge(Merge(p, u), u), Merge(p, u));
  }

  /** Two successive updates are one update with their keys combined. */
  lemma MergeCombine(p: UserProfileData, u: PartialProfile, v: PartialProfile)
    ensures Merge(Merge(p, u), v) == Merge(p, Combine(u, v))
  {
    forall k ensures Get(Merge(Merge(p, u), v), k) == Get(Merge(p, Combine(u, v)), k) {
      CombineLookup(u, v, k);
    }
    ProfileExtensional(Merge(Merge(p, u), v), Merge(p, Combine(u, v)));
  }

  /** Combining with the empty update, on either side, changes nothing. */
  lemma CombineNoUpdates(u: PartialProfile)
    ensures Combine(NoUpdates, u) == u && Combine(u, NoUpdates) == u
  {
    forall k ensures Lookup(Combine(NoUpdates, u), k) == Lookup(u, k) == Lookup(Combine(u, NoUpdates), k) {
      CombineLookup(NoUpdates, u, k);
      CombineLookup(u, NoUpdates, k);
    }
    UpdateExtensional(Combine(NoUpdates, u), u);
    UpdateExtensional(Combine(u, NoUpdates), u);
  }

  /** The notification settings a new profile starts with. */
  const DefaultNotifications := NotificationPreferences(true, true, true, false)

  /** The camera settings a new profile starts with. */
  const DefaultCameraSettings := CameraSettings(Quality.Medium, true, false)

  /** The profile written for a new account (`createUserProfile` / `createDemoUserProfile`):
    * no points, level 1, default preferences and empty offline queues. `now` is the clock
    * reading used for both timestamps. */
  function SeedProfile(uid: string, email: string, photoUrl: Option<string>, displayName: string,
                       now: int): (p: UserProfileData)
    ensures p.uid == uid && p.email == email && p.displayName == displayName && p.photoUrl == photoUrl
    ensures p.greenPoints == 0 && p.carbonOffset == 0.0 && p.level == 1 && p.badges == []
    ensures p.joinDate == now && p.offlineData.lastSyncTimestamp == now
    ensures p.deviceInfo == DeviceInfo(Android, "1.0.0", None)
    ensures p.preferences.notifications.achievements && p.preferences.notifications.challenges
    ensures p.preferences.notifications.reminders && !p.preferences.notifications.marketing
    ensures p.preferences.cameraSettings.quality == Quality.Medium
    ensures p.preferences.cameraSettings.autoAnalyze && !p.preferences.cameraSettings.saveToGallery
    ensures p.preferences.locationSharing
    ensures p.offlineData.pendingActions == [] && p.offlineData.cachedVendors == []
  {
    UserProfileData(uid, email, displayName, photoUrl, 0, 0.0, now, 1, [],
                    DeviceInfo(Android, "1.0.0", None),
                    Preferences(DefaultNotifications, DefaultCameraSettings, true),
                    OfflineData(now, [], []))
  }
}
