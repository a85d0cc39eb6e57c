# EcoConnect — a Dafny model of the application core

EcoConnect is a waste-management and eco-challenge application. It has a React Native mobile
client (`ecoconnect-mobile/`) and a Next.js web client (`app/`). This project models the logic
both clients run on the device, and proves properties of that model.

- **Mobile authentication (demo mode).** `services/authService.ts` keeps accounts, the
  signed-in identity and one profile per user in device storage. The model is the class
  `AuthService.DemoAuthService`, whose three fields are those storage tables. The session store
  (`store/authStore.ts`) is `AuthStore.SessionStore`, and the profile store
  (`store/userStore.ts`) is `UserStore.ProfileStore`. `Profile` holds the user-profile record,
  the partial update record and the spread merge (`{ ...profile, ...updates }`), stated key by
  key.
- **Challenges.** `services/challengesService.ts` starts a challenge, records progress
  against its requirements, completes it and awards its points once; it also has the mock
  fallback lists. The model is `ChallengesService`: the class `ProgressTable` holds the
  collections, and the pure functions compute the records. `ChallengesStore.ChallengeBoard` is
  the challenges store. `ChallengesScreen` holds the screen rules: the filter chips, the
  progress percentage, the start guard and the requirement preview.
- **Utilities.** `Helpers` covers level classification, point formatting and waste-type
  colours. `Validation` covers the e-mail, phone and image-URI checks; each regular
  expression is stated as a predicate and the check is proved equal to it. `Constants` holds
  the level table and colour table.
- **Mobile screens.** `FormRules` holds the shared field messages. `SignUpScreen`,
  `LoginScreen`, `ForgotPasswordScreen` and `EditProfileScreen` hold each screen's form
  state, its validation run and what it sends to the session store.
- **Web pages.** `WebSignUp` models the sign-up page's ordered checks, its error texts and
  the user record it asks the document store to write. `Rewards` is the points ledger, the redeem button and the
  category filter. `Pickup` is the waste-type selection and the booking button. `Vendors` is
  the directory's search and type filter.

Support modules:

- `Wrappers`: `Option`.
- `Text`: JavaScript's `trim`, white-space class, `length` in UTF-16 code units,
  `toLowerCase` on ASCII, `includes`, `startsWith`, `endsWith` and decimal `toString`.
- `Seqs`: `Array.prototype.filter` and order-preserving sub-lists.
- `Types`: the shared record types of `types/index.ts`.

Snapshot conventions:

- Every state change of the source is a method of a class.
- Each answer from a backend or a storage read is a parameter of the method that receives it:
  - an `AuthResult` or an `Option` (None means the call threw);
  - a `storageFault` or `writeFault` flag (the read or write threw);
  - `now` (a clock reading).
- The demo uid is `"demo-"` followed by the decimal digits of `now`, as `Date.now()` gives it.
- Every length rule (the 6-character password, the 2-character name) counts with
  `Text.Utf16Length`, as JavaScript's `length` does: a character outside the Basic Multilingual
  Plane counts twice.

## Model

| member | source | states |
|---|---|---|
| Text.Trim | ecoconnect-mobile/src/components/screens/auth/SignUpScreen.tsx:61-70 | `trim()`: the result is empty exactly when the input is all white space; otherwise it starts and ends with a non-space; it is the input with only white space cut off before and after it |
| Text.TrimUnchanged | ecoconnect-mobile/src/components/screens/auth/SignUpScreen.tsx:61-64 | text with no white space at either end is its own trim |
| Text.IsWhitespace | ecoconnect-mobile/src/components/screens/auth/SignUpScreen.tsx:61 | the characters `trim()` removes: tab, line feed, vertical tab, form feed, carriage return, space, no-break space, the Unicode space separators, the line and paragraph separators and the byte order mark |
| Text.Includes | app/vendors/page.tsx:89-93 | `includes`: the needle occurs at some position of the text |
| Text.StartsWith | ecoconnect-mobile/src/utils/validation.ts:55 | `startsWith`: the text begins with the prefix |
| Text.EndsWith | ecoconnect-mobile/src/utils/validation.ts:54 | a `$`-anchored suffix: the text ends with it |
| Text.ToLower | app/vendors/page.tsx:88-94 | `toLowerCase()` maps each character by ASCII lower-casing and keeps the length |
| Text.NatToString | ecoconnect-mobile/src/utils/helpers.ts:14 | the decimal rendering is non-empty, all digits, with no leading zero |
| Text.Utf16Length | ecoconnect-mobile/src/services/authService.ts:282 | `length` counts UTF-16 code units: between one and two per character, and 0 exactly for the empty string |
| Text.Utf16LengthOfBmp | ecoconnect-mobile/src/components/screens/auth/SignUpScreen.tsx:82 | on text without characters beyond U+FFFF, `length` is the number of characters |
| Text.Utf16LengthOfEmoji | ecoconnect-mobile/src/components/screens/auth/SignUpScreen.tsx:82 | three emoji have `length` 6, so they meet the 6-character password rule |
| Text.IntToString | ecoconnect-mobile/src/utils/helpers.ts:14 | `toString()` of an integer: '-' exactly for negatives, followed by digits whose value is the absolute value, with no leading zero unless the number is 0 |
| Text.NatToStringRoundTrip | ecoconnect-mobile/src/utils/helpers.ts:14 | reading back the digits gives the number |
| Text.IntToStringInjective | ecoconnect-mobile/src/components/screens/ChallengesScreen.tsx:298 | different integers render differently |
| Seqs.Filter | ecoconnect-mobile/src/components/screens/ChallengesScreen.tsx:94-108 | `filter` keeps exactly the elements that pass the predicate, each as many times as it occurs, and nothing else |
| Seqs.FilterIsSubsequence | ecoconnect-mobile/src/components/screens/ChallengesScreen.tsx:94-108 | the elements kept stay in their original order |
| Seqs.SubsequenceTransitive | app/vendors/page.tsx:84-102 | two filters in a row still give an ordered sub-list of the original |
| Seqs.FilterIdempotent | app/vendors/page.tsx:87-100 | a second filter by the same predicate changes nothing |
| Seqs.FilterFilter | app/vendors/page.tsx:84-102 | two filters in a row are one filter by the conjunction |
| Seqs.FilterCommutes | app/vendors/page.tsx:84-102 | the order of two filters does not matter |
| Seqs.FilterKeepsAll | app/vendors/page.tsx:86-100 | a filter everything passes returns the list unchanged |
| Seqs.FilterDropsAll | ecoconnect-mobile/src/services/challengesService.ts:62-65 | a filter nothing passes returns the empty list |
| Seqs.FilterFullLength | ecoconnect-mobile/src/components/screens/ChallengesScreen.tsx:94-108 | the list keeps its length exactly when every element passes |
| Helpers.FirstLevelName | ecoconnect-mobile/src/utils/helpers.ts:20-27 | the result is the name of the first level whose range holds the points, or the fall-back when none does |
| Helpers.GetUserLevel | ecoconnect-mobile/src/utils/helpers.ts:20-27 | the loop with early return computes the first-matching level, 'Eco Beginner' by default |
| Helpers.UserLevelUnfolded | ecoconnect-mobile/src/utils/constants.ts:90-96 | the level search is the five ranges tried in table order |
| Helpers.UserLevelOfWholePoints | ecoconnect-mobile/src/utils/constants.ts:90-96 | whole points map to Beginner up to 100, Enthusiast to 500, Champion to 1000, Hero to 5000, Legend above; negative points get Beginner |
| Helpers.UserLevelMonotone | ecoconnect-mobile/src/utils/helpers.ts:20-27 | more whole points never yield an earlier level |
| Helpers.UserLevelFractionalGap | ecoconnect-mobile/src/utils/helpers.ts:20-27 | 500 is Enthusiast but 500.5 falls between ranges and gets Beginner |
| Helpers.FormatPoints | ecoconnect-mobile/src/utils/helpers.ts:7-15 | the 'M' suffix exactly from a million, 'K' exactly from a thousand below a million, the plain decimal below a thousand |
| Helpers.GetWasteTypeColor | ecoconnect-mobile/src/utils/helpers.ts:32-34 | every waste type has a table colour of the form '#rrggbb'; the fall-back is never used |
| Helpers.WasteTypeColorsDistinct | ecoconnect-mobile/src/utils/constants.ts:80-87 | different waste types have different colours |
| Validation.CountChar | ecoconnect-mobile/src/utils/validation.ts:44 | the count is zero exactly when the character is absent |
| Validation.CountCharSplit | ecoconnect-mobile/src/utils/validation.ts:44 | the count over a string is the sum over its two parts |
| Validation.IndexOf | ecoconnect-mobile/src/utils/validation.ts:44 | the first position of the character, or the length if it is absent |
| Validation.ValidateEmail | ecoconnect-mobile/src/utils/validation.ts:43-46 | true exactly when the text matches `^[^\s@]+@[^\s@]+\.[^\s@]+$` (stated as a split into three non-empty runs) |
| Validation.EmailCheckMatchesPattern | ecoconnect-mobile/src/utils/validation.ts:43-46 | the character-level check and the pattern agree in both directions |
| Validation.NoAtAfterFirst | ecoconnect-mobile/src/utils/validation.ts:44 | with exactly one '@', none follows the first |
| Validation.EmailCheckSound | ecoconnect-mobile/src/utils/validation.ts:44 | passing the check gives a split that matches the pattern |
| Validation.EmailCheckComplete | ecoconnect-mobile/src/utils/validation.ts:44 | a split that matches the pattern passes the check |
| Validation.OneAtSplit | ecoconnect-mobile/src/utils/validation.ts:44 | the '@' count around a known '@' |
| Validation.EmailRejectsWhitespace | ecoconnect-mobile/src/utils/validation.ts:44 | any white-space character makes the address invalid |
| Validation.ValidatePhoneNumber | ecoconnect-mobile/src/utils/validation.ts:48-51 | true exactly when the text matches `^[+]?[1-9][\d\s\-\(\)]{7,15}$` |
| Validation.PhoneNumberShape | ecoconnect-mobile/src/utils/validation.ts:49 | an accepted number has 8 to 16 characters after an optional '+', and its first digit is 1-9 |
| Validation.EndsWithAnyExtension | ecoconnect-mobile/src/utils/validation.ts:54 | true exactly when the text ends in '.' followed by one of the listed extensions |
| Validation.ValidateImageUri | ecoconnect-mobile/src/utils/validation.ts:53-56 | true exactly when the text ends in .jpg/.jpeg/.png/.gif/.webp in any ASCII case, or starts with 'data:image/' |
| Validation.ImageUriCase | ecoconnect-mobile/src/utils/validation.ts:54-55 | the extension test ignores case; the data-URI prefix does not |
| Profile.ProfileExtensional | ecoconnect-mobile/src/services/authService.ts:23-57 | two profiles that agree on every key are equal |
| Profile.UpdateExtensional | ecoconnect-mobile/src/services/authService.ts:239-255 | two partial updates that agree on every key are equal |
| Profile.Merge | ecoconnect-mobile/src/services/authService.ts:244-246 | the spread `{ ...profile, ...updates }`: each key present in the update takes the update's value; every other key keeps the profile's |
| Profile.CombineLookup | ecoconnect-mobile/src/store/userStore.ts:24-26 | a combined update holds the later update's value where it has one, else the earlier one's |
| Profile.MergeKeepsAbsentKeys | ecoconnect-mobile/src/services/authService.ts:244-246 | keys absent from the update are untouched |
| Profile.MergeNoUpdates | ecoconnect-mobile/src/services/authService.ts:244-246 | the empty update changes nothing |
| Profile.MergeIdempotent | ecoconnect-mobile/src/services/authService.ts:244-246 | applying the same update twice is applying it once |
| Profile.MergeCombine | ecoconnect-mobile/src/store/userStore.ts:24-26 | two updates in a row equal one combined update |
| Profile.CombineNoUpdates | ecoconnect-mobile/src/store/userStore.ts:24-26 | the empty update is the unit of combination |
| Profile.SeedProfile | ecoconnect-mobile/src/services/authService.ts:348-385 | the seeded profile: the given uid, e-mail, photo and name; 0 points, 0 offset, level 1, no badges; Android 1.0.0 with no push token; notifications on except marketing; medium camera with auto-analyse and no gallery saving; location sharing on; empty offline data synced at `now` |
| AuthService.DemoIdentity | ecoconnect-mobile/src/services/authService.ts:295-301 | the demo identity: a uid starting 'demo-', the given e-mail and name, no photo, e-mail verified |
| AuthService.DemoUidsDiffer | ecoconnect-mobile/src/services/authService.ts:296 | sign-ups at different clock readings get different uids |
| AuthService.ErrorMessage | ecoconnect-mobile/src/services/authService.ts:390-409 | `getErrorMessage` gives the generic message exactly for codes outside the seven known ones |
| AuthService.DemoMessagesMatchErrorCodes | ecoconnect-mobile/src/services/authService.ts:283-335 | the demo's own failure messages are the mapped texts of the matching error codes |
| AuthService.SignInWithGoogle | ecoconnect-mobile/src/services/authService.ts:144-152 | Google sign-in always fails with 'Google Sign-In not implemented yet' |
| AuthService.ResetPassword | ecoconnect-mobile/src/services/authService.ts:126-130 | the demo password reset always succeeds |
| AuthService.DemoAuthService.constructor | ecoconnect-mobile/src/services/authService.ts:279-343 | storage starts empty and consistent |
| AuthService.DemoAuthService.SignUp | ecoconnect-mobile/src/services/authService.ts:279-315 | a password whose `length` (UTF-16 units) is under 6 is refused first, then a failed read, then an existing e-mail; success stores the account, signs it in and seeds its profile; a failure writes nothing |
| AuthService.DemoAuthService.SignIn | ecoconnect-mobile/src/services/authService.ts:320-343 | fails for a failed read, then an unknown e-mail, then a wrong password; succeeds exactly with a stored account and its password, and then signs that identity in |
| AuthService.DemoAuthService.SignOut | ecoconnect-mobile/src/services/authService.ts:107-112 | clears the signed-in identity and keeps the accounts and profiles |
| AuthService.DemoAuthService.GetUserProfile | ecoconnect-mobile/src/services/authService.ts:199-217 | returns the stored profile of the uid; nothing if there is none or the read fails |
| AuthService.DemoAuthService.UpdateUserProfile | ecoconnect-mobile/src/services/authService.ts:239-255 | succeeds exactly for a stored profile and a working read; it then replaces that profile by the spread merge and nothing else |
| AuthService.SignUpSignOutSignIn | ecoconnect-mobile/src/services/authService.ts:279-343 | a fresh sign-up, a sign-out and a sign-in with the same password all succeed, and both return the same identity |
| AuthStore.Accepted | ecoconnect-mobile/src/store/authStore.ts:37 | a result is taken as success only when it is successful and carries a user (also authStore.ts:52) |
| AuthStore.MessageOr | ecoconnect-mobile/src/store/authStore.ts:40-43 | the `result.error`-or-fallback rule: the message when it is present and non-empty, otherwise the fall-back |
| AuthStore.SessionStore.constructor | ecoconnect-mobile/src/store/authStore.ts:25-30 | the initial state: no user or profile, loading, not authenticated, no error |
| AuthStore.SessionStore.SignIn | ecoconnect-mobile/src/store/authStore.ts:32-45 | reports the result's success; clears the error on success or stores the message (default 'Sign in failed'); the user and profile are not touched |
| AuthStore.SessionStore.SignUp | ecoconnect-mobile/src/store/authStore.ts:47-60 | the same for sign-up, with the default 'Sign up failed' |
| AuthStore.SessionStore.SignInWithGoogle | ecoconnect-mobile/src/store/authStore.ts:89-101 | the same for Google, with the default 'Google sign in failed' |
| AuthStore.SessionStore.SignOut | ecoconnect-mobile/src/store/authStore.ts:62-74 | clears the user, profile, error and authentication |
| AuthStore.SessionStore.ResetPassword | ecoconnect-mobile/src/store/authStore.ts:76-87 | reports the result; on failure stores its message or 'Password reset failed'; the session is untouched |
| AuthStore.SessionStore.ClearError | ecoconnect-mobile/src/store/authStore.ts:103-105 | clears only the error |
| AuthStore.SessionStore.LoadUserProfile | ecoconnect-mobile/src/store/authStore.ts:107-113 | with a user, the profile becomes the fetched one (possibly none); without a user nothing changes |
| AuthStore.SessionStore.UpdateUserProfile | ecoconnect-mobile/src/store/authStore.ts:115-126 | calls the service only with a user and a profile; on success the profile becomes the merge of the update; otherwise nothing changes |
| AuthStore.SessionStore.ApplyAuthState | ecoconnect-mobile/src/store/authStore.ts:133-149 | the auth-state listener: the user and flag follow the signed-in identity; the profile is the fetched one or none; loading ends |
| AuthStore.SessionStore.InitializeAuthDemo | ecoconnect-mobile/src/store/authStore.ts:152-180 | the demo bootstrap: a stored identity and its profile are restored; a failed read signs nobody in; loading ends |
| AuthStore.DemoSignUpThenBootstrap | ecoconnect-mobile/src/store/authStore.ts:152-180 | after a fresh demo sign-up, the bootstrap restores that identity and its seeded profile |
| UserStore.UpdatedProfile | ecoconnect-mobile/src/store/userStore.ts:24-26 | no profile stays none; otherwise updated keys take the new values and the rest are kept |
| UserStore.UpdatedProfileCombine | ecoconnect-mobile/src/store/userStore.ts:24-26 | two updates in a row are one combined update |
| UserStore.ProfileStore.constructor | ecoconnect-mobile/src/store/userStore.ts:17-20 | no profile, not loading, no error |
| UserStore.ProfileStore.SetProfile | ecoconnect-mobile/src/store/userStore.ts:22 | sets only the profile |
| UserStore.ProfileStore.UpdateProfile | ecoconnect-mobile/src/store/userStore.ts:24-26 | the profile becomes the updated profile; the rest is kept |
| UserStore.ProfileStore.SetLoading | ecoconnect-mobile/src/store/userStore.ts:28 | sets only the loading flag |
| UserStore.ProfileStore.SetError | ecoconnect-mobile/src/store/userStore.ts:30 | sets only the error |
| UserStore.ProfileStore.ClearError | ecoconnect-mobile/src/store/userStore.ts:32 | clears only the error |
| ChallengesService.ProgressKey | ecoconnect-mobile/src/services/challengesService.ts:101 | the record id is the user id, '_' and the challenge id |
| ChallengesService.ProgressKeyInjective | ecoconnect-mobile/src/services/challengesService.ts:101 | user ids without '_' give distinct keys for distinct pairs |
| ChallengesService.ProgressKeyCollision | ecoconnect-mobile/src/services/challengesService.ts:101 | with '_' in a user id, two different pairs share a key |
| ChallengesService.InitialEntries | ecoconnect-mobile/src/services/challengesService.ts:102-108 | one entry per requirement in the same order, at 0 of its target, not completed |
| ChallengesService.StartedRecord | ecoconnect-mobile/src/services/challengesService.ts:101-118 | a new record is in progress with 0 points, no completion time and one fresh entry per requirement |
| ChallengesService.UpdatedEntry | ecoconnect-mobile/src/services/challengesService.ts:148-158 | only the entry of the named requirement changes: its value is capped at the target and it is completed exactly when the value reaches the target |
| ChallengesService.UpdatedEntries | ecoconnect-mobile/src/services/challengesService.ts:148-158 | the update applied to every entry, same length, same order |
| ChallengesService.AllCompleted | ecoconnect-mobile/src/services/challengesService.ts:160 | `every(p => p.isCompleted)` |
| ChallengesService.UpdatedRecord | ecoconnect-mobile/src/services/challengesService.ts:135-184 | the status is completed exactly when all entries are; the first transition to completed awards the reward and stamps the time; otherwise points and completion time are kept |
| ChallengesService.UpdatedEntriesClamped | ecoconnect-mobile/src/services/challengesService.ts:152 | updated values never exceed their targets |
| ChallengesService.UpdatedRecordIdempotent | ecoconnect-mobile/src/services/challengesService.ts:135-184 | repeating an update changes nothing beyond the timestamps |
| ChallengesService.PointsAwardedOnce | ecoconnect-mobile/src/services/challengesService.ts:163-170 | an update to a completed record never re-awards points or moves its completion time |
| ChallengesService.CompletionCanRegress | ecoconnect-mobile/src/services/challengesService.ts:153-161 | the payload computed for a completed record with a lower value is in progress and keeps its points; the table never stores it, because a completed record's update is refused |
| ChallengesService.EmptyRequirementsCompleteOnUpdate | ecoconnect-mobile/src/services/challengesService.ts:160-161 | a record with no entries is completed by any update |
| ChallengesService.RewardOf | ecoconnect-mobile/src/services/challengesService.ts:166-168 | the challenge's points reward, 0 if the challenge is missing |
| ChallengesService.MockChallenges | ecoconnect-mobile/src/services/challengesService.ts:210-338 | four active mock challenges (two daily, two weekly) starting now, each requirement with a positive target |
| ChallengesService.ActiveChallenges | ecoconnect-mobile/src/services/challengesService.ts:20-40 | the fetched list, or the mocks when the fetch throws |
| ChallengesService.ChallengesByType | ecoconnect-mobile/src/services/challengesService.ts:45-66 | the fetched list, or the mocks of that type in order when the fetch throws |
| ChallengesService.NoMockMonthlyOrSpecial | ecoconnect-mobile/src/services/challengesService.ts:62-65 | the fall-back has no monthly or special challenges |
| ChallengesService.UserChallengeProgressOf | ecoconnect-mobile/src/services/challengesService.ts:71-91 | the fetched records, or none when the fetch throws |
| ChallengesService.ProgressTable.constructor | ecoconnect-mobile/src/services/challengesService.ts:96-184 | the given challenges and no records |
| ChallengesService.ProgressTable.ChallengeById | ecoconnect-mobile/src/services/challengesService.ts:189-205 | the stored challenge of that id, or none |
| ChallengesService.ProgressTable.StartChallenge | ecoconnect-mobile/src/services/challengesService.ts:96-130 | succeeds exactly for a known challenge and a working write; then the record under the key is the fresh record (replacing any old one) |
| ChallengesService.ProgressTable.UpdateChallengeProgress | ecoconnect-mobile/src/services/challengesService.ts:135-184 | succeeds exactly when the record exists, has no completion time and the write works; a record with a completion time is refused (re-encoding its stored `Timestamp` throws) and nothing is written; on success the record was in progress and becomes the updated record, rewarded from the challenge named by the argument |
| ChallengesStore.ChallengeBoard.constructor | ecoconnect-mobile/src/store/challengesStore.ts:24-28 | empty lists, not loading, no error, nothing selected |
| ChallengesStore.ChallengeBoard.LoadChallenges | ecoconnect-mobile/src/store/challengesStore.ts:30-41 | the fetched list replaces the old one; a failed fetch keeps it and sets 'Failed to load challenges' |
| ChallengesStore.ChallengeBoard.LoadUserProgress | ecoconnect-mobile/src/store/challengesStore.ts:43-54 | the same for progress, with 'Failed to load user progress' |
| ChallengesStore.ChallengeBoard.CallThenReload | ecoconnect-mobile/src/store/challengesStore.ts:56-91 | true exactly when the service says yes and the reload works; a 'no' answer is silent; a throw sets the failure text |
| ChallengesStore.ChallengeBoard.StartChallenge | ecoconnect-mobile/src/store/challengesStore.ts:56-70 | the start call, failure text 'Failed to start challenge' |
| ChallengesStore.ChallengeBoard.UpdateProgress | ecoconnect-mobile/src/store/challengesStore.ts:72-91 | the progress call, failure text 'Failed to update progress' |
| ChallengesStore.ChallengeBoard.SetSelectedChallenge | ecoconnect-mobile/src/store/challengesStore.ts:93 | sets only the selection |
| ChallengesStore.ChallengeBoard.SetLoading | ecoconnect-mobile/src/store/challengesStore.ts:95 | sets only the loading flag |
| ChallengesStore.ChallengeBoard.SetError | ecoconnect-mobile/src/store/challengesStore.ts:97 | sets only the error |
| ChallengesStore.ChallengeBoard.ClearError | ecoconnect-mobile/src/store/challengesStore.ts:99 | clears only the error |
| ChallengesScreen.FilteredChallenges | ecoconnect-mobile/src/components/screens/ChallengesScreen.tsx:94-108 | 'all' is the whole list; a type chip keeps exactly the challenges of that type; 'mine' keeps exactly the started ones; always in order, and each kept challenge keeps its number of copies |
| ChallengesScreen.SpecialOnlyUnderAll | ecoconnect-mobile/src/components/screens/ChallengesScreen.tsx:94-108 | a special challenge never appears under a type chip |
| ChallengesScreen.ChallengeProgressOf | ecoconnect-mobile/src/components/screens/ChallengesScreen.tsx:110-112 | a record of that challenge exactly when one was started |
| ChallengesScreen.ProgressPercentage | ecoconnect-mobile/src/components/screens/ChallengesScreen.tsx:134-138 | between 0 and 100; 0 with no entries; 100 exactly when there are entries and all are completed |
| ChallengesScreen.PercentBounds | ecoconnect-mobile/src/components/screens/ChallengesScreen.tsx:136-137 | a completed fraction times 100 lies in 0..100 and is 100 exactly when all are completed |
| ChallengesScreen.DecideStart | ecoconnect-mobile/src/components/screens/ChallengesScreen.tsx:59-86 | no user id: nothing; an existing record: 'Already Started'; otherwise the start question, asked only for unstarted challenges |
| ChallengesScreen.ListedChallengesAreNotRestarted | ecoconnect-mobile/src/components/screens/ChallengesScreen.tsx:59-108 | a challenge listed under 'mine' is never offered to start |
| ChallengesScreen.PreviewShown | ecoconnect-mobile/src/components/screens/ChallengesScreen.tsx:287 | the first two requirements, or all if fewer |
| ChallengesScreen.HiddenCount | ecoconnect-mobile/src/components/screens/ChallengesScreen.tsx:296-300 | shown plus hidden is the number of requirements |
| ChallengesScreen.MoreLabel | ecoconnect-mobile/src/components/screens/ChallengesScreen.tsx:296-300 | '+n more requirements' exactly when there are more than two |
| ChallengesScreen.RequirementLine | ecoconnect-mobile/src/components/screens/ChallengesScreen.tsx:288-293 | the description, followed by ' (target unit)' with the target in decimal exactly when the unit is present and non-empty; otherwise the description alone |
| FormRules.NameError | ecoconnect-mobile/src/components/screens/auth/SignUpScreen.tsx:61-67 | no message exactly when the trimmed name has a `length` (UTF-16 units) of at least 2; 'Name is required' exactly when it is blank |
| FormRules.EmailError | ecoconnect-mobile/src/components/screens/auth/SignUpScreen.tsx:70-76 | 'Email is required' exactly when blank; 'Please enter a valid email address' exactly when non-blank and invalid; otherwise none |
| FormRules.PaddedEmailRefused | ecoconnect-mobile/src/components/screens/auth/SignUpScreen.tsx:73 | a valid address with a space before or after is refused, since the untrimmed text is checked |
| FormRules.EmailIsNotBlank | ecoconnect-mobile/src/utils/validation.ts:44 | an accepted address starts with a non-space |
| SignUpScreen.With | ecoconnect-mobile/src/components/screens/auth/SignUpScreen.tsx:41-47 | `{ ...prev, [field]: value }` sets that field and keeps the others |
| SignUpScreen.PasswordError | ecoconnect-mobile/src/components/screens/auth/SignUpScreen.tsx:79-85 | no message exactly for a `length` (UTF-16 units) of 6 or more; 'Password is required' exactly when empty |
| SignUpScreen.ConfirmError | ecoconnect-mobile/src/components/screens/auth/SignUpScreen.tsx:88-94 | no message exactly when the confirmation is non-empty and equals the password |
| SignUpScreen.ValidIffNoMessages | ecoconnect-mobile/src/components/screens/auth/SignUpScreen.tsx:49-104 | the form is valid exactly when every field message is empty and the terms are accepted |
| SignUpScreen.FormValid | ecoconnect-mobile/src/components/screens/auth/SignUpScreen.tsx:58-104 | the form passes: a trimmed name of 2 or more units, a non-blank valid e-mail, a password of 6 or more units, a non-empty matching confirmation, and the terms accepted |
| SignUpScreen.SignUpForm.constructor | ecoconnect-mobile/src/components/screens/auth/SignUpScreen.tsx:25-37 | empty fields and messages, terms not accepted |
| SignUpScreen.SignUpForm.UpdateFormData | ecoconnect-mobile/src/components/screens/auth/SignUpScreen.tsx:41-47 | sets the field and clears its message |
| SignUpScreen.SignUpForm.ValidateForm | ecoconnect-mobile/src/components/screens/auth/SignUpScreen.tsx:49-104 | the messages are the field rules, the result is validity, the store error is cleared |
| SignUpScreen.SignUpForm.HandleSignUp | ecoconnect-mobile/src/components/screens/auth/SignUpScreen.tsx:106-118 | sends the trimmed e-mail, the password and the trimmed name exactly when the form is valid; the messages are the field rules and the terms flag is kept; the store's error is cleared, or after a refused call holds the message (default 'Sign up failed'); loading ends after a call and is untouched otherwise; user and profile are unchanged |
| LoginScreen.LoginPasswordError | ecoconnect-mobile/src/components/screens/auth/LoginScreen.tsx:54-57 | 'Password is required' exactly when the password is blank |
| LoginScreen.SpacesOnlyPasswordRefused | ecoconnect-mobile/src/components/screens/auth/LoginScreen.tsx:54 | a password of spaces only is refused |
| LoginScreen.LoginValid | ecoconnect-mobile/src/components/screens/auth/LoginScreen.tsx:44-59 | the form passes: a non-blank valid e-mail and a password that is not all white space |
| LoginScreen.LoginForm.constructor | ecoconnect-mobile/src/components/screens/auth/LoginScreen.tsx:29-32 | empty fields and messages |
| LoginScreen.LoginForm.ValidateForm | ecoconnect-mobile/src/components/screens/auth/LoginScreen.tsx:36-60 | the e-mail and password messages, validity, and a cleared store error |
| LoginScreen.LoginForm.HandleSignIn | ecoconnect-mobile/src/components/screens/auth/LoginScreen.tsx:62-69 | sends the trimmed e-mail with the untrimmed password exactly when the form is valid; the e-mail and password messages are the field rules; the store's error is cleared, or after a refused call holds the message (default 'Sign in failed'); loading ends after a call and is untouched otherwise; user and profile are unchanged |
| ForgotPasswordScreen.ForgotPasswordForm.constructor | ecoconnect-mobile/src/components/screens/auth/ForgotPasswordScreen.tsx:26-28 | empty e-mail, no message, nothing sent |
| ForgotPasswordScreen.ForgotPasswordForm.ValidateForm | ecoconnect-mobile/src/components/screens/auth/ForgotPasswordScreen.tsx:32-47 | the e-mail message and validity, with the store error cleared |
| ForgotPasswordScreen.ForgotPasswordForm.HandleResetPassword | ecoconnect-mobile/src/components/screens/auth/ForgotPasswordScreen.tsx:49-64 | sends the trimmed e-mail exactly when it is valid; the sent flag is raised exactly by a success and never lowered; the e-mail message is the field rule; the store's error is cleared, or after a failed call holds the message (default 'Password reset failed'); the store's loading flag, user and profile are unchanged |
| EditProfileScreen.Toggled | ecoconnect-mobile/src/components/screens/EditProfileScreen.tsx:110-118 | flips exactly one notification key |
| EditProfileScreen.ToggleTwice | ecoconnect-mobile/src/components/screens/EditProfileScreen.tsx:110-118 | toggling twice restores the preferences |
| EditProfileScreen.InitialPreferences | ecoconnect-mobile/src/components/screens/EditProfileScreen.tsx:30-38 | the profile's preferences, or on for all but marketing with location sharing on |
| EditProfileScreen.DefaultsMatchSeededProfile | ecoconnect-mobile/src/components/screens/EditProfileScreen.tsx:30-38 | the screen defaults equal those of a freshly seeded profile |
| EditProfileScreen.SaveUpdates | ecoconnect-mobile/src/components/screens/EditProfileScreen.tsx:75-85 | the update holds only the trimmed name and the preferences; the camera comes from the profile or the default |
| EditProfileScreen.SaveKeepsTheRest | ecoconnect-mobile/src/components/screens/EditProfileScreen.tsx:75-85 | saving changes only the name and preferences of the profile |
| EditProfileScreen.EditValid | ecoconnect-mobile/src/components/screens/EditProfileScreen.tsx:46-68 | the form passes: a trimmed name of 2 or more units and a non-blank valid e-mail |
| EditProfileScreen.EditProfileForm.constructor | ecoconnect-mobile/src/components/screens/EditProfileScreen.tsx:23-44 | the fields from the user, the preferences from the profile, no messages |
| EditProfileScreen.EditProfileForm.ValidateForm | ecoconnect-mobile/src/components/screens/EditProfileScreen.tsx:46-68 | the name and e-mail messages and validity |
| EditProfileScreen.EditProfileForm.HandleSave | ecoconnect-mobile/src/components/screens/EditProfileScreen.tsx:70-101 | an invalid form sends nothing; otherwise the save update goes to the store, and the profile is merged exactly on success; the messages are the name and e-mail rules; the store's user, error and loading flag are unchanged |
| EditProfileScreen.EditProfileForm.SaveValidForm | ecoconnect-mobile/src/components/screens/EditProfileScreen.tsx:72-100 | the save update of the current name and preferences goes to the store with loading on, and loading is off afterwards; the profile is merged exactly when a user and profile exist and the service succeeds; the messages, the store's user, error and loading flag are unchanged |
| EditProfileScreen.EditProfileForm.UpdateFormData | ecoconnect-mobile/src/components/screens/EditProfileScreen.tsx:103-108 | sets one field; clears its message only for the name and e-mail |
| EditProfileScreen.EditProfileForm.ToggleNotificationPreference | ecoconnect-mobile/src/components/screens/EditProfileScreen.tsx:110-118 | flips one notification key and nothing else |
| EditProfileScreen.EditProfileForm.ToggleLocationSharing | ecoconnect-mobile/src/components/screens/EditProfileScreen.tsx:316-319 | flips only location sharing |
| WebSignUp.WebFormValid | app/auth/signup/page.tsx:33-55 | the form passes: a non-blank name and e-mail, a password of 6 or more units, and a matching confirmation |
| WebSignUp.FirstFormError | app/auth/signup/page.tsx:33-55 | no message exactly for a non-blank name and e-mail, a password whose `length` (UTF-16 units) is 6 or more, and a matching confirmation; otherwise the message of the first failing check in order |
| WebSignUp.NoEmailFormatCheck | app/auth/signup/page.tsx:38-41 | an e-mail without '@' passes |
| WebSignUp.SignUpErrorText | app/auth/signup/page.tsx:97-103 | the two known codes get their own texts, every other code the generic one |
| WebSignUp.SignUpErrorTextKnownCodes | app/auth/signup/page.tsx:97-103 | a known code's text is shared with no other code |
| WebSignUp.NewWebUser | app/auth/signup/page.tsx:78-88 | the form's e-mail and name as typed; the credential's photo unless missing or empty; 0 points, 0 offset, level 1, no badges |
| WebSignUp.NameStoredUntrimmed | app/auth/signup/page.tsx:33-88 | a name accepted with a leading space is stored with it |
| Rewards.Redeem | app/rewards/page.tsx:92-97 | with enough points the cost is taken off and the id appended; otherwise nothing changes; a non-negative balance stays non-negative |
| Rewards.RedeemRepeats | app/rewards/page.tsx:92-97 | the handler itself records a second redeem of the same reward |
| Rewards.EnabledClickRedeems | app/rewards/page.tsx:198-199 | a click on an enabled button redeems, and the button is then disabled whatever the balance |
| Rewards.ClicksNeverRepeat | app/rewards/page.tsx:92-199 | through the buttons alone, no reward is redeemed twice and the balance stays non-negative |
| Rewards.RedeemDisabled | app/rewards/page.tsx:198 | the button is disabled when the balance is below the cost or the reward is already redeemed |
| Rewards.NeedLabel | app/rewards/page.tsx:206 | the shortfall text 'Need n more points' |
| Rewards.ButtonLabel | app/rewards/page.tsx:201-210 | 'Redeemed ✓' if redeemed; else 'Need n more points' with the shortfall; else 'Redeem Now' |
| Rewards.NeedLabelInjective | app/rewards/page.tsx:206 | different shortfalls give different 'Need n more points' labels |
| Rewards.LabelMatchesButton | app/rewards/page.tsx:198-210 | the label says 'Redeem Now' exactly when the button is enabled; a 'Need n more points' label shows exactly the shortfall, which is positive, and only for an unredeemed reward |
| Rewards.FilteredRewards | app/rewards/page.tsx:99-102 | 'all' is the catalogue; any other category gives exactly its rewards, in catalogue order |
| Rewards.RewardsPage.constructor | app/rewards/page.tsx:13-14 | 2250 points and nothing redeemed |
| Rewards.RewardsPage.HandleRedeem | app/rewards/page.tsx:92-97 | the new ledger is the redeem of the old one, and the balance stays non-negative |
| Pickup.IsChecked | app/pickup/page.tsx:197 | a box is ticked when its label is in the selection |
| Pickup.ChangedSelection | app/pickup/page.tsx:57-63 | a tick appends the label; an untick removes every copy, keeps every other label with its number of copies, and keeps their order |
| Pickup.CheckboxFollowsChange | app/pickup/page.tsx:197-198 | after a change, the box shows ticked exactly when it was ticked |
| Pickup.UntickIdempotent | app/pickup/page.tsx:60-61 | unticking twice is unticking once; tick then untick is untick |
| Pickup.FilterAppendDropped | app/pickup/page.tsx:59-61 | removing a label ignores a copy appended at the end |
| Pickup.UntickAbsent | app/pickup/page.tsx:60-61 | unticking an unselected label changes nothing |
| Pickup.TickTwiceDuplicates | app/pickup/page.tsx:58-59 | the handler adds a second copy of an already-selected label |
| Pickup.CanSchedule | app/pickup/page.tsx:299 | the book button is enabled with a date, a time and a non-empty selection |
| Pickup.ScheduleFollowsSelection | app/pickup/page.tsx:299 | with a date and a time, a tick enables the button and unticking the only label disables it |
| Pickup.PickupPage.constructor | app/pickup/page.tsx:16-19 | empty date, time and selection; not booked |
| Pickup.PickupPage.HandleWasteTypeChange | app/pickup/page.tsx:57-63 | the selection becomes the changed selection; nothing else changes |
| Pickup.PickupPage.HandleSchedulePickup | app/pickup/page.tsx:65-67 | raises only the booked flag, so booking again changes nothing |
| Vendors.MatchesTerm | app/vendors/page.tsx:88-94 | the lower-cased term occurs in the lower-cased name, address or one of the services |
| Vendors.PassesSearch | app/vendors/page.tsx:87-95 | an empty term lets every vendor through; otherwise the vendor matches the term |
| Vendors.PassesType | app/vendors/page.tsx:98-100 | the type 'all' lets every vendor through; otherwise the vendor's type is the one chosen |
| Vendors.SearchStep | app/vendors/page.tsx:86-96 | the search step is the filter by "empty term, or the term found in name, address or a service, ignoring case" |
| Vendors.TypeStep | app/vendors/page.tsx:98-100 | the type step is the filter by "'all', or this type" |
| Vendors.FilteredVendors | app/vendors/page.tsx:84-102 | with no term and 'all', the loaded list; always an ordered sub-list holding exactly the vendors that pass both steps, each with its number of copies |
| Vendors.StepsIdempotent | app/vendors/page.tsx:86-100 | each step applied twice is applied once |
| Vendors.StepsCommute | app/vendors/page.tsx:84-102 | type first and search second gives the same list |
| Vendors.SearchIgnoresCase | app/vendors/page.tsx:88-94 | a term and its lower-cased form find the same vendors |

## Left out

- The hosted mode of every service is left out, with no model of its own: live Firebase Auth and Firestore calls, `createUserProfile`, the live branches of `getUserProfile` and `updateUserProfile`, the Firestore queries of `challengesService.ts`, and `getCurrentUser`, which returns null in demo mode. Their answers reach the model only as parameters.
- The `onAuthStateChanged` subscription itself is left out. `AuthStore.SessionStore.ApplyAuthState` models one callback.
- Device storage is a set of maps. JSON serialisation, and a write that throws after a successful read, are not modelled. Only the first read of each call can fail.
- `AuthService.DemoAuthService.SignUp` and the other timed operations take the clock reading `now` as a parameter.
- Two demo sign-ups at the same millisecond get the same uid. The model keeps that; `AuthService.DemoUidsDiffer` covers only distinct readings.
- Intermediate `isLoading: true` updates inside the async store actions are left out. The concurrency of overlapping actions is also left out. Each action is modelled from its start to its settled state.
- Helpers.FormatPoints: the digits of `toFixed(1)` on a double are a parameter. Only the suffix and range behaviour is stated. Floating-point rounding is not modelled.
- `calculateDistance`, `formatDistance`, `formatDate`, `formatTime`, `generateId` and `debounce` are left out. They are floating point, Intl, randomness and timers.
- Text.ToLower: case mapping covers ASCII only. JavaScript's full Unicode case mapping is not modelled.
- Vendors.SearchIgnoresCase: this follows from the ASCII-only case mapping above.
- The Zod schemas of `validation.ts` are left out. The screens use only the three regular-expression helpers.
- Alerts, toasts, navigation and rendering are left out. Their effect is visible only through the values the model returns, such as the preview, the labels and the messages.
- Profile.Merge: a key passed explicitly as `undefined` in a partial update would overwrite the profile's value. The model's partial record cannot hold such a key.
- The web vendor page's mock list and simulated loading delay are left out. The filter is stated for any loaded list.
- The mock challenge icons are the intended emoji. The repository text holds them as mis-decoded bytes.
- The web reward and pickup icons, and the recycler list of the pickup page, are display data. The waste-type options are kept only as constants.
- The `lastUpdated`, `joinDate` and `lastSyncTimestamp` values are integers (clock readings), not `Date` objects.
- The web sign-up passes `photoURL: ... || undefined` to the document store (`WebSignUp.NewWebUser` models that field as absent). The store refuses `undefined` field values unless it was set up to ignore them. The web store's setup is not part of this model. Without that setting, an e-mail sign-up, which has no photo, would fail at this write and show the generic failure text.
- TypeScript `number` is modelled as an exact mathematical number, never as a double. Reported progress values, targets, points, rewards, costs, balances and the points given to `formatPoints` are `int`. The carbon offset, ratings, coordinates, completion rates, the points given to `getUserLevel`, and the progress percentage are `real`. Fractional values where the model has `int`, `NaN` and infinities (for example `Math.min(NaN, target)` and `NaN >= target` in `updateChallengeProgress`), and double rounding in the percentage, are not modelled.

## Behaviour worth knowing

These are properties of the code as written, stated and proved above rather than corrected:

- In demo mode a successful sign-in leaves the session store's user unset. The demo bootstrap (`AuthStore.SessionStore.InitializeAuthDemo`) is what restores it.
- Progress keys collide when a user id contains '_' (`ChallengesService.ProgressKeyCollision`).
- `updateChallengeProgress` reads the reward from the challenge named by its argument, not from the record.
- A challenge with no requirements:
  - the service completes it on any update (`ChallengesService.EmptyRequirementsCompleteOnUpdate`);
  - the screen shows it at 0 % (`ChallengesScreen.ProgressPercentage`).
- A completed challenge can never be updated again: the stored completion time comes back as a `Timestamp`, and `Timestamp.fromDate` throws on it, so `updateChallengeProgress` answers false (`ChallengesService.ProgressTable.UpdateChallengeProgress`). The status regression that the computed payload would carry (`ChallengesService.CompletionCanRegress`) is therefore never stored.
- The mobile forms check the untrimmed e-mail but send it trimmed (`FormRules.PaddedEmailRefused`).
- Fractional points between two level ranges get 'Eco Beginner' (`Helpers.UserLevelFractionalGap`).
