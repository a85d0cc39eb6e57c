/** The profile store of the mobile application (`store/userStore.ts`). */
module UserStore {
  import opened Wrappers
  import opened Profile

  /** `state.profile ? { ...state.profile, ...updates } : null`. */
  function UpdatedProfile(profile: Option<UserProfileData>, updates: PartialProfile): (r: Option<UserProfileData>)
    ensures r.Some? <==> profile.Some?
    ensures r.Some? ==> forall k :: Lookup(updates, k).None? ==> Get(r.value, k) == Get(profile.value, k)
    ensures r.Some? ==> forall k :: Lookup(updates, k).Some? ==> Get(r.value, k) == Lookup(updates, k).value
  {
    if profile.Some? then Some(Merge(profile.value, updates)) else None
  }

  class ProfileStore {
    var profile: Option<UserProfileData>
    var isLoading: bool
    var error: Option<string>

    /** No profile, not loading, no error. */
    constructor ()
      ensures profile.None? && !isLoading && error.None?
    {
      profile := None;
      isLoading := false;
      error := None;
    }

    /** `setProfile`: replaces the profile wholesale. */
    method SetProfile(p: UserProfileData)
      modifies this
      ensures profile == Some(p) && isLoading == old(isLoading) && error == old(error)
    {
      profile := Some(p);
    }

    /** `updateProfile`: merges the update into the profile, if there is one. */
    method UpdateProfile(updates: PartialProfile)
      modifies this
      ensures profile == UpdatedProfile(old(profile), updates)
      ensures isLoading == old(isLoading) && error == old(error)
    {
      profile := UpdatedProfile(profile, updates);
    }

    /** `setLoading`. */
    method SetLoading(loading: bool)
      modifies this
      ensures isLoading == loading && profile == old(profile) && error == old(error)
    {
      isLoading := loading;
    }

    /** `setError`. */
    method SetError(e: Option<string>)
      modifies this
      ensures error == e && profile == old(profile) && isLoading == old(isLoading)
    {
      error := e;
    }

    /** `clearError`. */
    method ClearError()
      modifies this
      ensures error.None? && profile == old(profile) && isLoading == old(isLoading)
    {
      error := None;
    }
  }

  /** Two updates in a row on the store are the single combined update. */
  lemma UpdatedProfileCombine(p: Option<UserProfileData>, u: PartialProfile, v: PartialProfile)
    ensures UpdatedProfile(UpdatedProfile(p, u), v) == UpdatedProfile(p, Combine(u, v))
  {
    if p.Some? {
      MergeCombine(p.value, u, v);
    }
  }
}
