/**
 * The challenges store of the mobile application (`store/challengesStore.ts`). Each call
 * into the challenges service is a parameter carrying its answer; `None` stands for the call
 * throwing.
 */
module ChallengesStore {
  import opened Wrappers
  import opened Types

  class ChallengeBoard {
    var challenges: seq<EcoChallenge>
    var userProgress: seq<UserChallengeProgress>
    var isLoading: bool
    var error: Option<string>
    var selectedChallenge: Option<EcoChallenge>

    /** Nothing loaded, not loading, no error, nothing selected. */
    constructor ()
      ensures challenges == [] && userProgress == [] && !isLoading && error.None? && selectedChallenge.None?
    {
      challenges := [];
      userProgress := [];
      isLoading := false;
      error := None;
      selectedChallenge := None;
    }

    /** `loadChallenges`: the fetched list replaces the challenges; when the fetch throws the
      * challenges stay and the error is set. Loading ends either way. The service catches
      * its own errors and answers with the mock list, so `None` for `fetched` is a throw the
      * service as written does not produce: that branch over-approximates it. */
    method LoadChallenges(fetched: Option<seq<EcoChallenge>>)
      modifies this
      ensures !isLoading
      ensures challenges == if fetched.Some? then fetched.value else old(challenges)
      ensures error == if fetched.Some? then None else Some("Failed to load challenges")
      ensures userProgress == old(userProgress) && selectedChallenge == old(selectedChallenge)
    {
      isLoading, error := true, None;
      if fetched.Some? {
        challenges, isLoading := fetched.value, false;
      } else {
        error, isLoading := Some("Failed to load challenges"), false;
      }
    }

    /** `loadUserProgress`: as `loadChallenges`, for the user's progress records. The service
      * answers [] on its own errors, so here too the `None` branch over-approximates. */
    method LoadUserProgress(fetched: Option<seq<UserChallengeProgress>>)
      modifies this
      ensures !isLoading
      ensures userProgress == if fetched.Some? then fetched.value else old(userProgress)
      ensures error == if fetched.Some? then None else Some("Failed to load user progress")
      ensures challenges == old(challenges) && selectedChallenge == old(selectedChallenge)
    {
      isLoading, error := true, None;
      if fetched.Some? {
        userProgress, isLoading := fetched.value, false;
      } else {
        error, isLoading := Some("Failed to load user progress"), false;
      }
    }

    /** The shared shape of `startChallenge` and `updateProgress`: clear the error, call the
      * service, and on success replace the progress with a fresh fetch; a throw from either
      * call sets `failure` and answers false. The service methods catch their own errors
      * (answering false, or [] for the fetch), so `None` for `answer` or `reloaded` is a
      * throw the service as written does not produce: these branches over-approximate it. */
    method CallThenReload(answer: Option<bool>, reloaded: Option<seq<UserChallengeProgress>>, failure: string)
      returns (ok: bool)
      modifies this
      ensures ok <==> answer == Some(true) && reloaded.Some?
      ensures userProgress == if ok then reloaded.value else old(userProgress)
      ensures error == if answer == Some(false) || ok then None else Some(failure)
      ensures challenges == old(challenges) && isLoading == old(isLoading)
      ensures selectedChallenge == old(selectedChallenge)
    {
      error := None;
      if answer.None? {
        error := Some(failure);
        return false;
      }
      if answer.value {
        if reloaded.None? {
          error := Some(failure);
          return false;
        }
        userProgress := reloaded.value;
      }
      return answer.value;
    }

    /** `startChallenge`. */
    method StartChallenge(answer: Option<bool>, reloaded: Option<seq<UserChallengeProgress>>)
      returns (ok: bool)
      modifies this
      ensures ok <==> answer == Some(true) && reloaded.Some?
      ensures userProgress == if ok then reloaded.value else old(userProgress)
      ensures error == if answer == Some(false) || ok then None else Some("Failed to start challenge")
      ensures challenges == old(challenges) && isLoading == old(isLoading)
      ensures selectedChallenge == old(selectedChallenge)
    {
      ok := CallThenReload(answer, reloaded, "Failed to start challenge");
    }

    /** `updateProgress`. */
    method UpdateProgress(answer: Option<bool>, reloaded: Option<seq<UserChallengeProgress>>)
      returns (ok: bool)
      modifies this
      ensures ok <==> answer == Some(true) && reloaded.Some?
      ensures userProgress == if ok then reloaded.value else old(userProgress)
      ensures error == if answer == Some(false) || ok then None else Some("Failed to update progress")
      ensures challenges == old(challenges) && isLoading == old(isLoading)
      ensures selectedChallenge == old(selectedChallenge)
    {
      ok := CallThenReload(answer, reloaded, "Failed to update progress");
    }

    /** `setSelectedChallenge`. */
    method SetSelectedChallenge(c: Option<EcoChallenge>)
      modifies this
      ensures selectedChallenge == c && challenges == old(challenges) && userProgress == old(userProgress)
      ensures isLoading == old(isLoading) && error == old(error)
    {
      selectedChallenge := c;
    }

    /** `setLoading`. */
    method SetLoading(loading: bool)
      modifies this
      ensures isLoading == loading && challenges == old(challenges) && userProgress == old(userProgress)
      ensures error == old(error) && selectedChallenge == old(selectedChallenge)
    {
      isLoading := loading;
    }

    /** `setError`. */
    method SetError(e: Option<string>)
      modifies this
      ensures error == e && challenges == old(challenges) && userProgress == old(userProgress)
      ensures isLoading == old(isLoading) && selectedChallenge == old(selectedChallenge)
    {
      error := e;
    }

    /** `clearError`. */
    method ClearError()
      modifies this
      ensures error.None? && challenges == old(challenges) && userProgress == old(userProgress)
      ensures isLoading == old(isLoading) && selectedChallenge == old(selectedChallenge)
    {
      error := None;
    }
  }
}
