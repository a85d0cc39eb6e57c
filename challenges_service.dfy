/**
 * The challenge progress engine of the mobile application (`services/challengesService.ts`).
 * The backend collections are two in-memory tables: the challenges by id, and the progress
 * records by the key `userId + "_" + challengeId`. Clock readings are parameters.
 */
module ChallengesService {
  import opened Wrappers
  import opened Types
  import opened Seqs

  const DayMillis := 24 * 60 * 60 * 1000

  /** The key of a user's progress record for a challenge. */
  function ProgressKey(userId: string, challengeId: string): (k: string)
    ensures |k| == |userId| + 1 + |challengeId| && k[|userId|] == '_'
    ensures k[..|userId|] == userId && k[|userId| + 1..] == challengeId
  {
    userId + "_" + challengeId
  }

  /** With user ids that contain no '_', different (user, challenge) pairs have different keys. */
  lemma ProgressKeyInjective(u1: string, c1: string, u2: string, c2: string)
    requires '_' !in u1 && '_' !in u2
    requires ProgressKey(u1, c1) == ProgressKey(u2, c2)
    ensures u1 == u2 && c1 == c2
  {
  }

  /** A user id with a '_' can share a key with another pair. */
  lemma ProgressKeyCollision()
    ensures ProgressKey("a_b", "c") == ProgressKey("a", "b_c")
  {
  }

  /** One fresh progress entry per requirement, in the same order (`requirements.map`). */
  function InitialEntries(reqs: seq<ChallengeRequirement>, now: int): (es: seq<ChallengeProgress>)
    ensures |es| == |reqs|
    ensures forall i :: 0 <= i < |reqs| ==>
      es[i] == ChallengeProgress(reqs[i].id, 0, reqs[i].target, false, now)
  {
    if reqs == [] then []
    else [ChallengeProgress(reqs[0].id, 0, reqs[0].target, false, now)] + InitialEntries(reqs[1..], now)
  }

  /** The record `startChallenge` writes: in progress, nothing earned, nothing completed. */
  function StartedRecord(userId: string, challengeId: string, reqs: seq<ChallengeRequirement>, now: int)
    : (r: UserChallengeProgress)
    ensures r.id == ProgressKey(userId, challengeId) && r.userId == userId && r.challengeId == challengeId
    ensures r.status == InProgress && r.pointsEarned == 0 && r.completedAt.None? && r.startedAt == now
    ensures |r.progress| == |reqs|
    ensures forall i :: 0 <= i < |r.progress| ==>
      r.progress[i].requirementId == reqs[i].id && r.progress[i].currentValue == 0
      && r.progress[i].targetValue == reqs[i].target && !r.progress[i].isCompleted
  {
    UserChallengeProgress(ProgressKey(userId, challengeId), userId, challengeId, InProgress,
                          InitialEntries(reqs, now), now, None, 0)
  }

  function Min(a: int, b: int): int { if a <= b then a else b }

  /** One entry after the value `value` is reported for `requirementId`. */
  function UpdatedEntry(e: ChallengeProgress, requirementId: string, value: int, now: int): (r: ChallengeProgress)
    ensures e.requirementId != requirementId ==> r == e
    ensures e.requirementId == requirementId ==>
      && r.requirementId == e.requirementId && r.targetValue == e.targetValue
      && r.currentValue <= r.targetValue && r.currentValue <= value
      && (r.currentValue == value || r.currentValue == r.targetValue)
      && (r.isCompleted <==> value >= e.targetValue)
      && r.lastUpdated == now
  {
    if e.requirementId == requirementId then
      e.(currentValue := Min(value, e.targetValue), isCompleted := value >= e.targetValue, lastUpdated := now)
    else e
  }

  /** The entry list after an update (`progress.map`): same length and order, and only the
    * entries of `requirementId` change. */
  function UpdatedEntries(es: seq<ChallengeProgress>, requirementId: string, value: int, now: int)
    : (r: seq<ChallengeProgress>)
    ensures |r| == |es|
    ensures forall i :: 0 <= i < |es| ==> r[i] == UpdatedEntry(es[i], requirementId, value, now)
  {
    if es == [] then []
    else [UpdatedEntry(es[0], requirementId, value, now)] + UpdatedEntries(es[1..], requirementId, value, now)
  }

  /** `progress.every(p => p.isCompleted)`. */
  function AllCompleted(es: seq<ChallengeProgress>): (b: bool)
    ensures b <==> forall i :: 0 <= i < |es| ==> es[i].isCompleted
  {
    if es == [] then true
    else es[0].isCompleted && AllCompleted(es[1..])
  }

  /** The record after an update, given the reward of the challenge (0 when the challenge
    * cannot be found): the entries are updated; the status is completed exactly when every
    * entry is; points and completion time are set only on the transition into completed. */
  function UpdatedRecord(rec: UserChallengeProgress, requirementId: string, value: int,
                         reward: int, now: int): (r: UserChallengeProgress)
    ensures r.id == rec.id && r.userId == rec.userId && r.challengeId == rec.challengeId
    ensures r.startedAt == rec.startedAt
    ensures r.progress == UpdatedEntries(rec.progress, requirementId, value, now)
    ensures r.status == Completed <==> forall i :: 0 <= i < |r.progress| ==> r.progress[i].isCompleted
    ensures r.status == Completed || r.status == InProgress
    ensures rec.status != Completed && r.status == Completed ==> r.pointsEarned == reward && r.completedAt == Some(now)
    ensures !(rec.status != Completed && r.status == Completed) ==>
      r.pointsEarned == rec.pointsEarned && r.completedAt == rec.completedAt
  {
    var progress := UpdatedEntries(rec.progress, requirementId, value, now);
    var done := AllCompleted(progress);
    var transition := done && rec.status != Completed;
    rec.(progress := progress,
         status := if done then Completed else InProgress,
         pointsEarned := if transition then reward else rec.pointsEarned,
         completedAt := if transition then Some(now) else rec.completedAt)
  }

  /** Every entry of `requirementId` ends at or below its target, and an entry list that was
    * within its targets stays within them. */
  lemma UpdatedEntriesClamped(es: seq<ChallengeProgress>, requirementId: string, value: int, now: int)
    ensures forall i :: 0 <= i < |es| && es[i].requirementId == requirementId ==>
      UpdatedEntries(es, requirementId, value, now)[i].currentValue <= es[i].targetValue
    ensures (forall i :: 0 <= i < |es| ==> es[i].currentValue <= es[i].targetValue) ==>
      forall i :: 0 <= i < |es| ==>
        UpdatedEntries(es, requirementId, value, now)[i].currentValue
          <= UpdatedEntries(es, requirementId, value, now)[i].targetValue
  {
  }

  /** Reporting the same value twice is reporting it once. */
  lemma UpdatedRecordIdempotent(rec: UserChallengeProgress, requirementId: string, value: int,
                                reward: int, now: int)
    ensures var once := UpdatedRecord(rec, requirementId, value, reward, now);
      UpdatedRecord(once, requirementId, value, reward, now) == once
  {
    var once := UpdatedRecord(rec, requirementId, value, reward, now);
    var es := rec.progress;
    var es1 := once.progress;
    var es2 := UpdatedEntries(es1, requirementId, value, now);
    assert es2 == es1 by {
      forall i | 0 <= i < |es| ensures es2[i] == es1[i] {
        assert es1[i] == UpdatedEntry(es[i], requirementId, value, now);
      }
    }
  }

  /** Once completed, a record keeps its points whatever is reported later, even when a
    * smaller value moves it back to in progress. */
  lemma PointsAwardedOnce(rec: UserChallengeProgress, requirementId: string, value: int,
                          reward: int, now: int)
    requires rec.status == Completed
    ensures UpdatedRecord(rec, requirementId, value, reward, now).pointsEarned == rec.pointsEarned
    ensures UpdatedRecord(rec, requirementId, value, reward, now).completedAt == rec.completedAt
  {
  }

  /** The payload computed for a completed record: with a single requirement of target 10,
    * reporting 10 completes it and awards the reward; computing the payload for 3 afterwards
    * gives in progress with the reward kept. `ProgressTable.UpdateChallengeProgress` never
    * stores that second payload, because a record with a completion time is refused. */
  lemma CompletionCanRegress()
    ensures var rec := UserChallengeProgress("u_c", "u", "c", InProgress,
                                             [ChallengeProgress("r", 0, 10, false, 0)], 0, None, 0);
      var done := UpdatedRecord(rec, "r", 10, 100, 1);
      var back := UpdatedRecord(done, "r", 3, 100, 2);
      && done.status == Completed && done.pointsEarned == 100 && done.completedAt == Some(1)
      && back.status == InProgress && back.pointsEarned == 100 && back.completedAt == Some(1)
      && back.progress[0].currentValue == 3
  {
    var rec := UserChallengeProgress("u_c", "u", "c", InProgress,
                                     [ChallengeProgress("r", 0, 10, false, 0)], 0, None, 0);
    var done := UpdatedRecord(rec, "r", 10, 100, 1);
    assert done.progress[0].isCompleted;
    var back := UpdatedRecord(done, "r", 3, 100, 2);
    assert !back.progress[0].isCompleted;
  }

  /** A challenge with no requirements is completed by any update, since `every` holds of the
    * empty list. */
  lemma EmptyRequirementsCompleteOnUpdate(rec: UserChallengeProgress, requirementId: string,
                                          value: int, reward: int, now: int)
    requires rec.progress == []
    ensures UpdatedRecord(rec, requirementId, value, reward, now).status == Completed
  {
  }

  /** The reward `challenge?.pointsReward || 0`. */
  function RewardOf(challenge: Option<EcoChallenge>): (n: int)
    ensures challenge.None? ==> n == 0
    ensures challenge.Some? ==> n == challenge.value.pointsReward
  {
    if challenge.Some? && challenge.value.pointsReward != 0 then challenge.value.pointsReward else 0
  }

  /** The four challenges `getMockChallenges` offers when the backend cannot be reached. */
  function MockChallenges(now: int): (cs: seq<EcoChallenge>)
    ensures |cs| == 4
    ensures cs[0].id == "daily_plastic_free" && cs[1].id == "weekly_recycle"
    ensures cs[2].id == "daily_energy_saver" && cs[3].id == "weekly_water_conservation"
    ensures forall i :: 0 <= i < 4 ==> cs[i].isActive && cs[i].startDate == now
    ensures forall i :: 0 <= i < 4 ==>
      cs[i].endDate == now + (if cs[i].kind == Daily then DayMillis else 7 * DayMillis)
    ensures forall i :: 0 <= i < 4 ==> cs[i].kind == Daily || cs[i].kind == Weekly
    ensures forall i, j :: 0 <= i < 4 && 0 <= j < |cs[i].requirements| ==> cs[i].requirements[j].target > 0
  {
    var tomorrow := now + DayMillis;
    var nextWeek := now + 7 * DayMillis;
    [ EcoChallenge("daily_plastic_free", "Plastic-Free Day",
                   "Avoid single-use plastics for the entire day", Daily, Waste, Difficulty.Medium,
                   50, now, tomorrow,
                   [ ChallengeRequirement("no_plastic_bottles", "Use reusable water bottle", Action, 1, None, false),
                     ChallengeRequirement("no_plastic_bags", "Use cloth/paper bags for shopping", Action, 1, None, false) ],
                   "\U{1F331}", true, 1247, 0.68),
      EcoChallenge("weekly_recycle", "Recycling Champion", "Recycle at least 10 items this week",
                   Weekly, Waste, Easy, 100, now, nextWeek,
                   [ ChallengeRequirement("recycle_items", "Recycle items", Quantity, 10, Some("items"), false) ],
                   "\U{267B}\U{FE0F}", true, 892, 0.45),
      EcoChallenge("daily_energy_saver", "Energy Saver",
                   "Reduce energy consumption by turning off unused devices", Daily, Energy, Easy,
                   30, now, tomorrow,
                   [ ChallengeRequirement("turn_off_lights", "Turn off lights when leaving rooms", Action, 5, Some("times"), false),
                     ChallengeRequirement("unplug_devices", "Unplug unused electronic devices", Action, 3, Some("devices"), false) ],
                   "\U{26A1}", true, 1456, 0.72),
      EcoChallenge("weekly_water_conservation", "Water Guardian", "Conserve water through mindful usage",
                   Weekly, Water, Difficulty.Medium, 75, now, nextWeek,
                   [ ChallengeRequirement("shorter_showers", "Take showers under 5 minutes", Duration, 5, Some("days"), false),
                     ChallengeRequirement("fix_leaks", "Fix any water leaks found", Action, 1, None, false) ],
                   "\U{1F4A7}", true, 634, 0.58) ]
  }

  /** `getActiveChallenges`: the fetched list, or the mocks when the fetch fails. */
  function ActiveChallenges(fetched: Option<seq<EcoChallenge>>, now: int): (cs: seq<EcoChallenge>)
    ensures fetched.Some? ==> cs == fetched.value
    ensures fetched.None? ==> cs == MockChallenges(now)
  {
    if fetched.Some? then fetched.value else MockChallenges(now)
  }

  /** `getChallengesByType`: the fetched list, or the mocks of that type when the fetch fails. */
  function ChallengesByType(kind: ChallengeType, fetched: Option<seq<EcoChallenge>>, now: int)
    : (cs: seq<EcoChallenge>)
    ensures fetched.Some? ==> cs == fetched.value
    ensures fetched.None? ==> IsSubsequence(cs, MockChallenges(now))
    ensures fetched.None? ==> forall c :: c in cs ==> c.kind == kind
    ensures fetched.None? ==> forall c :: c in MockChallenges(now) && c.kind == kind ==> c in cs
  {
    if fetched.Some? then fetched.value
    else
      FilterIsSubsequence(MockChallenges(now), (c: EcoChallenge) => c.kind == kind);
      Filter(MockChallenges(now), (c: EcoChallenge) => c.kind == kind)
  }

  /** The mock fallback has no monthly and no special challenges. */
  lemma NoMockMonthlyOrSpecial(now: int)
    ensures ChallengesByType(Monthly, None, now) == [] && ChallengesByType(Special, None, now) == []
  {
    var ms := MockChallenges(now);
    FilterDropsAll(ms, (c: EcoChallenge) => c.kind == Monthly);
    FilterDropsAll(ms, (c: EcoChallenge) => c.kind == Special);
  }

  /** `getUserChallengeProgress`: the fetched records, or none when the fetch fails. */
  function UserChallengeProgressOf(fetched: Option<seq<UserChallengeProgress>>): (ps: seq<UserChallengeProgress>)
    ensures fetched.Some? ==> ps == fetched.value
    ensures fetched.None? ==> ps == []
  {
    if fetched.Some? then fetched.value else []
  }

  /** The challenge and progress collections. A `writeFault` argument stands for the backend
    * write (or read) of a call throwing. */
  class ProgressTable {
    /** 'challenges', by id. */
    var challenges: map<string, EcoChallenge>
    /** 'userChallengeProgress', by `ProgressKey`. */
    var records: map<string, UserChallengeProgress>

    /** Each record is stored under its own id; a record that has never completed has
      * earned nothing and is in progress. */
    predicate Valid()
      reads this
    {
      forall k :: k in records ==>
        records[k].id == k
        && (records[k].completedAt.None? ==> records[k].pointsEarned == 0 && records[k].status == InProgress)
    }

    constructor (challenges: map<string, EcoChallenge>)
      ensures Valid() && this.challenges == challenges && records == map[]
    {
      this.challenges := challenges;
      records := map[];
    }

    /** `getChallengeById`. */
    function ChallengeById(id: string): (c: Option<EcoChallenge>)
      reads this
      ensures c.Some? <==> id in challenges
      ensures c.Some? ==> c.value == challenges[id]
    {
      if id in challenges then Some(challenges[id]) else None
    }

    /** `startChallenge`: an unknown challenge is refused; otherwise a fresh record replaces
      * whatever was stored under the key. */
    method StartChallenge(userId: string, challengeId: string, now: int, writeFault: bool) returns (ok: bool)
      requires Valid()
      modifies this
      ensures Valid() && challenges == old(challenges)
      ensures ok <==> challengeId in challenges && !writeFault
      ensures records == if ok then old(records)[ProgressKey(userId, challengeId) :=
                                     StartedRecord(userId, challengeId, challenges[challengeId].requirements, now)]
                         else old(records)
    {
      var challenge := ChallengeById(challengeId);
      if challenge.None? || writeFault {
        return false;
      }
      var key := ProgressKey(userId, challengeId);
      var rec := StartedRecord(userId, challengeId, challenge.value.requirements, now);
      records := records[key := rec];
      return true;
    }

    /** `updateChallengeProgress`: without a record under the key nothing is written and the
      * answer is false. A stored record that already has a completion time is refused too:
      * the backend hands that time back as a `Timestamp`, and re-encoding it with
      * `Timestamp.fromDate` throws, so the catch answers false before anything is written.
      * Otherwise the record is updated with the reward of `challengeId`. */
    method UpdateChallengeProgress(userId: string, challengeId: string, requirementId: string,
                                   value: int, now: int, writeFault: bool) returns (ok: bool)
      requires Valid()
      modifies this
      ensures Valid() && challenges == old(challenges)
      ensures ok <==> ProgressKey(userId, challengeId) in old(records)
                      && old(records)[ProgressKey(userId, challengeId)].completedAt.None? && !writeFault
      ensures (ProgressKey(userId, challengeId) in old(records)
               && old(records)[ProgressKey(userId, challengeId)].completedAt.Some?) ==>
              !ok && records == old(records)
      ensures ok ==> old(records)[ProgressKey(userId, challengeId)].status == InProgress
      ensures records == if ok then
        var key := ProgressKey(userId, challengeId);
        old(records)[key := UpdatedRecord(old(records)[key], requirementId, value,
                                          RewardOf(ChallengeById(challengeId)), now)]
        else old(records)
    {
      var key := ProgressKey(userId, challengeId);
      if key !in records || records[key].completedAt.Some? || writeFault {
        return false;
      }
      var rec := UpdatedRecord(records[key], requirementId, value, RewardOf(ChallengeById(challengeId)), now);
      records := records[key := rec];
      return true;
    }
  }
}
