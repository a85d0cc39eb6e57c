/**
 * The rule logic of the mobile challenges screen (`components/screens/ChallengesScreen.tsx`):
 * the list filter, the progress lookup and percentage, the start guard and the requirement
 * preview.
 */
module ChallengesScreen {
  import opened Wrappers
  import opened Types
  import opened Text
  import opened Seqs

  /** The filter chips of the screen. */
  datatype ChallengeFilter = All | DailyOnly | WeeklyOnly | MonthlyOnly | MyChallenges

  /** Whether some progress record belongs to challenge `id` (`myChallengeIds.includes(id)`). */
  predicate Started(id: string, ups: seq<UserChallengeProgress>) {
    exists i :: 0 <= i < |ups| && ups[i].challengeId == id
  }

  /** The challenge type a type chip selects. */
  function ChipType(f: ChallengeFilter): ChallengeType
    requires f == DailyOnly || f == WeeklyOnly || f == MonthlyOnly
  {
    match f
    case DailyOnly => Daily
    case WeeklyOnly => Weekly
    case MonthlyOnly => Monthly
  }

  /** `getFilteredChallenges`: every challenge under 'all'; under a type chip the challenges of
    * that type; under 'my_challenges' the challenges the user has started; always in list
    * order. */
  function FilteredChallenges(f: ChallengeFilter, cs: seq<EcoChallenge>, ups: seq<UserChallengeProgress>)
    : (r: seq<EcoChallenge>)
    ensures f == All ==> r == cs
    ensures IsSubsequence(r, cs)
    ensures f == DailyOnly || f == WeeklyOnly || f == MonthlyOnly ==>
      forall c :: c in r <==> c in cs && c.kind == ChipType(f)
    ensures f == MyChallenges ==> forall c :: c in r <==> c in cs && Started(c.id, ups)
    ensures f == DailyOnly || f == WeeklyOnly || f == MonthlyOnly ==>
      forall c :: c in cs ==> multiset(r)[c] == if c.kind == ChipType(f) then multiset(cs)[c] else 0
    ensures f == MyChallenges ==>
      forall c :: c in cs ==> multiset(r)[c] == if Started(c.id, ups) then multiset(cs)[c] else 0
  {
    match f
    case All =>
      FilterIsSubsequence(cs, (c: EcoChallenge) => true);
      FilterKeepsAll(cs, (c: EcoChallenge) => true);
      cs
    case DailyOnly =>
      FilterIsSubsequence(cs, (c: EcoChallenge) => c.kind == Daily);
      Filter(cs, (c: EcoChallenge) => c.kind == Daily)
    case WeeklyOnly =>
      FilterIsSubsequence(cs, (c: EcoChallenge) => c.kind == Weekly);
      Filter(cs, (c: EcoChallenge) => c.kind == Weekly)
    case MonthlyOnly =>
      FilterIsSubsequence(cs, (c: EcoChallenge) => c.kind == Monthly);
      Filter(cs, (c: EcoChallenge) => c.kind == Monthly)
    case MyChallenges =>
      FilterIsSubsequence(cs, (c: EcoChallenge) => Started(c.id, ups));
      Filter(cs, (c: EcoChallenge) => Started(c.id, ups))
  }

  /** Special challenges are never listed under a type chip. */
  lemma SpecialOnlyUnderAll(f: ChallengeFilter, cs: seq<EcoChallenge>, ups: seq<UserChallengeProgress>, c: EcoChallenge)
    requires f == DailyOnly || f == WeeklyOnly || f == MonthlyOnly
    requires c.kind == Special
    ensures c !in FilteredChallenges(f, cs, ups)
  {
  }

  /** `getChallengeProgress`: the first record of the challenge, if any (`find`). */
  function ChallengeProgressOf(id: string, ups: seq<UserChallengeProgress>): (r: Option<UserChallengeProgress>)
    ensures r.None? <==> !Started(id, ups)
    ensures r.Some? ==> exists i :: 0 <= i < |ups| && ups[i] == r.value && r.value.challengeId == id
                                    && forall j :: 0 <= j < i ==> ups[j].challengeId != id
  {
    if ups == [] then None
    else if ups[0].challengeId == id then Some(ups[0])
    else
      var r := ChallengeProgressOf(id, ups[1..]);
      assert forall j :: 1 <= j < |ups| ==> ups[j] == ups[1..][j - 1];
      assert Started(id, ups[1..]) ==> Started(id, ups) by {
        if Started(id, ups[1..]) {
          var i :| 0 <= i < |ups[1..]| && ups[1..][i].challengeId == id;
          assert ups[i + 1].challengeId == id;
        }
      }
      r
  }

  /** `getProgressPercentage`: the share of completed entries in percent, and 0 for a record
    * without entries. */
  function ProgressPercentage(p: UserChallengeProgress): (r: real)
    ensures 0.0 <= r <= 100.0
    ensures p.progress == [] ==> r == 0.0
    ensures r == 100.0 <==> p.progress != [] && forall i :: 0 <= i < |p.progress| ==> p.progress[i].isCompleted
  {
    if |p.progress| == 0 then 0.0
    else
      var done := Filter(p.progress, (e: ChallengeProgress) => e.isCompleted);
      FilterFullLength(p.progress, (e: ChallengeProgress) => e.isCompleted);
      PercentBounds(|done|, |p.progress|);
      (|done| as real / |p.progress| as real) * 100.0
  }

  lemma PercentBounds(n: nat, d: nat)
    requires 0 < d && n <= d
    ensures 0.0 <= (n as real / d as real) * 100.0 <= 100.0
    ensures (n as real / d as real) * 100.0 == 100.0 <==> n == d
  {
    var nr, dr := n as real, d as real;
    if n == d {
      RatioToItself(dr);
    } else {
      RatioBelowOne(nr, dr);
    }
  }

  /** A smaller non-negative quantity over a larger one is a fraction in [0, 1). */
  lemma RatioBelowOne(a: real, b: real)
    requires 0.0 <= a < b
    ensures 0.0 <= a / b < 1.0
  {
  }

  /** A positive quantity over itself is 1. */
  lemma RatioToItself(x: real)
    requires x > 0.0
    ensures x / x == 1.0
  {
  }

  /** What pressing 'start' on a challenge leads to. */
  datatype StartDecision = NoUser | AlreadyStarted | AskToStart

  /** `handleStartChallenge`: nothing without a uid; an 'already started' alert when a record
    * of the challenge exists; otherwise the confirmation that calls `startChallenge`. */
  function DecideStart(uid: Option<string>, c: EcoChallenge, ups: seq<UserChallengeProgress>): (d: StartDecision)
    ensures d == NoUser <==> uid.None? || uid.value == ""
    ensures d == AlreadyStarted <==> uid.Some? && uid.value != "" && ChallengeProgressOf(c.id, ups).Some?
    ensures d == AskToStart ==> !Started(c.id, ups)
  {
    if uid.None? || uid.value == "" then NoUser
    else if ChallengeProgressOf(c.id, ups).Some? then AlreadyStarted
    else AskToStart
  }

  /** A challenge listed under 'my_challenges' is never offered to be started again. */
  lemma ListedChallengesAreNotRestarted(uid: string, cs: seq<EcoChallenge>, ups: seq<UserChallengeProgress>,
                                        c: EcoChallenge)
    requires c in FilteredChallenges(MyChallenges, cs, ups)
    ensures DecideStart(Some(uid), c, ups) != AskToStart
  {
  }

  /** The requirements the card lists: at most the first two. */
  function PreviewShown(reqs: seq<ChallengeRequirement>): (shown: seq<ChallengeRequirement>)
    ensures |shown| == if |reqs| <= 2 then |reqs| else 2
    ensures shown == reqs[..|shown|]
  {
    if |reqs| <= 2 then reqs else reqs[..2]
  }

  /** How many requirements the card leaves out. */
  function HiddenCount(reqs: seq<ChallengeRequirement>): (n: nat)
    ensures |PreviewShown(reqs)| + n == |reqs|
  {
    if |reqs| > 2 then |reqs| - 2 else 0
  }

  /** The '+n more requirements' line, shown only for more than two requirements. */
  function MoreLabel(reqs: seq<ChallengeRequirement>): (l: Option<string>)
    ensures l.Some? <==> |reqs| > 2
    ensures l.Some? ==> l.value == "+" + NatToString(HiddenCount(reqs)) + " more requirements"
  {
    if |reqs| > 2 then Some("+" + NatToString(|reqs| - 2) + " more requirements") else None
  }

  /** A listed requirement: its description, and ' (target unit)' when it has a non-empty unit. */
  function RequirementLine(r: ChallengeRequirement): (line: string)
    ensures StartsWith(line, r.description)
    ensures line == r.description <==> r.unit.None? || r.unit.value == ""
    ensures r.unit.Some? && r.unit.value != "" ==>
      line == r.description + " (" + IntToString(r.target) + " " + r.unit.value + ")"
  {
    if r.unit.Some? && r.unit.value != "" then
      r.description + " (" + IntToString(r.target) + " " + r.unit.value + ")"
    else r.description
  }
}
