/** Level classification, point formatting and waste-type colours (`utils/helpers.ts`). */
module Helpers {
  import opened Types
  import opened Constants
  import opened Text

  /** `points >= level.min && points <= level.max`. */
  predicate InLevel(points: real, level: AchievementLevel) {
    points >= level.min as real && (level.max.Infinity? || points <= level.max.n as real)
  }

  /** The name of the first level of `levels` whose range holds `points`, or `fallback`
    * when none does. */
  function FirstLevelName(levels: seq<AchievementLevel>, points: real, fallback: string): (name: string)
    ensures || (exists i :: 0 <= i < |levels| && InLevel(points, levels[i]) && name == levels[i].name
                         && forall j :: 0 <= j < i ==> !InLevel(points, levels[j]))
            || ((forall j :: 0 <= j < |levels| ==> !InLevel(points, levels[j])) && name == fallback)
  {
    if levels == [] then fallback
    else if InLevel(points, levels[0]) then levels[0].name
    else
      var name := FirstLevelName(levels[1..], points, fallback);
      assert forall j :: 1 <= j < |levels| ==> levels[j] == levels[1..][j - 1];
      name
  }

  /** The level name `getUserLevel` computes: the first entry of the table that holds
    * `points`, and 'Eco Beginner' when no entry does. */
  function UserLevel(points: real): string {
    FirstLevelName(AchievementLevels, points, Beginner.name)
  }

  /** `getUserLevel`: a search through the level table with an early return. */
  method GetUserLevel(points: real) returns (name: string)
    ensures name == UserLevel(points)
  {
    for i := 0 to |AchievementLevels|
      invariant FirstLevelName(AchievementLevels[i..], points, Beginner.name) == UserLevel(points)
    {
      if InLevel(points, AchievementLevels[i]) {
        return AchievementLevels[i].name;
      }
      assert AchievementLevels[i..][1..] == AchievementLevels[i + 1..];
    }
    return Beginner.name;
  }

  /** The table search written out entry by entry. */
  lemma UserLevelUnfolded(x: real)
    ensures UserLevel(x) ==
      if InLevel(x, Beginner) then Beginner.name
      else if InLevel(x, Enthusiast) then Enthusiast.name
      else if InLevel(x, Champion) then Champion.name
      else if InLevel(x, Hero) then Hero.name
      else if InLevel(x, Legend) then Legend.name
      else Beginner.name
  {
    var b := Beginner.name;
    var t := AchievementLevels;
    assert t[0] == Beginner && t[1..] == [Enthusiast, Champion, Hero, Legend];
    assert FirstLevelName(t, x, b) ==
      if InLevel(x, Beginner) then b else FirstLevelName([Enthusiast, Champion, Hero, Legend], x, b);
    assert [Enthusiast, Champion, Hero, Legend][1..] == [Champion, Hero, Legend];
    assert FirstLevelName([Enthusiast, Champion, Hero, Legend], x, b) ==
      if InLevel(x, Enthusiast) then Enthusiast.name else FirstLevelName([Champion, Hero, Legend], x, b);
    assert [Champion, Hero, Legend][1..] == [Hero, Legend];
    assert FirstLevelName([Champion, Hero, Legend], x, b) ==
      if InLevel(x, Champion) then Champion.name else FirstLevelName([Hero, Legend], x, b);
    assert [Hero, Legend][1..] == [Legend];
    assert FirstLevelName([Hero, Legend], x, b) ==
      if InLevel(x, Hero) then Hero.name else FirstLevelName([Legend], x, b);
    assert [Legend][1..] == [];
    assert FirstLevelName([Legend], x, b) ==
      if InLevel(x, Legend) then Legend.name else FirstLevelName([], x, b);
  }

  /** The position of a level name in the table; names outside it rank first. */
  function LevelRank(name: string): nat {
    if name == Legend.name then 4
    else if name == Hero.name then 3
    else if name == Champion.name then 2
    else if name == Enthusiast.name then 1
    else 0
  }

  /** For whole numbers of points the five ranges decide the level; negative points,
    * which no range holds, get 'Eco Beginner'. */
  lemma UserLevelOfWholePoints(p: int)
    ensures UserLevel(p as real) ==
      if p <= 100 then "Eco Beginner"
      else if p <= 500 then "Eco Enthusiast"
      else if p <= 1000 then "Eco Champion"
      else if p <= 5000 then "Eco Hero"
      else "Eco Legend"
  {
    UserLevelUnfolded(p as real);
  }

  /** More whole points never give an earlier level. */
  lemma UserLevelMonotone(p: int, q: int)
    requires p <= q
    ensures LevelRank(UserLevel(p as real)) <= LevelRank(UserLevel(q as real))
  {
    UserLevelOfWholePoints(p);
    UserLevelOfWholePoints(q);
  }

  /** Fractional points between two ranges fall back to 'Eco Beginner', so over all
    * numbers the classification is not monotone. */
  lemma UserLevelFractionalGap()
    ensures UserLevel(500.0) == "Eco Enthusiast"
    ensures UserLevel(500.5) == "Eco Beginner"
  {
    UserLevelUnfolded(500.0);
    UserLevelUnfolded(500.5);
  }

  /** `formatPoints`: a million and up is scaled and suffixed 'M', a thousand and up 'K',
    * anything smaller (negatives included) is the plain decimal. The one-decimal rendering
    * `toFixed(1)` of the scaled double is a parameter. */
  function FormatPoints(points: int, toFixed1: real -> string): (r: string)
    ensures EndsWith(r, "M") <==> points >= 1000000
    ensures EndsWith(r, "K") <==> 1000 <= points < 1000000
    ensures points < 1000 ==> r == IntToString(points)
  {
    if points >= 1000000 then toFixed1(points as real / 1000000.0) + "M"
    else if points >= 1000 then toFixed1(points as real / 1000.0) + "K"
    else
      var r := IntToString(points);
      assert IsDigit(r[|r| - 1]);
      r
  }

  /** `getWasteTypeColor`: every waste type has its own entry, so the fall-back to the
    * colour of 'other' never applies. */
  function GetWasteTypeColor(w: WasteType): (c: string)
    ensures c == WasteTypeColor(w)
    ensures |c| == 7 && c[0] == '#'
  {
    var c := WasteTypeColor(w);
    if c != "" then c else WasteTypeColor(Other)
  }

  /** Distinct waste types are drawn in distinct colours. */
  lemma WasteTypeColorsDistinct(v: WasteType, w: WasteType)
    requires v != w
    ensures GetWasteTypeColor(v) != GetWasteTypeColor(w)
  {
  }
}
