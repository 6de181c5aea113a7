/** The bucket classifiers: a score is turned into a level name "S1" (lowest)
    up to "S5" or "S10" by a chain of thresholds. */
module ScoreBuckets {

  /** The level names, lowest first. The five-level scales use the first five. */
  const LEVELS: seq<string> := ["S1", "S2", "S3", "S4", "S5", "S6", "S7", "S8", "S9", "S10"]

  /** The level names S1 to S5. */
  predicate IsS5Level(level: string)
  {
    level == "S1" || level == "S2" || level == "S3" || level == "S4" || level == "S5"
  }

  /** The level names S1 to S10. */
  predicate IsS10Level(level: string)
  {
    || IsS5Level(level)
    || level == "S6" || level == "S7" || level == "S8" || level == "S9" || level == "S10"
  }

  /** The n-th level name. */
  function Level(n: int): (level: string)
    requires 1 <= n <= 10
    ensures IsS10Level(level) && (n <= 5 ==> IsS5Level(level))
  {
    LEVELS[n - 1]
  }

  /** The number of a level name: the inverse of `Level`. */
  function Rank(level: string): (n: int)
    requires IsS10Level(level)
    ensures 1 <= n <= 10 && Level(n) == level
    ensures IsS5Level(level) <==> n <= 5
  {
    if level == "S1" then 1 else if level == "S2" then 2 else if level == "S3" then 3
    else if level == "S4" then 4 else if level == "S5" then 5 else if level == "S6" then 6
    else if level == "S7" then 7 else if level == "S8" then 8 else if level == "S9" then 9
    else 10
  }

  function Clamp(n: int, lo: int, hi: int): int
    requires lo <= hi
  {
    if n < lo then lo else if n > hi then hi else n
  }

  /** `toS5`: the 0..100 score scale in five bands of 20. */
  function ToS5(score: real): (level: string)
    ensures IsS5Level(level)
  {
    if score >= 80.0 then "S5"
    else if score >= 60.0 then "S4"
    else if score >= 40.0 then "S3"
    else if score >= 20.0 then "S2"
    else "S1"
  }

  /** `toS10`: ten bands of 10. */
  function ToS10(score: real): (level: string)
    ensures IsS10Level(level)
  {
    if score >= 90.0 then "S10"
    else if score >= 80.0 then "S9"
    else if score >= 70.0 then "S8"
    else if score >= 60.0 then "S7"
    else if score >= 50.0 then "S6"
    else if score >= 40.0 then "S5"
    else if score >= 30.0 then "S4"
    else if score >= 20.0 then "S3"
    else if score >= 10.0 then "S2"
    else "S1"
  }

  /** `levelFromPercent`: the irregular bands 10 / 20 / 35 / 50 of the life
      allocation percentages. */
  function LevelFromPercent(p: real): (level: string)
    ensures IsS5Level(level)
  {
    if p >= 50.0 then "S5"
    else if p >= 35.0 then "S4"
    else if p >= 20.0 then "S3"
    else if p >= 10.0 then "S2"
    else "S1"
  }

  /** The five bands are those of width 20: the level number is
      ⌊score / 20⌋ + 1, clamped to 1..5. */
  lemma ToS5Floor(score: real)
    ensures Rank(ToS5(score)) == Clamp((score / 20.0).Floor + 1, 1, 5)
  {
    var q := (score / 20.0).Floor;
    assert q as real <= score / 20.0 < q as real + 1.0;
  }

  /** The ten bands are those of width 10: for 0 <= score < 90 the level
      number is ⌊score / 10⌋ + 1, and outside it is clamped to 1..10. */
  lemma ToS10Floor(score: real)
    ensures Rank(ToS10(score)) == Clamp((score / 10.0).Floor + 1, 1, 10)
    ensures 0.0 <= score < 90.0 ==> Rank(ToS10(score)) == (score / 10.0).Floor + 1
  {
    var q := (score / 10.0).Floor;
    assert q as real <= score / 10.0 < q as real + 1.0;
  }

  /** The percentage level counts the thresholds 10, 20, 35 and 50 reached. */
  lemma LevelFromPercentCount(p: real)
    ensures Rank(LevelFromPercent(p))
         == 1 + (if p >= 10.0 then 1 else 0) + (if p >= 20.0 then 1 else 0)
              + (if p >= 35.0 then 1 else 0) + (if p >= 50.0 then 1 else 0)
  {
  }

  /** Negative inputs land in S1 on every scale. */
  lemma NegativeIsLowest(score: real)
    requires score < 0.0
    ensures ToS5(score) == "S1" && ToS10(score) == "S1" && LevelFromPercent(score) == "S1"
  {
  }

  /** All three classifiers are monotone. */
  lemma ToS5Monotone(s1: real, s2: real)
    requires s1 >= s2
    ensures Rank(ToS5(s1)) >= Rank(ToS5(s2))
  {
    ToS5Floor(s1);
    ToS5Floor(s2);
  }

  lemma ToS10Monotone(s1: real, s2: real)
    requires s1 >= s2
    ensures Rank(ToS10(s1)) >= Rank(ToS10(s2))
  {
    ToS10Floor(s1);
    ToS10Floor(s2);
  }

  lemma LevelFromPercentMonotone(p1: real, p2: real)
    requires p1 >= p2
    ensures Rank(LevelFromPercent(p1)) >= Rank(LevelFromPercent(p2))
  {
    LevelFromPercentCount(p1);
    LevelFromPercentCount(p2);
  }

  /** The two score scales agree: the five-level band is the ten-level band
      halved, rounded up. */
  lemma S5IsHalfS10(score: real)
    ensures Rank(ToS5(score)) == (Rank(ToS10(score)) + 1) / 2
  {
  }
}
