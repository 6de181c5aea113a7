/** The infrastructure copy of the attractiveness computation. It repeats
    the weighted sums of the domain calculator and the assembly of the
    application service; here both are written out again and proved equal
    to those copies. */
module InfraPopularity {
  import opened Base
  import opened TypeFlags
  import opened ScoreBuckets
  import opened Attractiveness
  import PopularityCalculator
  import PopularityService

  function Min(a: real, b: real): real
  {
    if a <= b then a else b
  }

  /** `calcAttractivenessScores`: the three weighted sums scaled to 0..100
      and clamped, and their mean. The weights and the mean are those of the
      domain calculator, so the scores are the same for every flag record. */
  function CalcAttractivenessScores(f: Flags): (s: AttractivenessScores)
    ensures s == PopularityService.Scores(f)
  {
    var rawChance := 0.35 * f.E + 0.20 * f.L + 0.15 * f.O + 0.15 * f.J + 0.15 * f.Pm;
    var rawFirst := 0.25 * f.E + 0.25 * f.Fm + 0.20 * f.C + 0.20 * f.Pl + 0.10 * f.N;
    var rawLasting := 0.30 * f.El + 0.25 * f.R + 0.20 * f.Fm + 0.15 * f.J + 0.10 * f.I;
    var chance := Min(100.0, rawChance * 100.0);
    var firstImpression := Min(100.0, rawFirst * 100.0);
    var lastingLikeability := Min(100.0, rawLasting * 100.0);
    var totalScore := (chance + firstImpression + lastingLikeability) / 3.0;
    AttractivenessScores(totalScore, chance, firstImpression, lastingLikeability)
  }

  /** `buildAttractivenessResult`: the ten-step level of each sub-score, the
      level texts, the summary of the three fixed openings and the texts,
      checked by `createAttractiveness`. It builds the same result, or throws
      the same error, as the application service. */
  function BuildAttractivenessResult(f: Flags, t: PopularityService.PopularityTexts)
    : (r: Result<Attractiveness, AttractivenessError>)
    ensures r == PopularityService.Build(f, t)
    ensures r.Ok? ==> && r.value.levels.chance == ToS10(r.value.scores.chance)
                      && r.value.levels.firstImpression == ToS10(r.value.scores.firstImpression)
                      && r.value.levels.lastingLikeability == ToS10(r.value.scores.lastingLikeability)
    ensures r.Ok? ==> r.value.texts.summary
                      == PopularityService.CHANCE_PREFIX + r.value.texts.chance + " "
                         + PopularityService.FIRST_PREFIX + r.value.texts.firstImpression + " "
                         + PopularityService.LASTING_PREFIX + r.value.texts.lastingLikeability
  {
    var scores := CalcAttractivenessScores(f);
    var levelChance := ToS10(scores.chance);
    var levelFirst := ToS10(scores.firstImpression);
    var levelLast := ToS10(scores.lastingLikeability);
    var textChance := t.chance(levelChance);
    var textFirst := t.firstImpression(levelFirst);
    var textLast := t.lasting(levelLast);
    var summary := PopularityService.CHANCE_PREFIX + textChance + " "
                   + PopularityService.FIRST_PREFIX + textFirst + " "
                   + PopularityService.LASTING_PREFIX + textLast;
    var levels := AttractivenessLevels(levelChance, levelFirst, levelLast);
    assert levels == PopularityService.Levels(scores);
    Create(scores, levels, AttractivenessTexts(textChance, textFirst, textLast, summary))
  }

  /** The levels of the two worked profiles: S6, S7 and S10 for ENFJ with
      FARE; S4, S3 and S2 for ISTP with FAPO, whose total is 20. */
  lemma WorkedLevels()
    ensures var s := CalcAttractivenessScores(GetFlags("ENFJ", "FARE"));
      [ToS10(s.chance), ToS10(s.firstImpression), ToS10(s.lastingLikeability)] == ["S6", "S7", "S10"]
    ensures var s := CalcAttractivenessScores(GetFlags("ISTP", "FAPO"));
      && [ToS10(s.chance), ToS10(s.firstImpression), ToS10(s.lastingLikeability)] == ["S4", "S3", "S2"]
      && s.totalScore == 20.0
  {
    PopularityService.EnfjFareLevels();
    PopularityService.IstpFapoLevels();
  }
}
