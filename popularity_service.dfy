/** The attractiveness result: the calculator's scores, a ten-step level per
    sub-score, the text for each level and a summary joining the three. */
module PopularityService {
  import opened Base
  import opened TypeFlags
  import opened ScoreBuckets
  import opened PopularityCalculator
  import opened Attractiveness

  /** The three level text tables, opaque lookups from a level name to a
      text. */
  datatype PopularityTexts = PopularityTexts(
    chance: string -> string, firstImpression: string -> string, lasting: string -> string)

  /** Every level of the ten-step scale has a text that is not blank. */
  ghost predicate Covers(t: PopularityTexts)
  {
    forall level :: IsS10Level(level) ==>
      !IsBlank(t.chance(level)) && !IsBlank(t.firstImpression(level)) && !IsBlank(t.lasting(level))
  }

  /** The fixed openings of the three summary sentences. */
  const CHANCE_PREFIX: string := "出会いの多さについては、"
  const FIRST_PREFIX: string := "初対面では、"
  const LASTING_PREFIX: string := "そして長く付き合うと、"

  /** `calcAttractivenessScores`, as the value object's score record. */
  function Scores(f: Flags): (s: AttractivenessScores)
    ensures s.chance == RawChance(f) * 100.0 && s.firstImpression == RawFirst(f) * 100.0
    ensures s.lastingLikeability == RawLasting(f) * 100.0
    ensures 3.0 * s.totalScore == s.chance + s.firstImpression + s.lastingLikeability
    ensures forall field :: ScoreOk(s, field)
  {
    var p := PopularityCalculator.Calculate(f);
    AttractivenessScores(p.totalScore, p.chance, p.firstImpression, p.lastingLikeability)
  }

  /** The level of each sub-score on the ten-step scale. */
  function Levels(s: AttractivenessScores): (l: AttractivenessLevels)
    ensures forall field :: LevelOk(l, field)
  {
    AttractivenessLevels(ToS10(s.chance), ToS10(s.firstImpression), ToS10(s.lastingLikeability))
  }

  /** The texts for the three levels and the summary built from them. */
  function Texts(l: AttractivenessLevels, t: PopularityTexts): (x: AttractivenessTexts)
    ensures x.chance == t.chance(l.chance) && x.firstImpression == t.firstImpression(l.firstImpression)
    ensures x.lastingLikeability == t.lasting(l.lastingLikeability)
    ensures x.summary == CHANCE_PREFIX + x.chance + " " + FIRST_PREFIX + x.firstImpression + " "
                         + LASTING_PREFIX + x.lastingLikeability
    ensures TextOk(x, SummaryText)
  {
    var chance := t.chance(l.chance);
    var first := t.firstImpression(l.firstImpression);
    var lasting := t.lasting(l.lastingLikeability);
    var summary := CHANCE_PREFIX + chance + " " + FIRST_PREFIX + first + " " + LASTING_PREFIX + lasting;
    assert summary[0] == '出';
    AttractivenessTexts(chance, first, lasting, summary)
  }

  /** `buildAttractivenessResult`: the value object over the calculator's
      scores, their levels and the level texts. It is built exactly when the
      three looked-up texts are not blank, and so always when the tables
      cover every level. */
  function Build(f: Flags, t: PopularityTexts): (r: Result<Attractiveness, AttractivenessError>)
    ensures r.Ok? <==> var l := Levels(Scores(f));
      !IsBlank(t.chance(l.chance)) && !IsBlank(t.firstImpression(l.firstImpression))
      && !IsBlank(t.lasting(l.lastingLikeability))
    ensures Covers(t) ==> r.Ok?
    ensures r.Ok? ==> && r.value.scores == Scores(f)
                      && r.value.levels == Levels(Scores(f))
                      && r.value.texts == Texts(Levels(Scores(f)), t)
    ensures r.Err? ==> r.error.EmptyText? && r.error.text != SummaryText
  {
    var scores := Scores(f);
    var levels := Levels(scores);
    var texts := Texts(levels, t);
    assert TextOk(texts, ChanceText) <==> !IsBlank(t.chance(levels.chance));
    Create(scores, levels, texts)
  }

  /** ENFJ with FARE: levels S6, S7 and S10. */
  lemma EnfjFareLevels()
    ensures Levels(Scores(GetFlags("ENFJ", "FARE"))) == AttractivenessLevels("S6", "S7", "S10")
  {
    PopularityCalculator.EnfjFare();
  }

  /** ISTP with FAPO: levels S4, S3 and S2, total 20. */
  lemma IstpFapoLevels()
    ensures Levels(Scores(GetFlags("ISTP", "FAPO"))) == AttractivenessLevels("S4", "S3", "S2")
    ensures Scores(GetFlags("ISTP", "FAPO")).totalScore == 20.0
  {
    PopularityCalculator.IstpFapo();
  }
}
