/** The attractiveness value object: three sub-scores and their mean, a level
    per sub-score and four texts, accepted only when every field is valid. */
module Attractiveness {
  import opened Base
  import opened ScoreBuckets

  datatype AttractivenessScores = AttractivenessScores(
    totalScore: real, chance: real, firstImpression: real, lastingLikeability: real)

  datatype AttractivenessLevels = AttractivenessLevels(
    chance: string, firstImpression: string, lastingLikeability: string)

  datatype AttractivenessTexts = AttractivenessTexts(
    chance: string, firstImpression: string, lastingLikeability: string, summary: string)

  datatype Attractiveness = Attractiveness(
    scores: AttractivenessScores, levels: AttractivenessLevels, texts: AttractivenessTexts)

  /** The checked fields of each group, in the order they are checked. */
  datatype ScoreField = TotalScore | ChanceScore | FirstImpressionScore | LastingLikeabilityScore
  datatype LevelField = ChanceLevel | FirstImpressionLevel | LastingLikeabilityLevel
  datatype TextField = ChanceText | FirstImpressionText | LastingLikeabilityText | SummaryText

  /** The field a rejection names. */
  datatype AttractivenessError =
    | InvalidScore(score: ScoreField)
    | InvalidLevel(level: LevelField)
    | EmptyText(text: TextField)

  function ScoreIndex(f: ScoreField): nat
  {
    match f
    case TotalScore => 0
    case ChanceScore => 1
    case FirstImpressionScore => 2
    case LastingLikeabilityScore => 3
  }

  function LevelIndex(f: LevelField): nat
  {
    match f
    case ChanceLevel => 0
    case FirstImpressionLevel => 1
    case LastingLikeabilityLevel => 2
  }

  function TextIndex(f: TextField): nat
  {
    match f
    case ChanceText => 0
    case FirstImpressionText => 1
    case LastingLikeabilityText => 2
    case SummaryText => 3
  }

  function ScoreOf(s: AttractivenessScores, f: ScoreField): real
  {
    match f
    case TotalScore => s.totalScore
    case ChanceScore => s.chance
    case FirstImpressionScore => s.firstImpression
    case LastingLikeabilityScore => s.lastingLikeability
  }

  function LevelOf(l: AttractivenessLevels, f: LevelField): string
  {
    match f
    case ChanceLevel => l.chance
    case FirstImpressionLevel => l.firstImpression
    case LastingLikeabilityLevel => l.lastingLikeability
  }

  function TextOf(t: AttractivenessTexts, f: TextField): string
  {
    match f
    case ChanceText => t.chance
    case FirstImpressionText => t.firstImpression
    case LastingLikeabilityText => t.lastingLikeability
    case SummaryText => t.summary
  }

  /** `isValidScore`: the closed range 0..100. */
  predicate IsValidScore(score: real)
  {
    0.0 <= score <= 100.0
  }

  predicate ScoreOk(s: AttractivenessScores, f: ScoreField)
  {
    IsValidScore(ScoreOf(s, f))
  }

  predicate LevelOk(l: AttractivenessLevels, f: LevelField)
  {
    IsS10Level(LevelOf(l, f))
  }

  predicate TextOk(t: AttractivenessTexts, f: TextField)
  {
    !IsBlank(TextOf(t, f))
  }

  /** `validateScores`: passes when every score is valid, and otherwise names
      the first invalid one. */
  function ValidateScores(s: AttractivenessScores): (o: Outcome<ScoreField>)
    ensures o.Fail? ==> !ScoreOk(s, o.error)
                        && forall f :: ScoreIndex(f) < ScoreIndex(o.error) ==> ScoreOk(s, f)
    ensures o.Pass? <==> forall f :: ScoreOk(s, f)
  {
    if !IsValidScore(s.totalScore) then Fail(TotalScore)
    else if !IsValidScore(s.chance) then Fail(ChanceScore)
    else if !IsValidScore(s.firstImpression) then Fail(FirstImpressionScore)
    else if !IsValidScore(s.lastingLikeability) then Fail(LastingLikeabilityScore)
    else Pass
  }

  /** `validateLevels`: every level must be one of S1..S10. */
  function ValidateLevels(l: AttractivenessLevels): (o: Outcome<LevelField>)
    ensures o.Fail? ==> !LevelOk(l, o.error)
                        && forall f :: LevelIndex(f) < LevelIndex(o.error) ==> LevelOk(l, f)
    ensures o.Pass? <==> forall f :: LevelOk(l, f)
  {
    if !IsS10Level(l.chance) then Fail(ChanceLevel)
    else if !IsS10Level(l.firstImpression) then Fail(FirstImpressionLevel)
    else if !IsS10Level(l.lastingLikeability) then Fail(LastingLikeabilityLevel)
    else Pass
  }

  /** `validateTexts`: no text may be blank. */
  function ValidateTexts(t: AttractivenessTexts): (o: Outcome<TextField>)
    ensures o.Fail? ==> !TextOk(t, o.error)
                        && forall f :: TextIndex(f) < TextIndex(o.error) ==> TextOk(t, f)
    ensures o.Pass? <==> forall f :: TextOk(t, f)
  {
    if IsBlank(t.chance) then Fail(ChanceText)
    else if IsBlank(t.firstImpression) then Fail(FirstImpressionText)
    else if IsBlank(t.lastingLikeability) then Fail(LastingLikeabilityText)
    else if IsBlank(t.summary) then Fail(SummaryText)
    else Pass
  }

  /** Every field of the three groups is valid. */
  predicate Valid(scores: AttractivenessScores, levels: AttractivenessLevels,
                  texts: AttractivenessTexts)
  {
    && (forall f :: ScoreOk(scores, f))
    && (forall f :: LevelOk(levels, f))
    && (forall f :: TextOk(texts, f))
  }

  /** `createAttractiveness`: scores, then levels, then texts are checked;
      the first invalid field is the one rejected, and on success the three
      groups are returned as given. */
  function Create(scores: AttractivenessScores, levels: AttractivenessLevels,
                  texts: AttractivenessTexts): (r: Result<Attractiveness, AttractivenessError>)
    ensures r.Ok? <==> Valid(scores, levels, texts)
    ensures r.Ok? ==> r.value == Attractiveness(scores, levels, texts)
    ensures r.Err? && r.error.InvalidScore? ==>
              && !ScoreOk(scores, r.error.score)
              && forall f :: ScoreIndex(f) < ScoreIndex(r.error.score) ==> ScoreOk(scores, f)
    ensures r.Err? && r.error.InvalidLevel? ==>
              && (forall f :: ScoreOk(scores, f))
              && !LevelOk(levels, r.error.level)
              && forall f :: LevelIndex(f) < LevelIndex(r.error.level) ==> LevelOk(levels, f)
    ensures r.Err? && r.error.EmptyText? ==>
              && (forall f :: ScoreOk(scores, f))
              && (forall f :: LevelOk(levels, f))
              && !TextOk(texts, r.error.text)
              && forall f :: TextIndex(f) < TextIndex(r.error.text) ==> TextOk(texts, f)
  {
    match ValidateScores(scores)
    case Fail(f) => Err(InvalidScore(f))
    case Pass =>
      match ValidateLevels(levels)
      case Fail(f) => Err(InvalidLevel(f))
      case Pass =>
        match ValidateTexts(texts)
        case Fail(f) => Err(EmptyText(f))
        case Pass => Ok(Attractiveness(scores, levels, texts))
  }

  /** `getScoreLevel`: its own threshold chain, which is exactly `toS5`. */
  function GetScoreLevel(score: real): (level: string)
    ensures level == ToS5(score)
  {
    if score >= 80.0 then "S5"
    else if score >= 60.0 then "S4"
    else if score >= 40.0 then "S3"
    else if score >= 20.0 then "S2"
    else "S1"
  }

  /** A higher score never gets a lower level. */
  lemma GetScoreLevelMonotone(s1: real, s2: real)
    requires s1 >= s2
    ensures Rank(GetScoreLevel(s1)) >= Rank(GetScoreLevel(s2))
  {
    ToS5Monotone(s1, s2);
  }
}
