/** The compatibility value object: matches with a partner type, and the list
    of best matches with its summary. */
module Compatibility {
  import opened Base
  import opened ScoreBuckets
  import opened CompatibilityCalculator

  datatype CompatibilityPartner = CompatibilityPartner(mbti: string, loveType: string)

  datatype CompatibilityMatch = CompatibilityMatch(
    partner: CompatibilityPartner, score: real, level: string,
    relationFlavor: RelationFlavor, description: string)

  datatype Compatibility = Compatibility(bestMatches: seq<CompatibilityMatch>, summary: string)

  /** What a match is rejected for, in the order the checks run. */
  datatype MatchError = InvalidMbti | InvalidLoveType | InvalidScore | InvalidLevel | EmptyDescription

  /** What `createCompatibility` rejects: an empty list, the first invalid
      match (by index, with its own error), or a blank summary. */
  datatype CompatibilityError = NoMatches | InvalidMatch(index: nat, cause: MatchError) | EmptySummary

  /** A match every validator accepts: partner codes of length four (their
      letters are not looked at), a score in 0..100, a level in S1..S10 and a
      description that is not blank. */
  predicate MatchOk(m: CompatibilityMatch)
  {
    && |m.partner.mbti| == 4 && |m.partner.loveType| == 4
    && 0.0 <= m.score <= 100.0
    && IsS10Level(m.level)
    && !IsBlank(m.description)
  }

  /** `validatePartner`, `validateScore`, `validateLevel` and
      `validateDescription` in turn; the first that throws decides the error. */
  function ValidateMatch(m: CompatibilityMatch): (o: Outcome<MatchError>)
    ensures o.Pass? <==> MatchOk(m)
    ensures o == Fail(InvalidMbti) <==> |m.partner.mbti| != 4
    ensures o == Fail(InvalidLoveType) <==> |m.partner.mbti| == 4 && |m.partner.loveType| != 4
    ensures o == Fail(InvalidScore) <==>
              |m.partner.mbti| == 4 && |m.partner.loveType| == 4 && !(0.0 <= m.score <= 100.0)
    ensures o == Fail(InvalidLevel) <==>
              |m.partner.mbti| == 4 && |m.partner.loveType| == 4 && 0.0 <= m.score <= 100.0
              && !IsS10Level(m.level)
  {
    if |m.partner.mbti| != 4 then Fail(InvalidMbti)
    else if |m.partner.loveType| != 4 then Fail(InvalidLoveType)
    else if m.score < 0.0 || m.score > 100.0 then Fail(InvalidScore)
    else if !IsS10Level(m.level) then Fail(InvalidLevel)
    else if IsBlank(m.description) then Fail(EmptyDescription)
    else Pass
  }

  /** `createCompatibilityMatch`: the given fields, once every check passes. */
  function CreateMatch(partner: CompatibilityPartner, score: real, level: string,
                       relationFlavor: RelationFlavor, description: string)
    : (r: Result<CompatibilityMatch, MatchError>)
    ensures r.Ok? <==> MatchOk(CompatibilityMatch(partner, score, level, relationFlavor, description))
    ensures r.Ok? ==> r.value == CompatibilityMatch(partner, score, level, relationFlavor, description)
    ensures r.Err? ==> ValidateMatch(CompatibilityMatch(partner, score, level, relationFlavor, description))
                       == Fail(r.error)
  {
    var m := CompatibilityMatch(partner, score, level, relationFlavor, description);
    match ValidateMatch(m)
    case Fail(e) => Err(e)
    case Pass => Ok(m)
  }

  /** The checks of `validateBestMatches` from position `from` on: the first
      invalid match, with its index and its error. */
  function FirstInvalidMatch(ms: seq<CompatibilityMatch>, from: nat): (r: Outcome<(nat, MatchError)>)
    requires from <= |ms|
    ensures r.Pass? <==> forall j :: from <= j < |ms| ==> MatchOk(ms[j])
    ensures r.Fail? ==> && from <= r.error.0 < |ms|
                        && ValidateMatch(ms[r.error.0]) == Fail(r.error.1)
                        && forall j :: from <= j < r.error.0 ==> MatchOk(ms[j])
    decreases |ms| - from
  {
    if from == |ms| then Pass
    else match ValidateMatch(ms[from])
      case Fail(e) => Fail((from, e))
      case Pass => FirstInvalidMatch(ms, from + 1)
  }

  /** `createCompatibility`: a non-empty list of valid matches and a summary
      that is not blank, returned as given. */
  function Create(bestMatches: seq<CompatibilityMatch>, summary: string)
    : (r: Result<Compatibility, CompatibilityError>)
    ensures r.Ok? <==> && |bestMatches| > 0
                       && (forall i :: 0 <= i < |bestMatches| ==> MatchOk(bestMatches[i]))
                       && !IsBlank(summary)
    ensures r.Ok? ==> r.value == Compatibility(bestMatches, summary)
    ensures r == Err(NoMatches) <==> |bestMatches| == 0
    ensures r.Err? && r.error.InvalidMatch? ==>
              && r.error.index < |bestMatches|
              && ValidateMatch(bestMatches[r.error.index]) == Fail(r.error.cause)
              && forall j :: 0 <= j < r.error.index ==> MatchOk(bestMatches[j])
    ensures r == Err(EmptySummary) ==> IsBlank(summary)
  {
    if |bestMatches| == 0 then Err(NoMatches)
    else match FirstInvalidMatch(bestMatches, 0)
      case Fail((i, e)) => Err(InvalidMatch(i, e))
      case Pass => if IsBlank(summary) then Err(EmptySummary) else Ok(Compatibility(bestMatches, summary))
  }

  /** `getRelationFlavorLabel`. */
  function RelationFlavorLabel(flavor: RelationFlavor): (name: string)
    ensures |name| > 0
  {
    match flavor
    case Soulmate => "ソウルメイト型"
    case Partner => "パートナー型"
    case Hybrid => "ハイブリッド型"
    case Magnet => "マグネット型"
  }

  /** Each flavour has its own label. */
  lemma RelationFlavorLabelInjective(a: RelationFlavor, b: RelationFlavor)
    requires a != b
    ensures RelationFlavorLabel(a) != RelationFlavorLabel(b)
  {
  }
}
