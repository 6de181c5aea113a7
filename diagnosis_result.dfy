/** The diagnosis result aggregate: the two codes and the five results. */
module DiagnosisResult {
  import opened Base
  import A = Attractiveness
  import P = PersonalityAxis
  import C = Compatibility
  import LL = LoveLanguage
  import LA = LifeAllocation

  /** The results record. Any part may be missing at run time; the declared
      interface lists only the first two, and the use case fills all five. */
  datatype DiagnosisResults = DiagnosisResults(
    attractiveness: Option<A.Attractiveness>,
    personalityAxis: Option<P.PersonalityAxis>,
    compatibility: Option<C.Compatibility>,
    loveLanguage: Option<LL.LoveLanguage>,
    lifeAllocation: Option<LA.LifeAllocation>)

  datatype DiagnosisResult = DiagnosisResult(mbti: string, loveType: string, results: Option<DiagnosisResults>)

  /** What `validateDiagnosisResult` rejects, in the order it checks. */
  datatype ResultError = InvalidMbti | InvalidLoveType | MissingResults | MissingAttractiveness
                       | MissingPersonalityAxis

  /** `createDiagnosisResult`: the arguments, unchanged. */
  function Create(mbti: string, loveType: string, results: DiagnosisResults): (r: DiagnosisResult)
    ensures r.mbti == mbti && r.loveType == loveType && r.results == Some(results)
  {
    DiagnosisResult(mbti, loveType, Some(results))
  }

  /** Everything `validateDiagnosisResult` accepts: codes of four
      characters, and results with an attractiveness and a personality axis. */
  predicate Valid(result: DiagnosisResult)
  {
    && |result.mbti| == 4 && |result.loveType| == 4
    && result.results.Some?
    && result.results.value.attractiveness.Some?
    && result.results.value.personalityAxis.Some?
  }

  /** `validateDiagnosisResult`: the first failing check decides the error.
      An empty code fails the length check as well. */
  function Validate(result: DiagnosisResult): (o: Outcome<ResultError>)
    ensures o.Pass? <==> Valid(result)
    ensures o == Fail(InvalidMbti) <==> |result.mbti| != 4
    ensures o == Fail(InvalidLoveType) <==> |result.mbti| == 4 && |result.loveType| != 4
    ensures o == Fail(MissingResults) <==>
              |result.mbti| == 4 && |result.loveType| == 4 && result.results.None?
    ensures o == Fail(MissingAttractiveness) <==>
              && |result.mbti| == 4 && |result.loveType| == 4 && result.results.Some?
              && result.results.value.attractiveness.None?
    ensures o == Fail(MissingPersonalityAxis) <==>
              && |result.mbti| == 4 && |result.loveType| == 4 && result.results.Some?
              && result.results.value.attractiveness.Some?
              && result.results.value.personalityAxis.None?
  {
    if |result.mbti| == 0 || |result.mbti| != 4 then Fail(InvalidMbti)
    else if |result.loveType| == 0 || |result.loveType| != 4 then Fail(InvalidLoveType)
    else if result.results.None? then Fail(MissingResults)
    else if result.results.value.attractiveness.None? then Fail(MissingAttractiveness)
    else if result.results.value.personalityAxis.None? then Fail(MissingPersonalityAxis)
    else Pass
  }

  /** Validation never looks at the compatibility, love language or life
      allocation results, nor at the letters of the codes. */
  lemma ValidateIgnoresOtherResults(result: DiagnosisResult, other: DiagnosisResult)
    requires |other.mbti| == |result.mbti| && |other.loveType| == |result.loveType|
    requires other.results.Some? <==> result.results.Some?
    requires result.results.Some? ==>
      && other.results.value.attractiveness.Some? == result.results.value.attractiveness.Some?
      && other.results.value.personalityAxis.Some? == result.results.value.personalityAxis.Some?
    ensures Validate(other) == Validate(result)
  {
  }

  /** A created result with both required parts passes validation exactly
      when both codes have four characters. */
  lemma CreatedValid(mbti: string, loveType: string, results: DiagnosisResults)
    requires results.attractiveness.Some? && results.personalityAxis.Some?
    ensures Validate(Create(mbti, loveType, results)).Pass? <==> |mbti| == 4 && |loveType| == 4
  {
  }
}
