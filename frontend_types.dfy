/** The form-side types: the two code lists the selectors offer, the
    profile being entered, and the type guard that accepts a filled-in
    profile. */
module FrontendTypes {
  import opened Base
  import MbtiType
  import LoveType

  /** The personality codes offered by the form, in their declared order. */
  const MBTI_TYPES: seq<string> := [
    "ENFJ", "ENFP", "ENTJ", "ENTP", "ESFJ", "ESFP", "ESTJ", "ESTP",
    "INFJ", "INFP", "INTJ", "INTP", "ISFJ", "ISFP", "ISTJ", "ISTP"
  ]

  /** The love codes offered by the form, in their declared order. */
  const LOVE_TYPES: seq<string> := [
    "LCRO", "LCRE", "LCPO", "LCPE", "LARO", "LARE", "LAPO", "LAPE",
    "FCRO", "FCRE", "FCPO", "FCPE", "FARO", "FARE", "FAPO", "FAPE"
  ]

  /** Each list holds 16 different codes, and they are the codes the backend
      accepts, in the same order. */
  lemma ListsMatchBackend()
    ensures |MBTI_TYPES| == 16 && |LOVE_TYPES| == 16
    ensures forall i, j :: 0 <= i < j < 16 ==> MBTI_TYPES[i] != MBTI_TYPES[j]
    ensures forall i, j :: 0 <= i < j < 16 ==> LOVE_TYPES[i] != LOVE_TYPES[j]
    ensures MBTI_TYPES == MbtiType.MBTI_TYPES && LOVE_TYPES == LoveType.LOVE_TYPES
  {
    MbtiType.ListedDistinct();
    LoveType.ListedDistinct();
  }

  /** The profile as entered: the codes may still be empty, and nothing
      stops other strings from reaching the fields at run time. */
  datatype UserProfileInput = UserProfileInput(nickname: string, mbti: string, loveType: string)

  /** `isValidUserProfile`: a nickname that is not only white space, and
      both codes chosen. */
  function IsValidUserProfile(input: UserProfileInput): (ok: bool)
    ensures ok <==> !IsBlank(input.nickname) && input.mbti != "" && input.loveType != ""
  {
    BlankIffTrimEmpty(input.nickname);
    Trim(input.nickname) != "" && input.mbti != "" && input.loveType != ""
  }

  /** The guard only asks for non-empty codes: an unlisted code passes. */
  lemma GuardIgnoresLists()
    ensures var input := UserProfileInput("Aki", "ABCD", "WXYZ");
      IsValidUserProfile(input) && input.mbti !in MBTI_TYPES && input.loveType !in LOVE_TYPES
  {
    assert !IsSpace('A');
    ListsMatchBackend();
    MbtiType.ValidIffInAlphabets("ABCD");
    LoveType.ValidIffInAlphabets("WXYZ");
  }
}
