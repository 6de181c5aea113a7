/** The 16 personality codes: four letters, one from each of the axes E/I,
    N/S, T/F and J/P. */
module MbtiType {
  import opened Base

  /** The listed codes, in their declared order. */
  const MBTI_TYPES: seq<string> := [
    "ENFJ", "ENFP", "ENTJ", "ENTP", "ESFJ", "ESFP", "ESTJ", "ESTP",
    "INFJ", "INFP", "INTJ", "INTP", "ISFJ", "ISFP", "ISTJ", "ISTP"
  ]

  /** `isValidMBTIType`: membership in the list, nothing else. */
  predicate IsValid(value: string)
  {
    value in MBTI_TYPES
  }

  /** The letters each position may hold. */
  predicate InAlphabets(value: string)
  {
    && |value| == 4
    && (value[0] == 'E' || value[0] == 'I')
    && (value[1] == 'N' || value[1] == 'S')
    && (value[2] == 'T' || value[2] == 'F')
    && (value[3] == 'J' || value[3] == 'P')
  }

  /** The list is exactly the set of four-letter words over the axis
      alphabets: it misses none of the 16 combinations and holds nothing else. */
  lemma ValidIffInAlphabets(value: string)
    ensures IsValid(value) <==> InAlphabets(value)
  {
    if InAlphabets(value) {
      assert value == [value[0], value[1], value[2], value[3]];
    }
  }

  /** The 16 listed codes are pairwise distinct. */
  lemma ListedDistinct()
    ensures |MBTI_TYPES| == 16
    ensures forall i, j :: 0 <= i < j < |MBTI_TYPES| ==> MBTI_TYPES[i] != MBTI_TYPES[j]
  {
  }

  datatype MbtiError = InvalidMbtiType(value: string)

  /** `parseMBTIType`: trims and upper-cases, then accepts only a listed code. */
  function Parse(value: string): (r: Result<string, MbtiError>)
    ensures r.Ok? <==> IsValid(Upper(Trim(value)))
    ensures r.Ok? ==> IsValid(r.value) && r.value == Upper(Trim(value))
    ensures r.Err? ==> r.error == InvalidMbtiType(value)
  {
    var normalized := Upper(Trim(value));
    if IsValid(normalized) then Ok(normalized) else Err(InvalidMbtiType(value))
  }

  /** A listed code is its own normal form. */
  lemma NormalizeListed(code: string)
    requires IsValid(code)
    ensures Upper(Trim(code)) == code
  {
    ValidIffInAlphabets(code);
    NormalizeShape(code);
  }

  lemma NormalizeShape(code: string)
    requires InAlphabets(code)
    ensures Upper(Trim(code)) == code
  {
    ShapeChars(code);
    NormalizeUnchanged(code);
  }

  lemma ShapeChars(code: string)
    requires InAlphabets(code)
    ensures !IsSpace(code[0]) && !IsSpace(code[3]) && HasNoLowerCase(code)
  {
  }

  /** Parsing accepts every listed code unchanged ... */
  lemma ParseListed(code: string)
    requires IsValid(code)
    ensures Parse(code) == Ok(code)
  {
    NormalizeListed(code);
  }

  /** ... and is idempotent on its own results. */
  lemma ParseIdempotent(value: string)
    requires Parse(value).Ok?
    ensures Parse(Parse(value).value) == Parse(value)
  {
    ParseListed(Parse(value).value);
  }

  /** Lower case is forgiven ... */
  lemma ParseLowerCase()
    ensures Parse("enfj") == Ok("ENFJ")
  {
    LowerExample();
    ValidIffInAlphabets("ENFJ");
  }

  /** ... inner white space is not. */
  lemma ParseInnerSpace()
    ensures Parse("EN FJ").Err?
  {
    NormalizeUnchanged("EN FJ");
    ValidIffInAlphabets("EN FJ");
  }

  lemma LowerExample()
    ensures Upper(Trim("enfj")) == "ENFJ"
  {
    TrimUnchanged("enfj");
    assert Upper("enfj") == "ENFJ";
  }

  datatype MbtiAxes = MbtiAxes(axis1: char, axis2: char, axis3: char, axis4: char)

  /** `getMBTIAxes`: the four letters of a listed code. */
  function GetAxes(mbti: string): (r: MbtiAxes)
    requires IsValid(mbti)
    ensures [r.axis1, r.axis2, r.axis3, r.axis4] == mbti
    ensures r.axis1 in "EI" && r.axis2 in "NS" && r.axis3 in "TF" && r.axis4 in "JP"
  {
    ValidIffInAlphabets(mbti);
    MbtiAxes(mbti[0], mbti[1], mbti[2], mbti[3])
  }
}
