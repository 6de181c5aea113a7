/** The 16 love-type codes: four letters, one from each of the axes L/F,
    C/A, R/P and O/E. */
module LoveType {
  import opened Base

  /** The listed codes, in their declared order. */
  const LOVE_TYPES: seq<string> := [
    "LCRO", "LCRE", "LCPO", "LCPE", "LARO", "LARE", "LAPO", "LAPE",
    "FCRO", "FCRE", "FCPO", "FCPE", "FARO", "FARE", "FAPO", "FAPE"
  ]

  /** `isValidLoveType`: membership in the list, nothing else. */
  predicate IsValid(value: string)
  {
    value in LOVE_TYPES
  }

  /** The letters each position may hold. */
  predicate InAlphabets(value: string)
  {
    && |value| == 4
    && (value[0] == 'L' || value[0] == 'F')
    && (value[1] == 'C' || value[1] == 'A')
    && (value[2] == 'R' || value[2] == 'P')
    && (value[3] == 'O' || value[3] == 'E')
  }

  /** The list is exactly the set of four-letter words over the axis
      alphabets: it misses none of the 16 combinations and holds nothing else. */
  lemma ValidIffInAlphabets(value: string)
    ensures IsValid(value) <==> InAlphabets(value)
  {
    if InAlphabets(value) {
      assert value == [value[0], value[1], value[2], value[3]];
    }
  }

  /** The 16 listed codes are pairwise distinct. */
  lemma ListedDistinct()
    ensures |LOVE_TYPES| == 16
    ensures forall i, j :: 0 <= i < j < |LOVE_TYPES| ==> LOVE_TYPES[i] != LOVE_TYPES[j]
  {
  }

  datatype LoveTypeError = InvalidLoveType(value: string)

  /** `parseLoveType`: trims and upper-cases, then accepts only a listed code. */
  function Parse(value: string): (r: Result<string, LoveTypeError>)
    ensures r.Ok? <==> IsValid(Upper(Trim(value)))
    ensures r.Ok? ==> IsValid(r.value) && r.value == Upper(Trim(value))
    ensures r.Err? ==> r.error == InvalidLoveType(value)
  {
    var normalized := Upper(Trim(value));
    if IsValid(normalized) then Ok(normalized) else Err(InvalidLoveType(value))
  }

  /** A listed code is its own normal form. */
  lemma NormalizeListed(code: string)
    requires IsValid(code)
    ensures Upper(Trim(code)) == code
  {
    ValidIffInAlphabets(code);
    NormalizeShape(code);
  }

  lemma NormalizeShape(code: string)
    requires InAlphabets(code)
    ensures Upper(Trim(code)) == code
  {
    ShapeChars(code);
    NormalizeUnchanged(code);
  }

  lemma ShapeChars(code: string)
    requires InAlphabets(code)
    ensures !IsSpace(code[0]) && !IsSpace(code[3]) && HasNoLowerCase(code)
  {
  }

  /** Parsing accepts every listed code unchanged ... */
  lemma ParseListed(code: string)
    requires IsValid(code)
    ensures Parse(code) == Ok(code)
  {
    NormalizeListed(code);
  }

  /** ... and is idempotent on its own results. */
  lemma ParseIdempotent(value: string)
    requires Parse(value).Ok?
    ensures Parse(Parse(value).value) == Parse(value)
  {
    ParseListed(Parse(value).value);
  }

  /** Lower case is forgiven ... */
  lemma ParseLowerCase()
    ensures Parse("fare") == Ok("FARE")
  {
    LowerExample();
    ValidIffInAlphabets("FARE");
  }

  /** ... inner white space is not. */
  lemma ParseInnerSpace()
    ensures Parse("FA RE").Err?
  {
    NormalizeUnchanged("FA RE");
    ValidIffInAlphabets("FA RE");
  }

  lemma LowerExample()
    ensures Upper(Trim("fare")) == "FARE"
  {
    TrimUnchanged("fare");
    assert Upper("fare") == "FARE";
  }

  datatype LoveAxes = LoveAxes(axis1: char, axis2: char, axis3: char, axis4: char)

  /** `getLoveTypeAxes`: the four letters of a listed code. */
  function GetAxes(loveType: string): (r: LoveAxes)
    requires IsValid(loveType)
    ensures [r.axis1, r.axis2, r.axis3, r.axis4] == loveType
    ensures r.axis1 in "LF" && r.axis2 in "CA" && r.axis3 in "RP" && r.axis4 in "OE"
  {
    ValidIffInAlphabets(loveType);
    LoveAxes(loveType[0], loveType[1], loveType[2], loveType[3])
  }
}
