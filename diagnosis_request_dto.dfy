/** The request body check: an object whose `mbti` and `loveType` are
    strings of four characters. */
module DiagnosisRequestDto {
  import opened Base

  /** A decoded JSON-like request body. */
  datatype Value =
    | Undefined
    | Null
    | Bool(b: bool)
    | Number(n: real)
    | Str(s: string)
    | Array(elements: seq<Value>)
    | Object(fields: map<string, Value>)

  datatype DiagnosisRequest = DiagnosisRequest(mbti: string, loveType: string)

  /** What `validateDiagnosisRequest` rejects, in the order it checks. */
  datatype RequestError = NotAnObject | MbtiNotString | MbtiNotFourChars
                        | LoveTypeNotString | LoveTypeNotFourChars

  /** `typeof data === "object" && data !== null`: arrays count as objects. */
  predicate IsObject(v: Value)
  {
    v.Object? || v.Array?
  }

  /** Reading a property: an object's own field, and `undefined` otherwise
      (an array has no `mbti` or `loveType` property). */
  function Get(v: Value, name: string): Value
  {
    if v.Object? && name in v.fields then v.fields[name] else Undefined
  }

  /** Every check `validateDiagnosisRequest` makes passes. */
  predicate Accepted(v: Value)
  {
    && IsObject(v)
    && Get(v, "mbti").Str? && |Get(v, "mbti").s| == 4
    && Get(v, "loveType").Str? && |Get(v, "loveType").s| == 4
  }

  /** `validateDiagnosisRequest`: the first failing check decides the error;
      otherwise the body is a request, with the letters left unchecked. */
  function Validate(data: Value): (r: Result<DiagnosisRequest, RequestError>)
    ensures r.Ok? <==> Accepted(data)
    ensures r.Ok? ==> r.value == DiagnosisRequest(Get(data, "mbti").s, Get(data, "loveType").s)
    ensures r == Err(NotAnObject) <==> !IsObject(data)
    ensures r == Err(MbtiNotString) <==> IsObject(data) && !Get(data, "mbti").Str?
    ensures r == Err(MbtiNotFourChars) <==>
              IsObject(data) && Get(data, "mbti").Str? && |Get(data, "mbti").s| != 4
    ensures r == Err(LoveTypeNotString) <==>
              && IsObject(data) && Get(data, "mbti").Str? && |Get(data, "mbti").s| == 4
              && !Get(data, "loveType").Str?
    ensures r == Err(LoveTypeNotFourChars) <==>
              && IsObject(data) && Get(data, "mbti").Str? && |Get(data, "mbti").s| == 4
              && Get(data, "loveType").Str? && |Get(data, "loveType").s| != 4
  {
    if !IsObject(data) then Err(NotAnObject)
    else
      var mbti := Get(data, "mbti");
      if !mbti.Str? then Err(MbtiNotString)
      else if |mbti.s| != 4 then Err(MbtiNotFourChars)
      else
        var loveType := Get(data, "loveType");
        if !loveType.Str? then Err(LoveTypeNotString)
        else if |loveType.s| != 4 then Err(LoveTypeNotFourChars)
        else Ok(DiagnosisRequest(mbti.s, loveType.s))
  }

  /** The letters are not checked: any four characters pass. */
  lemma AnyFourLettersAccepted(m: string, l: string, extra: map<string, Value>)
    requires |m| == 4 && |l| == 4
    ensures Validate(Object(extra["mbti" := Str(m)]["loveType" := Str(l)])) == Ok(DiagnosisRequest(m, l))
  {
    var data := Object(extra["mbti" := Str(m)]["loveType" := Str(l)]);
    assert Get(data, "mbti") == Str(m);
  }

  /** An array is an object for the first check, then fails on `mbti`. */
  lemma ArrayRejectedOnMbti(elements: seq<Value>)
    ensures Validate(Array(elements)) == Err(MbtiNotString)
  {
  }
}
