/** The profile form's validator: at most one error per field, collected in
    the order nickname, personality code, love code, and the lookup of the
    first error of a field. */
module FrontendValidation {
  import opened Base
  import opened FrontendTypes

  datatype Field = NicknameField | MbtiField | LoveTypeField

  /** The position of a field in the order the checks run. */
  function FieldRank(f: Field): nat
  {
    match f
    case NicknameField => 0
    case MbtiField => 1
    case LoveTypeField => 2
  }

  /** The messages, one per failed check; the wording is not modelled. */
  datatype Message =
    | NicknameRequired | NicknameTooLong | NicknameTooShort
    | MbtiRequired | MbtiNotListed
    | LoveTypeRequired | LoveTypeNotListed

  datatype ValidationError = ValidationError(field: Field, message: Message)

  datatype ValidationResult = ValidationResult(isValid: bool, errors: seq<ValidationError>)

  /** The longest nickname accepted, after trimming. */
  const MAX_NICKNAME: nat := 10

  /** The nickname check: missing or blank, then longer than ten characters
      once trimmed, then shorter than one. */
  function NicknameErrors(nickname: string): seq<ValidationError>
  {
    if nickname == "" || Trim(nickname) == "" then [ValidationError(NicknameField, NicknameRequired)]
    else if |Trim(nickname)| > MAX_NICKNAME then [ValidationError(NicknameField, NicknameTooLong)]
    else if |Trim(nickname)| < 1 then [ValidationError(NicknameField, NicknameTooShort)]
    else []
  }

  /** A code check: empty, then not in the list. */
  function CodeErrors(code: string, listed: seq<string>, field: Field, required: Message, notListed: Message)
    : seq<ValidationError>
  {
    if code == "" then [ValidationError(field, required)]
    else if code !in listed then [ValidationError(field, notListed)]
    else []
  }

  /** The errors collected field by field, the codes looked up in the given
      lists. */
  function ErrorsWith(input: UserProfileInput, mbtiTypes: seq<string>, loveTypes: seq<string>)
    : seq<ValidationError>
  {
    NicknameErrors(input.nickname)
    + CodeErrors(input.mbti, mbtiTypes, MbtiField, MbtiRequired, MbtiNotListed)
    + CodeErrors(input.loveType, loveTypes, LoveTypeField, LoveTypeRequired, LoveTypeNotListed)
  }

  /** The errors the validator collects, with the form's two code lists. */
  function Errors(input: UserProfileInput): seq<ValidationError>
  {
    ErrorsWith(input, MBTI_TYPES, LOVE_TYPES)
  }

  /** `validateUserProfile`: the checks run in order, each pushing its error
      onto the list; the profile is valid when the list stays empty. */
  method ValidateUserProfile(input: UserProfileInput) returns (r: ValidationResult)
    ensures r.errors == Errors(input)
    ensures r.isValid <==> r.errors == []
  {
    var errors: seq<ValidationError> := [];
    errors := CheckNickname(errors, input.nickname);
    errors := CheckCode(errors, input.mbti, MBTI_TYPES, MbtiField, MbtiRequired, MbtiNotListed);
    errors := CheckCode(errors, input.loveType, LOVE_TYPES, LoveTypeField, LoveTypeRequired, LoveTypeNotListed);
    r := ValidationResult(|errors| == 0, errors);
  }

  /** The nickname step: push at most one nickname error. */
  method CheckNickname(errors: seq<ValidationError>, nickname: string) returns (pushed: seq<ValidationError>)
    ensures pushed == errors + NicknameErrors(nickname)
  {
    pushed := errors;
    var trimmed := Trim(nickname);
    if nickname == "" || trimmed == "" {
      pushed := pushed + [ValidationError(NicknameField, NicknameRequired)];
    } else if |trimmed| > MAX_NICKNAME {
      pushed := pushed + [ValidationError(NicknameField, NicknameTooLong)];
    } else if |trimmed| < 1 {
      pushed := pushed + [ValidationError(NicknameField, NicknameTooShort)];
    }
  }

  /** A code step (the personality code, then the love code): push at most
      one error for that field. */
  method CheckCode(errors: seq<ValidationError>, code: string, listed: seq<string>, field: Field,
                   required: Message, notListed: Message)
    returns (pushed: seq<ValidationError>)
    ensures pushed == errors + CodeErrors(code, listed, field, required, notListed)
  {
    pushed := errors;
    if code == "" {
      pushed := pushed + [ValidationError(field, required)];
    } else if code !in listed {
      pushed := pushed + [ValidationError(field, notListed)];
    }
  }

  /** Whether some error concerns field `f`. */
  predicate HasError(errors: seq<ValidationError>, f: Field)
  {
    exists i :: 0 <= i < |errors| && errors[i].field == f
  }

  /** The nickname check adds at most one error, about the nickname and
      never "too short", and adds one exactly when the nickname is blank or
      longer than ten characters once trimmed. */
  lemma NicknameCheckFires(nickname: string)
    ensures var a := NicknameErrors(nickname);
      && |a| <= 1
      && (forall i :: 0 <= i < |a| ==> a[i].field == NicknameField && a[i].message != NicknameTooShort)
      && (a != [] <==> IsBlank(nickname) || |Trim(nickname)| > MAX_NICKNAME)
  {
    BlankIffTrimEmpty(nickname);
  }

  /** A code check adds at most one error, about its own field and with one
      of its two messages, and adds one exactly when the code is empty or not
      listed. */
  lemma CodeCheckFires(code: string, listed: seq<string>, field: Field, required: Message, notListed: Message)
    ensures var b := CodeErrors(code, listed, field, required, notListed);
      && |b| <= 1
      && (forall i :: 0 <= i < |b| ==> b[i].field == field && (b[i].message == required || b[i].message == notListed))
      && (b != [] <==> code == "" || code !in listed)
  {
  }

  /** The facts about the three parts that the lemmas below need. */
  predicate PartsShaped(a: seq<ValidationError>, b: seq<ValidationError>, c: seq<ValidationError>)
  {
    && |a| <= 1 && |b| <= 1 && |c| <= 1
    && (forall i :: 0 <= i < |a| ==> a[i].field == NicknameField && a[i].message != NicknameTooShort)
    && (forall i :: 0 <= i < |b| ==> b[i].field == MbtiField && b[i].message != NicknameTooShort)
    && (forall i :: 0 <= i < |c| ==> c[i].field == LoveTypeField && c[i].message != NicknameTooShort)
  }

  /** The error list is the three parts one after the other, and they have
      the shape above. */
  lemma ErrorsAsParts(input: UserProfileInput, mbtiTypes: seq<string>, loveTypes: seq<string>)
    returns (a: seq<ValidationError>, b: seq<ValidationError>, c: seq<ValidationError>)
    ensures ErrorsWith(input, mbtiTypes, loveTypes) == a + b + c && PartsShaped(a, b, c)
    ensures a != [] <==> IsBlank(input.nickname) || |Trim(input.nickname)| > MAX_NICKNAME
    ensures b == CodeErrors(input.mbti, mbtiTypes, MbtiField, MbtiRequired, MbtiNotListed)
    ensures b != [] <==> input.mbti == "" || input.mbti !in mbtiTypes
    ensures c != [] <==> input.loveType == "" || input.loveType !in loveTypes
  {
    a := NicknameErrors(input.nickname);
    b := CodeErrors(input.mbti, mbtiTypes, MbtiField, MbtiRequired, MbtiNotListed);
    c := CodeErrors(input.loveType, loveTypes, LoveTypeField, LoveTypeRequired, LoveTypeNotListed);
    NicknameCheckFires(input.nickname);
    CodeCheckFires(input.mbti, mbtiTypes, MbtiField, MbtiRequired, MbtiNotListed);
    CodeCheckFires(input.loveType, loveTypes, LoveTypeField, LoveTypeRequired, LoveTypeNotListed);
    ShapedOfChecks(a, b, c);
  }

  lemma ShapedOfChecks(a: seq<ValidationError>, b: seq<ValidationError>, c: seq<ValidationError>)
    requires |a| <= 1 && forall i :: 0 <= i < |a| ==> a[i].field == NicknameField && a[i].message != NicknameTooShort
    requires |b| <= 1
    requires forall i :: 0 <= i < |b| ==>
      b[i].field == MbtiField && (b[i].message == MbtiRequired || b[i].message == MbtiNotListed)
    requires |c| <= 1
    requires forall i :: 0 <= i < |c| ==>
      c[i].field == LoveTypeField && (c[i].message == LoveTypeRequired || c[i].message == LoveTypeNotListed)
    ensures PartsShaped(a, b, c)
  {
  }

  /** In shaped parts, each position of the whole list belongs to the part
      it falls in. */
  lemma {:induction false} FieldAt(a: seq<ValidationError>, b: seq<ValidationError>, c: seq<ValidationError>, i: int)
    requires PartsShaped(a, b, c) && 0 <= i < |a + b + c|
    ensures (a + b + c)[i].field == (if i < |a| then NicknameField else if i < |a| + |b| then MbtiField
                                     else LoveTypeField)
    ensures (a + b + c)[i].message != NicknameTooShort
  {
    var errors := a + b + c;
    if i < |a| {
      assert errors[i] == a[i];
    } else if i < |a| + |b| {
      assert errors[i] == b[i - |a|];
    } else {
      assert errors[i] == c[i - |a| - |b|];
    }
  }

  /** The errors name each field at most once, in the order nickname,
      personality code, love code. */
  lemma ErrorsInFieldOrder(input: UserProfileInput, mbtiTypes: seq<string>, loveTypes: seq<string>)
    ensures var errors := ErrorsWith(input, mbtiTypes, loveTypes);
      forall i, j :: 0 <= i < j < |errors| ==> FieldRank(errors[i].field) < FieldRank(errors[j].field)
  {
    var a, b, c := ErrorsAsParts(input, mbtiTypes, loveTypes);
    var errors := a + b + c;
    forall i, j | 0 <= i < j < |errors|
      ensures FieldRank(errors[i].field) < FieldRank(errors[j].field)
    {
      FieldAt(a, b, c, i);
      FieldAt(a, b, c, j);
    }
  }

  /** Which fields shaped parts name. */
  lemma {:induction false} FieldsOfParts(a: seq<ValidationError>, b: seq<ValidationError>, c: seq<ValidationError>)
    requires PartsShaped(a, b, c)
    ensures HasError(a + b + c, NicknameField) <==> a != []
    ensures HasError(a + b + c, MbtiField) <==> b != []
    ensures HasError(a + b + c, LoveTypeField) <==> c != []
  {
    var errors := a + b + c;
    if a != [] {
      assert errors[0] == a[0];
    }
    if b != [] {
      assert errors[|a|] == b[0];
    }
    if c != [] {
      assert errors[|a| + |b|] == c[0];
    }
    forall i | 0 <= i < |errors|
      ensures errors[i].field == (if i < |a| then NicknameField else if i < |a| + |b| then MbtiField
                                  else LoveTypeField)
    {
      FieldAt(a, b, c, i);
    }
  }

  /** There is a nickname error exactly when the nickname is blank or longer
      than ten characters once trimmed. */
  lemma NicknameErrorIff(input: UserProfileInput, mbtiTypes: seq<string>, loveTypes: seq<string>)
    ensures HasError(ErrorsWith(input, mbtiTypes, loveTypes), NicknameField)
        <==> IsBlank(input.nickname) || |Trim(input.nickname)| > MAX_NICKNAME
  {
    var a, b, c := ErrorsAsParts(input, mbtiTypes, loveTypes);
    FieldsOfParts(a, b, c);
  }

  /** The "shorter than one" branch never fires: a trimmed nickname that is
      not empty has a character. */
  lemma NeverTooShort(input: UserProfileInput, mbtiTypes: seq<string>, loveTypes: seq<string>)
    ensures var errors := ErrorsWith(input, mbtiTypes, loveTypes);
      forall i :: 0 <= i < |errors| ==> errors[i].message != NicknameTooShort
  {
    var a, b, c := ErrorsAsParts(input, mbtiTypes, loveTypes);
    forall i | 0 <= i < |a + b + c|
      ensures (a + b + c)[i].message != NicknameTooShort
    {
      FieldAt(a, b, c, i);
    }
  }

  /** There is a personality code error exactly when the code is empty or
      not listed, and a love code error exactly when that code is empty or
      not listed. */
  lemma CodeErrorsIff(input: UserProfileInput, mbtiTypes: seq<string>, loveTypes: seq<string>)
    ensures HasError(ErrorsWith(input, mbtiTypes, loveTypes), MbtiField)
        <==> input.mbti == "" || input.mbti !in mbtiTypes
    ensures HasError(ErrorsWith(input, mbtiTypes, loveTypes), LoveTypeField)
        <==> input.loveType == "" || input.loveType !in loveTypes
  {
    var a, b, c := ErrorsAsParts(input, mbtiTypes, loveTypes);
    FieldsOfParts(a, b, c);
  }

  /** A profile the validator accepts also passes the type guard. The guard
      is weaker: it accepts unlisted codes and long nicknames. */
  lemma ValidPassesGuard(input: UserProfileInput, mbtiTypes: seq<string>, loveTypes: seq<string>)
    ensures ErrorsWith(input, mbtiTypes, loveTypes) == [] ==> IsValidUserProfile(input)
    ensures var long := UserProfileInput("abcdefghijk", "ENFJ", "FARE");
      IsValidUserProfile(long) && ErrorsWith(long, mbtiTypes, loveTypes) != []
  {
    BlankIffTrimEmpty(input.nickname);
    var long := "abcdefghijk";
    assert !IsSpace(long[0]) && !IsSpace(long[|long| - 1]);
    assert TrimStart(long) == long;
    assert TrimEnd(long) == long;
  }

  /** `getFieldError`: the message of the first error of field `f`, or
      nothing when the field has none. */
  function GetFieldError(errors: seq<ValidationError>, f: Field): (r: Option<Message>)
    ensures r.None? <==> !HasError(errors, f)
    ensures r.Some? ==> exists i :: && 0 <= i < |errors| && errors[i].field == f
                                    && r.value == errors[i].message
                                    && forall j :: 0 <= j < i ==> errors[j].field != f
  {
    if errors == [] then None
    else if errors[0].field == f then Some(errors[0].message)
    else
      var r := GetFieldError(errors[1..], f);
      assert HasError(errors[1..], f) ==> HasError(errors, f) by {
        if HasError(errors[1..], f) {
          var i :| 0 <= i < |errors[1..]| && errors[1..][i].field == f;
          assert errors[i + 1].field == f;
        }
      }
      assert r.Some? ==> exists i :: && 0 <= i < |errors| && errors[i].field == f
                                     && r.value == errors[i].message
                                     && forall j :: 0 <= j < i ==> errors[j].field != f by {
        if r.Some? {
          var i :| && 0 <= i < |errors[1..]| && errors[1..][i].field == f
                   && r.value == errors[1..][i].message
                   && forall j :: 0 <= j < i ==> errors[1..][j].field != f;
          assert forall j :: 0 <= j < i + 1 ==> errors[j].field != f by {
            forall j | 0 <= j < i + 1
              ensures errors[j].field != f
            {
              if j > 0 {
                assert errors[j] == errors[1..][j - 1];
              }
            }
          }
          assert errors[i + 1] == errors[1..][i];
        }
      }
      r
  }

  /** The message the form shows for the personality code: the one check
      that failed, or nothing. */
  lemma FieldErrorOfProfile(input: UserProfileInput, mbtiTypes: seq<string>, loveTypes: seq<string>)
    ensures GetFieldError(ErrorsWith(input, mbtiTypes, loveTypes), MbtiField)
         == (if input.mbti == "" then Some(MbtiRequired)
             else if input.mbti !in mbtiTypes then Some(MbtiNotListed) else None)
  {
    var a, b, c := ErrorsAsParts(input, mbtiTypes, loveTypes);
    FieldsOfParts(a, b, c);
    var errors := a + b + c;
    if b != [] {
      assert errors[|a|] == b[0];
      var r := GetFieldError(errors, MbtiField);
      var k :| && 0 <= k < |errors| && errors[k].field == MbtiField && r.value == errors[k].message
               && forall j :: 0 <= j < k ==> errors[j].field != MbtiField;
      FieldAt(a, b, c, k);
      assert k == |a|;
    }
  }
}
