/** The personality axis value object: one scored, labelled axis, and the pair
    (top three, all axes) the result page shows. */
module PersonalityAxis {
  import opened Base
  import opened ScoreBuckets
  import PersonalityCalculator

  datatype PersonalityVectorItem = PersonalityVectorItem(
    key: string, labelText: string, score: real, level: string, text: string)

  datatype PersonalityAxis = PersonalityAxis(
    top3: seq<PersonalityVectorItem>, allAxes: seq<PersonalityVectorItem>)

  /** What `createPersonalityVectorItem` rejects, in the order it checks. */
  datatype ItemError = EmptyKey | EmptyLabel | ScoreOutOfRange | InvalidLevel | EmptyText

  /** What `createPersonalityAxis` rejects, in the order it checks. */
  datatype AxisError = Top3NotThree | NoAxes | Top3NotDescending

  /** `createPersonalityVectorItem`: key, label and text must not be blank,
      the score must lie in 0..100 and the level be one of S1..S5; the first
      failing check decides the error. The strings are stored trimmed. */
  function CreateItem(key: string, labelText: string, score: real, level: string, text: string)
    : (r: Result<PersonalityVectorItem, ItemError>)
    ensures r == Err(EmptyKey) <==> IsBlank(key)
    ensures r == Err(EmptyLabel) <==> !IsBlank(key) && IsBlank(labelText)
    ensures r == Err(ScoreOutOfRange) <==>
              !IsBlank(key) && !IsBlank(labelText) && !(0.0 <= score <= 100.0)
    ensures r == Err(InvalidLevel) <==>
              !IsBlank(key) && !IsBlank(labelText) && 0.0 <= score <= 100.0 && !IsS5Level(level)
    ensures r == Err(EmptyText) <==>
              !IsBlank(key) && !IsBlank(labelText) && 0.0 <= score <= 100.0 && IsS5Level(level)
              && IsBlank(text)
    ensures r.Ok? ==>
              r.value == PersonalityVectorItem(Trim(key), Trim(labelText), score, level, Trim(text))
  {
    if IsBlank(key) then Err(EmptyKey)
    else if IsBlank(labelText) then Err(EmptyLabel)
    else if score < 0.0 || score > 100.0 then Err(ScoreOutOfRange)
    else if !IsS5Level(level) then Err(InvalidLevel)
    else if IsBlank(text) then Err(EmptyText)
    else Ok(PersonalityVectorItem(Trim(key), Trim(labelText), score, level, Trim(text)))
  }

  /** An accepted item is accepted again, unchanged, when built from its own
      fields: the stored strings are trimmed and still not blank. */
  lemma CreateItemIdempotent(key: string, labelText: string, score: real, level: string, text: string)
    requires CreateItem(key, labelText, score, level, text).Ok?
    ensures var v := CreateItem(key, labelText, score, level, text).value;
      CreateItem(v.key, v.labelText, v.score, v.level, v.text) == Ok(v)
  {
    TrimKeepsBlankness(key);
    TrimKeepsBlankness(labelText);
    TrimKeepsBlankness(text);
    TrimIdempotent(key);
    TrimIdempotent(labelText);
    TrimIdempotent(text);
  }

  /** Scores never increase along the list (the source compares neighbours). */
  predicate Descending(items: seq<PersonalityVectorItem>)
  {
    forall i :: 0 <= i < |items| - 1 ==> items[i].score >= items[i + 1].score
  }

  /** `createPersonalityAxis`: exactly three top items, at least one axis, and
      the top three in descending order of score; both lists are kept as
      given. */
  function CreateAxis(top3: seq<PersonalityVectorItem>, allAxes: seq<PersonalityVectorItem>)
    : (r: Result<PersonalityAxis, AxisError>)
    ensures r.Ok? <==> |top3| == 3 && |allAxes| > 0 && Descending(top3)
    ensures r.Ok? ==> r.value == PersonalityAxis(top3, allAxes)
    ensures r == Err(Top3NotThree) <==> |top3| != 3
    ensures r == Err(NoAxes) <==> |top3| == 3 && |allAxes| == 0
  {
    if |top3| != 3 then Err(Top3NotThree)
    else if |allAxes| == 0 then Err(NoAxes)
    else if top3[0].score < top3[1].score || top3[1].score < top3[2].score then Err(Top3NotDescending)
    else Ok(PersonalityAxis(top3, allAxes))
  }

  /** An accepted top three is ordered all the way: every earlier item
      scores at least as much as every later one. */
  lemma AcceptedTop3Ordered(top3: seq<PersonalityVectorItem>, allAxes: seq<PersonalityVectorItem>)
    requires CreateAxis(top3, allAxes).Ok?
    ensures forall i, j :: 0 <= i < j < |top3| ==> top3[i].score >= top3[j].score
  {
  }

  /** `PERSONALITY_AXIS_KEYS`. */
  const PERSONALITY_AXIS_KEYS: seq<string> := [
    "extraversion", "introversionDepth", "intuitionRomance", "realism", "thinking", "feeling",
    "structure", "flexibility", "cuddleNeed", "acceptWarmth", "leadAttitude"]

  /** The list names the calculator's eleven axes, in the calculator's order,
      and so holds eleven different names. */
  lemma AxisKeysMatchCalculator()
    ensures |PERSONALITY_AXIS_KEYS| == 11
    ensures forall i :: 0 <= i < 11 ==>
              PERSONALITY_AXIS_KEYS[i] == PersonalityCalculator.KeyName(PersonalityCalculator.KeyAt(i))
    ensures forall i, j :: 0 <= i < j < 11 ==> PERSONALITY_AXIS_KEYS[i] != PERSONALITY_AXIS_KEYS[j]
  {
    forall i, j | 0 <= i < j < 11
      ensures PERSONALITY_AXIS_KEYS[i] != PERSONALITY_AXIS_KEYS[j]
    {
      PersonalityCalculator.KeyNameInjective(PersonalityCalculator.KeyAt(i),
                                             PersonalityCalculator.KeyAt(j));
    }
  }
}
