/** The personality vector result: every calculator axis as a labelled item
    with a five-step level and its text, and the same for the top three. */
module PersonalityVectorService {
  import opened Base
  import opened ScoreBuckets
  import opened TypeFlags
  import opened StableSort
  import PC = PersonalityCalculator
  import opened PersonalityAxis

  /** `AXIS_LABELS`: a label for each of the eleven axes. */
  function AxisLabel(k: PC.AxisKey): (name: string)
    ensures |name| > 0
  {
    match k
    case Extraversion => "外向性"
    case IntroversionDepth => "内面志向"
    case IntuitionRomance => "直観／ロマン性"
    case Realism => "現実／実務性"
    case Thinking => "論理性"
    case Feeling => "共感性"
    case Structure => "構造化・計画性"
    case Flexibility => "柔軟・フットワーク"
    case CuddleNeed => "甘えニーズ"
    case AcceptWarmth => "甘え受容力"
    case LeadAttitude => "主導性"
  }

  /** The personality text table, an opaque lookup from an axis name and a
      level to a text. */
  type PersonalityTexts = (string, string) -> string

  /** One axis score as a result item. */
  function ToItem(a: PC.AxisScore, texts: PersonalityTexts): (item: PersonalityVectorItem)
    ensures item.key == PC.KeyName(a.key) && item.labelText == AxisLabel(a.key)
    ensures item.score == a.score && item.level == ToS5(a.score)
    ensures item.text == texts(item.key, item.level)
  {
    var level := ToS5(a.score);
    PersonalityVectorItem(PC.KeyName(a.key), AxisLabel(a.key), a.score, level,
                          texts(PC.KeyName(a.key), level))
  }

  function ToItems(s: seq<PC.AxisScore>, texts: PersonalityTexts): (r: seq<PersonalityVectorItem>)
    ensures |r| == |s|
    ensures forall i :: 0 <= i < |s| ==> r[i] == ToItem(s[i], texts)
  {
    Map(s, a => ToItem(a, texts))
  }

  /** `calcPersonalityVector`: both lists of the calculator turned into
      items, then checked by `createPersonalityAxis`. */
  function CalcPersonalityVector(f: Flags, texts: PersonalityTexts)
    : (r: Result<PersonalityAxis, AxisError>)
  {
    Assemble(PC.Calculate(f), texts)
  }

  function Assemble(scores: PC.PersonalityScores, texts: PersonalityTexts)
    : (r: Result<PersonalityAxis, AxisError>)
  {
    CreateAxis(ToItems(scores.top3, texts), ToItems(scores.allAxes, texts))
  }

  /** Three descending top scores taken from a non-empty list of axes are
      accepted, as items, by `createPersonalityAxis`. */
  lemma AssembleAccepted(scores: PC.PersonalityScores, texts: PersonalityTexts)
    requires |scores.allAxes| > 0 && |scores.top3| == 3
    requires SortedDesc(scores.top3, PC.ScoreOf)
    requires forall i :: 0 <= i < 3 ==> scores.top3[i] in scores.allAxes
    ensures var r := Assemble(scores, texts);
      && r.Ok?
      && r.value.top3 == ToItems(scores.top3, texts)
      && r.value.allAxes == ToItems(scores.allAxes, texts)
      && forall i :: 0 <= i < 3 ==> r.value.top3[i] in r.value.allAxes
  {
    var top := ToItems(scores.top3, texts);
    var all := ToItems(scores.allAxes, texts);
    forall i | 0 <= i < 3
      ensures top[i] in all
    {
      var j :| 0 <= j < |scores.allAxes| && scores.allAxes[j] == scores.top3[i];
      assert all[j] == top[i];
    }
    assert Descending(top) by {
      assert PC.ScoreOf(scores.top3[0]) >= PC.ScoreOf(scores.top3[1]);
      assert PC.ScoreOf(scores.top3[1]) >= PC.ScoreOf(scores.top3[2]);
    }
  }

  /** The result is always accepted. All axes are the calculator's axes as
      items, in the calculator's order (`ToItem` keeps key and score, and
      sets the five-step level and the label); the top three are the
      calculator's top three as items, in descending order of score and taken
      from all axes. */
  lemma VectorProperties(f: Flags, texts: PersonalityTexts)
    ensures var r := CalcPersonalityVector(f, texts);
      && r.Ok?
      && r.value.allAxes == ToItems(PC.Axes(f), texts)
      && r.value.top3 == ToItems(PC.Calculate(f).top3, texts)
      && (forall i :: 0 <= i < 3 ==> r.value.top3[i] in r.value.allAxes)
      && (forall i, j :: 0 <= i < j < 3 ==> r.value.top3[i].score >= r.value.top3[j].score)
  {
    PC.Top3Properties(f);
    AssembleAccepted(PC.Calculate(f), texts);
  }
}
