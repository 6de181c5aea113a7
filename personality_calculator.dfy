/** The personality vector calculator: eleven axis scores from the flags,
    and the three highest after a stable descending sort. */
module PersonalityCalculator {
  import opened TypeFlags
  import opened StableSort

  /** The eleven axes. */
  datatype AxisKey =
    | Extraversion | IntroversionDepth | IntuitionRomance | Realism | Thinking | Feeling
    | Structure | Flexibility | CuddleNeed | AcceptWarmth | LeadAttitude

  /** The position of each axis in the listed order. */
  function Index(k: AxisKey): (i: nat)
    ensures i < 11
  {
    match k
    case Extraversion => 0
    case IntroversionDepth => 1
    case IntuitionRomance => 2
    case Realism => 3
    case Thinking => 4
    case Feeling => 5
    case Structure => 6
    case Flexibility => 7
    case CuddleNeed => 8
    case AcceptWarmth => 9
    case LeadAttitude => 10
  }

  /** The axis at a position: the inverse of `Index`. */
  function KeyAt(i: nat): (k: AxisKey)
    requires i < 11
    ensures Index(k) == i
  {
    if i == 0 then Extraversion else if i == 1 then IntroversionDepth
    else if i == 2 then IntuitionRomance else if i == 3 then Realism
    else if i == 4 then Thinking else if i == 5 then Feeling
    else if i == 6 then Structure else if i == 7 then Flexibility
    else if i == 8 then CuddleNeed else if i == 9 then AcceptWarmth
    else LeadAttitude
  }

  /** The key as the wire format spells it. */
  function KeyName(k: AxisKey): (name: string)
    ensures |name| > 0 && 'a' <= name[0] <= 'z'
  {
    match k
    case Extraversion => "extraversion"
    case IntroversionDepth => "introversionDepth"
    case IntuitionRomance => "intuitionRomance"
    case Realism => "realism"
    case Thinking => "thinking"
    case Feeling => "feeling"
    case Structure => "structure"
    case Flexibility => "flexibility"
    case CuddleNeed => "cuddleNeed"
    case AcceptWarmth => "acceptWarmth"
    case LeadAttitude => "leadAttitude"
  }

  /** Different axes have different names. */
  lemma KeyNameInjective(a: AxisKey, b: AxisKey)
    requires a != b
    ensures KeyName(a) != KeyName(b)
  {
  }

  datatype AxisScore = AxisScore(key: AxisKey, score: real)

  datatype PersonalityScores = PersonalityScores(allAxes: seq<AxisScore>, top3: seq<AxisScore>)

  /** The sort key. */
  function ScoreOf(a: AxisScore): real
  {
    a.score
  }

  function KeyOf(a: AxisScore): AxisKey
  {
    a.key
  }

  /** The score of one axis: nine single flags and two blends (intuition
      with passion, sensing with realism), each scaled to 0..100. */
  function Score(f: Flags, k: AxisKey): (score: real)
    ensures 0.0 <= score <= 100.0
  {
    match k
    case Extraversion => f.E * 100.0
    case IntroversionDepth => f.I * 100.0
    case IntuitionRomance => (0.7 * f.N + 0.3 * f.Pl) * 100.0
    case Realism => (0.7 * f.S + 0.3 * f.R) * 100.0
    case Thinking => f.Tm * 100.0
    case Feeling => f.Fm * 100.0
    case Structure => f.J * 100.0
    case Flexibility => f.Pm * 100.0
    case CuddleNeed => f.C * 100.0
    case AcceptWarmth => f.A * 100.0
    case LeadAttitude => f.L * 100.0
  }

  /** The eleven axes in the listed order. */
  function Axes(f: Flags): (r: seq<AxisScore>)
    ensures |r| == 11
    ensures forall i :: 0 <= i < 11 ==> Index(r[i].key) == i && r[i].score == Score(f, r[i].key)
  {
    seq(11, i requires 0 <= i < 11 => AxisScore(KeyAt(i), Score(f, KeyAt(i))))
  }

  /** Every axis appears once. */
  lemma AxesDistinct(f: Flags)
    ensures DistinctBy(Axes(f), KeyOf)
  {
    var r := Axes(f);
    forall i, j | 0 <= i < j < |r|
      ensures KeyOf(r[i]) != KeyOf(r[j])
    {
      assert Index(r[i].key) == i && Index(r[j].key) == j;
    }
  }

  /** `calculatePersonalityScores`: all axes, and the first three of the
      stably sorted copy. */
  function Calculate(f: Flags): (r: PersonalityScores)
    ensures r.allAxes == Axes(f)
    ensures |r.top3| == 3
  {
    var axes := Axes(f);
    PersonalityScores(axes, Sort(axes, ScoreOf)[..3])
  }

  /** The computation as the source performs it: copy the axes, sort the
      copy in place, take the first three. */
  method CalculateScores(f: Flags) returns (r: PersonalityScores)
    ensures r == Calculate(f)
  {
    var axes := Axes(f);
    var sorted := new AxisScore[|axes|](i requires 0 <= i < |axes| => axes[i]);
    assert sorted[..] == axes;
    SortInPlace(sorted, ScoreOf);
    r := PersonalityScores(axes, sorted[..3]);
  }

  /** The top three are in descending order of score, are three different
      axes taken from all axes, and no axis left out scores higher than any
      of them. */
  lemma Top3Properties(f: Flags)
    ensures var r := Calculate(f);
      && SortedDesc(r.top3, ScoreOf)
      && DistinctBy(r.top3, KeyOf)
      && (forall i :: 0 <= i < 3 ==> r.top3[i] in r.allAxes)
      && (forall y, i :: y in r.allAxes && y !in r.top3 && 0 <= i < 3 ==>
            r.top3[i].score >= y.score)
  {
    var axes := Axes(f);
    var sorted := Sort(axes, ScoreOf);
    var top := sorted[..3];
    SortSorted(axes, ScoreOf);
    assert SortedDesc(top, ScoreOf) by {
      forall i, j | 0 <= i < j < 3
        ensures ScoreOf(top[i]) >= ScoreOf(top[j])
      {
        assert top[i] == sorted[i] && top[j] == sorted[j];
      }
    }
    AxesDistinct(f);
    SortDistinct(axes, ScoreOf, KeyOf);
    assert DistinctBy(top, KeyOf) by {
      forall i, j | 0 <= i < j < 3
        ensures KeyOf(top[i]) != KeyOf(top[j])
      {
        assert top[i] == sorted[i] && top[j] == sorted[j];
      }
    }
    forall i | 0 <= i < 3
      ensures top[i] in axes
    {
      SortMembers(axes, ScoreOf, top[i]);
    }
    forall y, i | y in axes && y !in top && 0 <= i < 3
      ensures top[i].score >= y.score
    {
      TopDominatesRest(axes, ScoreOf, 3, y);
    }
  }

  /** Ties keep the order of the axis list: the top three are the first
      three axes with the highest score when at least three reach it. */
  lemma Top3OfMax(f: Flags, m: real)
    requires forall i :: 0 <= i < 11 ==> Axes(f)[i].score <= m
    requires |Filter(Axes(f), ScoreOf, m)| >= 3
    ensures Calculate(f).top3 == Filter(Axes(f), ScoreOf, m)[..3]
  {
    var axes := Axes(f);
    MaxFirst(axes, ScoreOf, m);
    var n := |Filter(axes, ScoreOf, m)|;
    assert Sort(axes, ScoreOf)[..3] == Sort(axes, ScoreOf)[..n][..3];
  }

  /** ENFJ with FARE: extraversion, feeling and structure score 100 (and so
      does acceptance, listed later). */
  lemma EnfjFareTop3()
    ensures Calculate(GetFlags("ENFJ", "FARE")).top3
         == [AxisScore(Extraversion, 100.0), AxisScore(Feeling, 100.0),
             AxisScore(Structure, 100.0)]
  {
    EnfjFareFlags();
    var f := Flags(
      E := 1.0, I := 0.0, N := 1.0, S := 0.0, Fm := 1.0, Tm := 0.0, J := 1.0, Pm := 0.0,
      L := 0.0, Fl := 1.0, C := 0.0, A := 1.0, R := 1.0, Pl := 0.0, O := 0.0, El := 1.0);
    FilterFirstSeven(Axes(f));
    Top3OfFlags(f);
  }

  /** INTJ with LCRO: introversion, thinking and structure, ahead of the
      equally scored cuddle need and lead attitude. */
  lemma IntjLcroTop3()
    ensures Calculate(GetFlags("INTJ", "LCRO")).top3
         == [AxisScore(IntroversionDepth, 100.0), AxisScore(Thinking, 100.0),
             AxisScore(Structure, 100.0)]
  {
    IntjLcroFlags();
    var f := Flags(
      E := 0.0, I := 1.0, N := 1.0, S := 0.0, Fm := 0.0, Tm := 1.0, J := 1.0, Pm := 0.0,
      L := 1.0, Fl := 0.0, C := 1.0, A := 0.0, R := 1.0, Pl := 0.0, O := 1.0, El := 0.0);
    FilterFirstSeven(Axes(f));
    Top3OfFlags(f);
  }

  /** When three of the first seven axes score 100, they are the top three. */
  lemma Top3OfFlags(f: Flags)
    requires |Filter(Axes(f)[..7], ScoreOf, 100.0)| == 3
    ensures Calculate(f).top3 == Filter(Axes(f)[..7], ScoreOf, 100.0)
  {
    var axes := Axes(f);
    FilterSplitAt(axes, ScoreOf, 100.0, 7);
    Top3OfMax(f, 100.0);
  }

  /** The top-scoring axes among the first seven, one step at a time. */
  lemma FilterFirstSeven(axes: seq<AxisScore>)
    requires |axes| >= 7
    ensures Filter(axes[..7], ScoreOf, 100.0)
         == Filter(axes[..0], ScoreOf, 100.0)
          + (if axes[0].score == 100.0 then [axes[0]] else [])
          + (if axes[1].score == 100.0 then [axes[1]] else [])
          + (if axes[2].score == 100.0 then [axes[2]] else [])
          + (if axes[3].score == 100.0 then [axes[3]] else [])
          + (if axes[4].score == 100.0 then [axes[4]] else [])
          + (if axes[5].score == 100.0 then [axes[5]] else [])
          + (if axes[6].score == 100.0 then [axes[6]] else [])
  {
    FilterSnoc(axes, ScoreOf, 100.0, 0);
    FilterSnoc(axes, ScoreOf, 100.0, 1);
    FilterSnoc(axes, ScoreOf, 100.0, 2);
    FilterSnoc(axes, ScoreOf, 100.0, 3);
    FilterSnoc(axes, ScoreOf, 100.0, 4);
    FilterSnoc(axes, ScoreOf, 100.0, 5);
    FilterSnoc(axes, ScoreOf, 100.0, 6);
  }
}
