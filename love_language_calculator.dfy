/** The love language calculator: five weighted scores, sorted in place in
    descending order, then ranked 1 to 5 by position. */
module LoveLanguageCalculator {
  import opened TypeFlags
  import opened StableSort

  datatype LoveLanguageKey = Words | Time | Gifts | Service | Touch

  /** The position of each key in the listed order. */
  function Index(k: LoveLanguageKey): (i: nat)
    ensures i < 5
  {
    match k
    case Words => 0
    case Time => 1
    case Gifts => 2
    case Service => 3
    case Touch => 4
  }

  function KeyAt(i: nat): (k: LoveLanguageKey)
    requires i < 5
    ensures Index(k) == i
  {
    if i == 0 then Words else if i == 1 then Time else if i == 2 then Gifts
    else if i == 3 then Service else Touch
  }

  /** The key as the wire format spells it. */
  function KeyName(k: LoveLanguageKey): (name: string)
    ensures |name| > 0 && 'a' <= name[0] <= 'z'
  {
    match k
    case Words => "words"
    case Time => "time"
    case Gifts => "gifts"
    case Service => "service"
    case Touch => "touch"
  }

  /** Different keys have different names. */
  lemma KeyNameInjective(a: LoveLanguageKey, b: LoveLanguageKey)
    requires a != b
    ensures KeyName(a) != KeyName(b)
  {
  }

  datatype LoveLanguageScore = LoveLanguageScore(key: LoveLanguageKey, score: real, rank: int)

  function ScoreOf(item: LoveLanguageScore): real
  {
    item.score
  }

  function KeyOf(item: LoveLanguageScore): LoveLanguageKey
  {
    item.key
  }

  /** The weighted sum behind each love language; every weight set sums to
      one, so with 0/1 flags the raw value lies in 0..1. */
  function Raw(f: Flags, k: LoveLanguageKey): (r: real)
    ensures 0.0 <= r <= 1.0
  {
    match k
    case Words => 0.50 * f.Fm + 0.30 * f.N + 0.20 * f.El
    case Time => 0.45 * f.I + 0.25 * f.Fm + 0.20 * f.Fl + 0.10 * f.A
    case Gifts => 0.40 * f.N + 0.35 * f.J + 0.25 * f.El
    case Service => 0.40 * f.J + 0.35 * f.Tm + 0.25 * f.R
    case Touch => 0.55 * f.E + 0.25 * f.C + 0.20 * f.Pl
  }

  /** The score `min(100, raw * 100)`; the clamp never changes it. */
  function Score(f: Flags, k: LoveLanguageKey): (score: real)
    ensures score == Raw(f, k) * 100.0
    ensures 0.0 <= score <= 100.0
  {
    if Raw(f, k) * 100.0 <= 100.0 then Raw(f, k) * 100.0 else 100.0
  }

  /** The items before sorting, in the listed order, all with rank 0. */
  function Initial(f: Flags): (r: seq<LoveLanguageScore>)
    ensures |r| == 5
    ensures forall i :: 0 <= i < 5 ==>
      Index(r[i].key) == i && r[i].score == Score(f, r[i].key) && r[i].rank == 0
  {
    seq(5, i requires 0 <= i < 5 => LoveLanguageScore(KeyAt(i), Score(f, KeyAt(i)), 0))
  }

  /** Each item's rank set to its position plus one. */
  function WithRanks(s: seq<LoveLanguageScore>): (r: seq<LoveLanguageScore>)
    ensures |r| == |s|
    ensures forall i :: 0 <= i < |s| ==> r[i] == s[i].(rank := i + 1)
  {
    seq(|s|, i requires 0 <= i < |s| => s[i].(rank := i + 1))
  }

  /** `calculateLoveLanguageScores`, as a value: the ranked stable sort. */
  function Calculate(f: Flags): (items: seq<LoveLanguageScore>)
    ensures |items| == 5
  {
    WithRanks(Sort(Initial(f), ScoreOf))
  }

  /** The computation as the source performs it: sort the item array in
      place, then number the items in a loop. */
  method CalculateScores(f: Flags) returns (items: seq<LoveLanguageScore>)
    ensures items == Calculate(f)
  {
    var initial := Initial(f);
    var a := new LoveLanguageScore[5](i requires 0 <= i < 5 => initial[i]);
    assert a[..] == initial;
    SortInPlace(a, ScoreOf);
    ghost var sorted := a[..];
    for i := 0 to a.Length
      invariant forall k :: 0 <= k < i ==> a[k] == sorted[k].(rank := k + 1)
      invariant forall k :: i <= k < a.Length ==> a[k] == sorted[k]
    {
      a[i] := a[i].(rank := i + 1);
    }
    items := a[..];
    assert items == WithRanks(sorted);
  }

  /** Whether some item carries key `k`. */
  predicate Has(items: seq<LoveLanguageScore>, k: LoveLanguageKey)
  {
    exists i :: 0 <= i < |items| && items[i].key == k
  }

  /** The items are in descending order of score, ranked 1 to 5 by position. */
  lemma RankedInOrder(f: Flags)
    ensures var items := Calculate(f);
      && (forall i :: 0 <= i < 5 ==> items[i].rank == i + 1)
      && (forall i, j :: 0 <= i < j < 5 ==> items[i].score >= items[j].score)
  {
    var sorted := Sort(Initial(f), ScoreOf);
    SortSorted(Initial(f), ScoreOf);
    assert forall i, j :: 0 <= i < j < 5 ==> ScoreOf(sorted[i]) >= ScoreOf(sorted[j]);
  }

  /** Every love language appears exactly once, with its own score. */
  lemma EachKeyOnce(f: Flags)
    ensures var items := Calculate(f);
      && DistinctBy(items, KeyOf)
      && (forall k :: Has(items, k))
      && (forall i :: 0 <= i < 5 ==> items[i].score == Score(f, items[i].key))
  {
    var initial := Initial(f);
    var sorted := Sort(initial, ScoreOf);
    var items := Calculate(f);
    InitialDistinct(f);
    SortDistinct(initial, ScoreOf, KeyOf);
    assert DistinctBy(items, KeyOf) by {
      forall i, j | 0 <= i < j < 5
        ensures KeyOf(items[i]) != KeyOf(items[j])
      {
        assert items[i].key == sorted[i].key && items[j].key == sorted[j].key;
      }
    }
    forall i | 0 <= i < 5
      ensures items[i].score == Score(f, items[i].key)
    {
      SortMembers(initial, ScoreOf, sorted[i]);
    }
    forall k
      ensures Has(items, k)
    {
      var y := initial[Index(k)];
      SortMembers(initial, ScoreOf, y);
      var i :| 0 <= i < 5 && sorted[i] == y;
      assert items[i].key == k;
    }
  }

  lemma InitialDistinct(f: Flags)
    ensures DistinctBy(Initial(f), KeyOf)
  {
    var r := Initial(f);
    forall i, j | 0 <= i < j < |r|
      ensures KeyOf(r[i]) != KeyOf(r[j])
    {
      assert Index(r[i].key) == i && Index(r[j].key) == j;
    }
  }

  /** Equal scores keep the listed order: for every score value, the items
      carrying it appear in the order words, time, gifts, service, touch. */
  lemma TiesKeepListedOrder(f: Flags, v: real)
    ensures Filter(Sort(Initial(f), ScoreOf), ScoreOf, v) == Filter(Initial(f), ScoreOf, v)
  {
    SortStable(Initial(f), ScoreOf, v);
  }

  /** ENFJ with FARE: words and gifts tie at 100 and keep their listed order,
      then service 65, then time and touch tie at 55. */
  lemma EnfjFare()
    ensures Calculate(GetFlags("ENFJ", "FARE")) == [
      LoveLanguageScore(Words, 100.0, 1), LoveLanguageScore(Gifts, 100.0, 2),
      LoveLanguageScore(Service, 65.0, 3), LoveLanguageScore(Time, 55.0, 4),
      LoveLanguageScore(Touch, 55.0, 5)]
  {
    EnfjFareFlags();
    EnfjFareSorted();
  }

  lemma EnfjFareSorted()
    ensures Sort(Initial(Flags(
      E := 1.0, I := 0.0, N := 1.0, S := 0.0, Fm := 1.0, Tm := 0.0, J := 1.0, Pm := 0.0,
      L := 0.0, Fl := 1.0, C := 0.0, A := 1.0, R := 1.0, Pl := 0.0, O := 0.0, El := 1.0)), ScoreOf)
      == [LoveLanguageScore(Words, 100.0, 0), LoveLanguageScore(Gifts, 100.0, 0),
          LoveLanguageScore(Service, 65.0, 0), LoveLanguageScore(Time, 55.0, 0),
          LoveLanguageScore(Touch, 55.0, 0)]
  {
    var s := Initial(Flags(
      E := 1.0, I := 0.0, N := 1.0, S := 0.0, Fm := 1.0, Tm := 0.0, J := 1.0, Pm := 0.0,
      L := 0.0, Fl := 1.0, C := 0.0, A := 1.0, R := 1.0, Pl := 0.0, O := 0.0, El := 1.0));
    var w, t, g, sv, to := s[0], s[1], s[2], s[3], s[4];
    assert w == LoveLanguageScore(Words, 100.0, 0) && t == LoveLanguageScore(Time, 55.0, 0);
    assert g == LoveLanguageScore(Gifts, 100.0, 0) && sv == LoveLanguageScore(Service, 65.0, 0);
    assert to == LoveLanguageScore(Touch, 55.0, 0);
    InsertAt(t, [w], 1, ScoreOf);
    assert [w][..1] + [t] + [w][1..] == [w, t];
    InsertAt(g, [w, t], 1, ScoreOf);
    assert [w, t][..1] + [g] + [w, t][1..] == [w, g, t];
    InsertAt(sv, [w, g, t], 2, ScoreOf);
    assert [w, g, t][..2] + [sv] + [w, g, t][2..] == [w, g, sv, t];
    InsertAt(to, [w, g, sv, t], 4, ScoreOf);
    assert [w, g, sv, t][..4] + [to] + [w, g, sv, t][4..] == [w, g, sv, t, to];
    SortSteps(s, [w, t], [w, g, t], [w, g, sv, t], [w, g, sv, t, to]);
  }

  /** INTJ with LCRO: service 100, gifts 75, time 45, words 30, touch 25. */
  lemma IntjLcro()
    ensures Calculate(GetFlags("INTJ", "LCRO")) == [
      LoveLanguageScore(Service, 100.0, 1), LoveLanguageScore(Gifts, 75.0, 2),
      LoveLanguageScore(Time, 45.0, 3), LoveLanguageScore(Words, 30.0, 4),
      LoveLanguageScore(Touch, 25.0, 5)]
  {
    IntjLcroFlags();
    IntjLcroSorted();
  }

  lemma IntjLcroSorted()
    ensures Sort(Initial(Flags(
      E := 0.0, I := 1.0, N := 1.0, S := 0.0, Fm := 0.0, Tm := 1.0, J := 1.0, Pm := 0.0,
      L := 1.0, Fl := 0.0, C := 1.0, A := 0.0, R := 1.0, Pl := 0.0, O := 1.0, El := 0.0)), ScoreOf)
      == [LoveLanguageScore(Service, 100.0, 0), LoveLanguageScore(Gifts, 75.0, 0),
          LoveLanguageScore(Time, 45.0, 0), LoveLanguageScore(Words, 30.0, 0),
          LoveLanguageScore(Touch, 25.0, 0)]
  {
    var s := Initial(Flags(
      E := 0.0, I := 1.0, N := 1.0, S := 0.0, Fm := 0.0, Tm := 1.0, J := 1.0, Pm := 0.0,
      L := 1.0, Fl := 0.0, C := 1.0, A := 0.0, R := 1.0, Pl := 0.0, O := 1.0, El := 0.0));
    var w, t, g, sv, to := s[0], s[1], s[2], s[3], s[4];
    assert w == LoveLanguageScore(Words, 30.0, 0) && t == LoveLanguageScore(Time, 45.0, 0);
    assert g == LoveLanguageScore(Gifts, 75.0, 0) && sv == LoveLanguageScore(Service, 100.0, 0);
    assert to == LoveLanguageScore(Touch, 25.0, 0);
    InsertAt(t, [w], 0, ScoreOf);
    assert [w][..0] + [t] + [w][0..] == [t, w];
    InsertAt(g, [t, w], 0, ScoreOf);
    assert [t, w][..0] + [g] + [t, w][0..] == [g, t, w];
    InsertAt(sv, [g, t, w], 0, ScoreOf);
    assert [g, t, w][..0] + [sv] + [g, t, w][0..] == [sv, g, t, w];
    InsertAt(to, [sv, g, t, w], 4, ScoreOf);
    assert [sv, g, t, w][..4] + [to] + [sv, g, t, w][4..] == [sv, g, t, w, to];
    SortSteps(s, [t, w], [g, t, w], [sv, g, t, w], [sv, g, t, w, to]);
  }

  /** The insertion sort of five items, one insertion at a time. */
  lemma SortSteps(s: seq<LoveLanguageScore>, t1: seq<LoveLanguageScore>,
                  t2: seq<LoveLanguageScore>, t3: seq<LoveLanguageScore>, r: seq<LoveLanguageScore>)
    requires |s| == 5
    requires Insert(s[1], [s[0]], ScoreOf) == t1 && Insert(s[2], t1, ScoreOf) == t2
    requires Insert(s[3], t2, ScoreOf) == t3 && Insert(s[4], t3, ScoreOf) == r
    ensures Sort(s, ScoreOf) == r
  {
    assert s[..0] == [];
    SortSnoc(s, ScoreOf, 0);
    assert Sort(s[..1], ScoreOf) == [s[0]];
    SortSnoc(s, ScoreOf, 1);
    SortSnoc(s, ScoreOf, 2);
    SortSnoc(s, ScoreOf, 3);
    SortSnoc(s, ScoreOf, 4);
    assert s[..5] == s;
  }
}
