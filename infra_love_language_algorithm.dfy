/** The infrastructure copy of the love language computation. It builds the
    five items with blank rank, level and text, sorts them in place by
    descending score, then fills rank, level and text in one pass; the
    result is proved equal to the calculator-and-service pipeline. */
module InfraLoveLanguage {
  import opened Base
  import opened TypeFlags
  import opened ScoreBuckets
  import opened StableSort
  import opened LoveLanguageCalculator
  import opened LoveLanguage
  import LS = LoveLanguageService

  /** The weighted sums, `min(100, raw * 100)` each: the same score as the
      domain calculator for every key. */
  function KeyScore(f: Flags, k: LoveLanguageKey): (score: real)
    ensures score == Score(f, k)
  {
    var raw := match k
      case Words => 0.50 * f.Fm + 0.30 * f.N + 0.20 * f.El
      case Time => 0.45 * f.I + 0.25 * f.Fm + 0.20 * f.Fl + 0.10 * f.A
      case Gifts => 0.40 * f.N + 0.35 * f.J + 0.25 * f.El
      case Service => 0.40 * f.J + 0.35 * f.Tm + 0.25 * f.R
      case Touch => 0.55 * f.E + 0.25 * f.C + 0.20 * f.Pl;
    if 100.0 <= raw * 100.0 then 100.0 else raw * 100.0
  }

  /** An item as first written: label and score set, rank 0, level and text
      empty. */
  function Unranked(s: LoveLanguageScore): (item: LoveLanguageItem)
  {
    LoveLanguageItem(s.key, Label(s.key), s.score, "", 0, "")
  }

  function ItemScore(item: LoveLanguageItem): real
  {
    item.score
  }

  /** The pass after the sort: the rank from the position, the five-step
      level of the score and the table's text for key and level. */
  function Filled(item: LoveLanguageItem, i: nat, texts: LS.LoveTexts): LoveLanguageItem
  {
    var level := ToS5(item.score);
    item.(rank := i + 1, level := level, text := texts(item.key, level))
  }

  /** A blank item filled at position `i` is the service's item for the
      score ranked `i + 1`. */
  lemma FilledIsServiceItem(s: LoveLanguageScore, i: nat, texts: LS.LoveTexts)
    ensures Filled(Unranked(s), i, texts) == LS.ToItem(s.(rank := i + 1), texts)
  {
  }

  /** The in-place sort: the blank items in descending order of score, as
      the blank copies of the sorted scores. */
  method SortBlank(initial: seq<LoveLanguageScore>) returns (a: array<LoveLanguageItem>)
    ensures fresh(a)
    ensures a[..] == Map(Sort(initial, ScoreOf), Unranked)
  {
    a := new LoveLanguageItem[|initial|](i requires 0 <= i < |initial| => Unranked(initial[i]));
    assert a[..] == Map(initial, Unranked);
    SortInPlace(a, ItemScore);
    SortMap(initial, ScoreOf, Unranked, ItemScore);
  }

  /** The `forEach` pass over the sorted items. */
  method FillInPlace(a: array<LoveLanguageItem>, texts: LS.LoveTexts)
    modifies a
    ensures forall k :: 0 <= k < a.Length ==> a[k] == Filled(old(a[k]), k, texts)
  {
    for i := 0 to a.Length
      invariant forall k :: 0 <= k < i ==> a[k] == Filled(old(a[k]), k, texts)
      invariant forall k :: i <= k < a.Length ==> a[k] == old(a[k])
    {
      var level := ToS5(a[i].score);
      a[i] := a[i].(rank := i + 1, level := level, text := texts(a[i].key, level));
    }
  }

  /** Sorting, then filling: the items the service builds from the ranked
      sort. */
  method SortAndRank(initial: seq<LoveLanguageScore>, texts: LS.LoveTexts)
    returns (items: seq<LoveLanguageItem>)
    ensures items == LS.Items(WithRanks(Sort(initial, ScoreOf)), texts)
  {
    var a := SortBlank(initial);
    ghost var sorted := Sort(initial, ScoreOf);
    ghost var blank := a[..];
    FillInPlace(a, texts);
    items := a[..];
    RankedItems(sorted, blank, items, texts);
  }

  lemma RankedItems(sorted: seq<LoveLanguageScore>, blank: seq<LoveLanguageItem>,
                    items: seq<LoveLanguageItem>, texts: LS.LoveTexts)
    requires blank == Map(sorted, Unranked) && |items| == |blank|
    requires forall k :: 0 <= k < |items| ==> items[k] == Filled(blank[k], k, texts)
    ensures items == LS.Items(WithRanks(sorted), texts)
  {
    var ranked := WithRanks(sorted);
    forall k | 0 <= k < |items|
      ensures items[k] == LS.Items(ranked, texts)[k]
    {
      FilledIsServiceItem(sorted[k], k, texts);
    }
  }

  /** `calcLoveLanguages`: the same result as the application service for
      every flag record. */
  method CalcLoveLanguages(f: Flags, texts: LS.LoveTexts)
    returns (r: Result<LoveLanguage, LoveLanguageError>)
    ensures r == LS.CalcLoveLanguages(f, texts)
  {
    var initial := [
      LoveLanguageScore(Words, KeyScore(f, Words), 0),
      LoveLanguageScore(Time, KeyScore(f, Time), 0),
      LoveLanguageScore(Gifts, KeyScore(f, Gifts), 0),
      LoveLanguageScore(Service, KeyScore(f, Service), 0),
      LoveLanguageScore(Touch, KeyScore(f, Touch), 0)];
    assert initial == Initial(f);
    var items := SortAndRank(initial, texts);
    var summary := LS.Summary(items[0].labelText, items[1].labelText);
    r := Create(items, summary);
  }
}
