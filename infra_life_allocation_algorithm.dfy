/** The infrastructure copy of the life allocation computation. It builds
    the five items with their percentages and blank level and text, fills
    level and text in one pass, and only then sorts the items in place by
    descending percentage; the result is proved equal to the
    calculator-and-service pipeline, which sorts first and labels after. */
module InfraLifeAllocation {
  import opened Base
  import opened TypeFlags
  import opened ScoreBuckets
  import opened StableSort
  import opened LifeAllocationCalculator
  import opened LifeAllocation
  import LS = LifeAllocationService

  /** The five weighted sums: the same as the domain calculator's. */
  function WeightedSums(f: Flags): (g: Raws)
    ensures g == RawsOf(f)
  {
    Raws(
      0.35 * f.Fm + 0.25 * f.N + 0.20 * f.C + 0.15 * f.A + 0.05 * f.Pl,
      0.40 * f.J + 0.30 * f.Tm + 0.20 * f.R + 0.10 * f.El,
      0.50 * f.E + 0.30 * f.N + 0.20 * f.O,
      0.35 * f.Fm + 0.35 * f.J + 0.30 * f.El,
      0.35 * f.I + 0.35 * f.N + 0.20 * f.Pm + 0.10 * f.O)
  }

  /** An item as first written: label and percentage set, level and text
      empty. */
  function Unlabelled(s: LifeAllocationScore): LifeItem
  {
    LifeItem(s.key, Label(s.key), s.percent, "", "")
  }

  /** The `forEach` step: the five-step level of the percentage and the
      table's text for category and level. */
  function Labelled(item: LifeItem, texts: LS.LifeTexts): LifeItem
  {
    var level := LevelFromPercent(item.percent);
    item.(level := level, text := texts(item.key, level))
  }

  function ItemPercent(item: LifeItem): real
  {
    item.percent
  }

  /** The items in the listed order, each `(raw / sumRaw) * 100`, with
      blank level and text. */
  method BlankItems(g: Raws) returns (a: array<LifeItem>)
    requires Divisible(g)
    ensures fresh(a)
    ensures a[..] == Map(Items(g), Unlabelled)
  {
    var sumRaw := g.partner + g.work + g.friends + g.family + g.hobbies;
    a := new LifeItem[5];
    a[0] := LifeItem(Partner, Label(Partner), (g.partner / sumRaw) * 100.0, "", "");
    a[1] := LifeItem(Work, Label(Work), (g.work / sumRaw) * 100.0, "", "");
    a[2] := LifeItem(Friends, Label(Friends), (g.friends / sumRaw) * 100.0, "", "");
    a[3] := LifeItem(Family, Label(Family), (g.family / sumRaw) * 100.0, "", "");
    a[4] := LifeItem(Hobbies, Label(Hobbies), (g.hobbies / sumRaw) * 100.0, "", "");
  }

  /** The `forEach` pass, in place. */
  method LabelInPlace(a: array<LifeItem>, texts: LS.LifeTexts)
    modifies a
    ensures forall k :: 0 <= k < a.Length ==> a[k] == Labelled(old(a[k]), texts)
  {
    for i := 0 to a.Length
      invariant forall k :: 0 <= k < i ==> a[k] == Labelled(old(a[k]), texts)
      invariant forall k :: i <= k < a.Length ==> a[k] == old(a[k])
    {
      var level := LevelFromPercent(a[i].percent);
      a[i] := a[i].(level := level, text := texts(a[i].key, level));
    }
  }

  /** A blank item, labelled, is the service's item for its score. */
  lemma LabelledIsServiceItem(s: LifeAllocationScore, texts: LS.LifeTexts)
    ensures Labelled(Unlabelled(s), texts) == LS.ToItem(s, texts)
  {
  }

  /** The labelled items are the service's items in the same order. */
  lemma LabelledItems(scores: seq<LifeAllocationScore>, labelled: seq<LifeItem>, texts: LS.LifeTexts,
                      h: LifeAllocationScore -> LifeItem)
    requires |labelled| == |scores|
    requires forall k :: 0 <= k < |scores| ==> labelled[k] == Labelled(Unlabelled(scores[k]), texts)
    requires forall s :: h(s) == LS.ToItem(s, texts)
    ensures labelled == Map(scores, h)
  {
    forall k | 0 <= k < |scores|
      ensures labelled[k] == Map(scores, h)[k]
    {
      LabelledIsServiceItem(scores[k], texts);
    }
  }

  /** Labelling before sorting gives what labelling after sorting gives:
      the sort only looks at the percentage, which labelling keeps. */
  lemma LabelThenSort(scores: seq<LifeAllocationScore>, labelled: seq<LifeItem>, texts: LS.LifeTexts,
                      h: LifeAllocationScore -> LifeItem)
    requires |labelled| == |scores|
    requires forall k :: 0 <= k < |scores| ==> labelled[k] == Labelled(Unlabelled(scores[k]), texts)
    requires forall s :: h(s) == LS.ToItem(s, texts)
    ensures Sort(labelled, ItemPercent) == LS.Items(Sort(scores, PercentOf), texts)
  {
    LabelledItems(scores, labelled, texts, h);
    SortMap(scores, PercentOf, h, ItemPercent);
    var sorted := Sort(scores, PercentOf);
    assert Map(sorted, h) == LS.Items(sorted, texts) by {
      forall k | 0 <= k < |sorted|
        ensures Map(sorted, h)[k] == LS.Items(sorted, texts)[k]
      {
      }
    }
  }

  /** Label, then sort in place: the items the service builds from the
      sorted percentages. */
  method LabelAndSort(g: Raws, texts: LS.LifeTexts) returns (items: seq<LifeItem>)
    requires Divisible(g)
    ensures items == LS.Items(Sorted(g), texts)
  {
    var a := BlankItems(g);
    LabelInPlace(a, texts);
    ghost var labelled := a[..];
    LabelThenSort(Items(g), labelled, texts, (s: LifeAllocationScore) => LS.ToItem(s, texts));
    SortInPlace(a, ItemPercent);
    items := a[..];
  }

  /** `calcLifeAllocation`: the same result as the application service for
      every flag record whose weighted sums do not add up to zero. */
  method CalcLifeAllocation(f: Flags, texts: LS.LifeTexts)
    returns (r: Result<LifeAllocation, LifeAllocationError>)
    requires Total(WeightedSums(f)) != 0.0
    ensures r == LS.CalcLifeAllocation(f, texts)
  {
    var g := WeightedSums(f);
    var items := LabelAndSort(g, texts);
    var summary := LS.Summary(items[0].labelText, items[1].labelText);
    r := Create(items, summary);
  }
}
