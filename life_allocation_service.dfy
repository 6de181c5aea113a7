/** `calcLifeAllocation`: the calculator's five sorted percentages turned
    into labelled items with a five-step level and a text, and a summary
    naming the two largest. */
module LifeAllocationService {
  import opened Base
  import opened ScoreBuckets
  import opened TypeFlags
  import opened StableSort
  import opened LifeAllocationCalculator
  import opened LifeAllocation

  /** The text table, an opaque lookup by category and five-step level. */
  type LifeTexts = (LifeCategory, string) -> string

  const SUMMARY_HEAD: string := "あなたの人生で一番リソースを割きやすいのは「"
  const SUMMARY_MIDDLE: string := "」。たぶん、人生の喜びの多くはここにある。次に大事にしてるのは「"
  const SUMMARY_TAIL: string := "」。この2つのバランスが、あなたの生き方そのものかもね。"

  /** One item: the score's category and percentage, the label of the
      category, the five-step level of the percentage and the table's text
      for category and level. */
  function ToItem(s: LifeAllocationScore, texts: LifeTexts): (item: LifeItem)
    ensures item.key == s.key && item.percent == s.percent
    ensures item.labelText == Label(s.key) && IsS5Level(item.level)
    ensures item.text == texts(s.key, item.level)
  {
    var level := LevelFromPercent(s.percent);
    LifeItem(s.key, Label(s.key), s.percent, level, texts(s.key, level))
  }

  /** The summary sentence around the labels of the first two items; it
      starts and ends with a visible character, so trimming keeps it. */
  function Summary(top1: string, top2: string): (summary: string)
    ensures summary == SUMMARY_HEAD + top1 + SUMMARY_MIDDLE + top2 + SUMMARY_TAIL
    ensures !IsSpace(summary[0]) && !IsSpace(summary[|summary| - 1])
  {
    var summary := SUMMARY_HEAD + top1 + SUMMARY_MIDDLE + top2 + SUMMARY_TAIL;
    assert summary[0] == 'あ' && summary[|summary| - 1] == '。';
    summary
  }

  /** The items in the calculator's order. */
  function Items(scores: seq<LifeAllocationScore>, texts: LifeTexts): (items: seq<LifeItem>)
    ensures |items| == |scores|
    ensures forall i :: 0 <= i < |scores| ==> items[i] == ToItem(scores[i], texts)
  {
    Map(scores, (s: LifeAllocationScore) => ToItem(s, texts))
  }

  /** The service on the calculator's output: the items, checked by
      `createLifeAllocation`. The summary reads the first two items, which
      the source does not check exist. */
  function Assemble(scores: seq<LifeAllocationScore>, texts: LifeTexts)
    : (r: Result<LifeAllocation, LifeAllocationError>)
    requires |scores| >= 2
  {
    var items := Items(scores, texts);
    Create(items, Summary(items[0].labelText, items[1].labelText))
  }

  /** `calcLifeAllocation`. The calculator divides by the total of the raw
      weights, which is never zero for a legal profile. */
  function CalcLifeAllocation(f: Flags, texts: LifeTexts): Result<LifeAllocation, LifeAllocationError>
    requires Total(RawsOf(f)) != 0.0
  {
    Assemble(Calculate(f), texts)
  }

  /** Five scores carrying every category, whose percentages add up to 100
      within one point, are always accepted, whatever the table says:
      `createLifeAllocation` does not look at the item texts. */
  lemma AssembleAccepted(scores: seq<LifeAllocationScore>, texts: LifeTexts)
    requires |scores| == 5
    requires forall k :: Has(scores, k)
    requires -1.0 <= SumOf(scores, PercentOf) - 100.0 <= 1.0
    ensures Assemble(scores, texts).Ok?
    ensures Assemble(scores, texts).value.items == Items(scores, texts)
    ensures Assemble(scores, texts).value.summaryText == Summary(Label(scores[0].key), Label(scores[1].key))
  {
    var items := Items(scores, texts);
    assert items[0].labelText == Label(scores[0].key) && items[1].labelText == Label(scores[1].key);
    var summary := Summary(items[0].labelText, items[1].labelText);
    assert !IsBlank(summary) && Trim(summary) == summary by {
      TrimUnchanged(summary);
    }
    ItemsKeepKeys(scores, texts);
    assert TotalOk(items) by {
      SumOfPointwise(scores, items, PercentOf, PercentOfItem);
    }
  }

  /** Any legal profile's life allocation is accepted, whatever the text
      table holds; by `AssembleAccepted` the items are
      `Items(Calculate(f), texts)` and the summary names the labels of their
      first two categories. */
  lemma CalcLifeAllocationAccepted(f: Flags, texts: LifeTexts)
    requires Total(RawsOf(f)) != 0.0
    ensures CalcLifeAllocation(f, texts).Ok?
  {
    var g := RawsOf(f);
    var scores := Calculate(f);
    assert forall k :: Has(scores, k) by {
      EachKeyOnce(g);
    }
    assert SumOf(scores, PercentOf) == 100.0 by {
      SumIsHundred(g);
    }
    AssembleAccepted(scores, texts);
  }

  /** The items of a profile: in descending order of percentage, every
      category once with its own percentage, the five-step level of that
      percentage, its label and the table's text. */
  lemma ItemsOfProfile(f: Flags, texts: LifeTexts)
    requires Total(RawsOf(f)) != 0.0
    ensures var items := Items(Calculate(f), texts);
      && |items| == 5
      && (forall i, j :: 0 <= i < j < 5 ==> items[i].percent >= items[j].percent)
      && (forall k :: HasKey(items, k))
      && (forall i :: 0 <= i < 5 ==>
            && items[i].percent == Percent(RawsOf(f), items[i].key)
            && items[i].level == LevelFromPercent(items[i].percent)
            && items[i].labelText == Label(items[i].key)
            && items[i].text == texts(items[i].key, items[i].level))
  {
    ItemsOfRaws(RawsOf(f), texts);
  }

  /** `ItemsOfProfile` for any weighted sums that can be divided. */
  lemma ItemsOfRaws(g: Raws, texts: LifeTexts)
    requires Divisible(g)
    ensures var items := Items(Sorted(g), texts);
      && |items| == 5
      && (forall i, j :: 0 <= i < j < 5 ==> items[i].percent >= items[j].percent)
      && (forall k :: HasKey(items, k))
      && (forall i :: 0 <= i < 5 ==>
            && items[i].percent == Percent(g, items[i].key)
            && items[i].level == LevelFromPercent(items[i].percent)
            && items[i].labelText == Label(items[i].key)
            && items[i].text == texts(items[i].key, items[i].level))
  {
    var scores := Sorted(g);
    var items := Items(scores, texts);
    InOrder(g);
    EachKeyOnce(g);
    ItemsKeepKeys(scores, texts);
    forall i, j | 0 <= i < j < 5
      ensures items[i].percent >= items[j].percent
    {
      assert items[i].percent == scores[i].percent && items[j].percent == scores[j].percent;
    }
    forall i | 0 <= i < 5
      ensures items[i].percent == Percent(g, items[i].key)
    {
      assert items[i].key == scores[i].key && items[i].percent == scores[i].percent;
    }
  }

  /** Items made from scores carrying every category carry every category. */
  lemma ItemsKeepKeys(scores: seq<LifeAllocationScore>, texts: LifeTexts)
    requires forall k :: Has(scores, k)
    ensures forall k :: HasKey(Items(scores, texts), k)
  {
    var items := Items(scores, texts);
    forall k
      ensures HasKey(items, k)
    {
      assert Has(scores, k);
      var i :| 0 <= i < |scores| && scores[i].key == k;
      assert items[i].key == k;
    }
  }
}
