/** `calcLoveLanguages`: the calculator's five ranked scores turned into
    labelled items with a five-step level and a text, and a summary naming
    the two highest. */
module LoveLanguageService {
  import opened Base
  import opened ScoreBuckets
  import opened TypeFlags
  import opened StableSort
  import opened LoveLanguageCalculator
  import opened LoveLanguage

  /** The text table, an opaque lookup by key and five-step level. */
  type LoveTexts = (LoveLanguageKey, string) -> string

  const SUMMARY_HEAD: string := "あなたにとって一番大事なのは「"
  const SUMMARY_MIDDLE: string := "」。これが満たされると、マジで幸せを感じるはず。次にグッとくるのは「"
  const SUMMARY_TAIL: string := "」。この2つをパートナーにそっと教えてあげると、関係がもっと良くなるかも！"

  /** One item: the score's key, rank and score, the label of the key, the
      five-step level of the score and the table's text for key and level. */
  function ToItem(s: LoveLanguageScore, texts: LoveTexts): (item: LoveLanguageItem)
    ensures item.key == s.key && item.score == s.score && item.rank == s.rank
    ensures item.labelText == Label(s.key) && IsS5Level(item.level)
    ensures item.text == texts(s.key, item.level)
  {
    var level := ToS5(s.score);
    LoveLanguageItem(s.key, Label(s.key), s.score, level, s.rank, texts(s.key, level))
  }

  /** The summary sentence around the labels of the first two items; it
      starts and ends with a visible character, so trimming keeps it. */
  function Summary(top1: string, top2: string): (summary: string)
    ensures summary == SUMMARY_HEAD + top1 + SUMMARY_MIDDLE + top2 + SUMMARY_TAIL
    ensures !IsSpace(summary[0]) && !IsSpace(summary[|summary| - 1])
  {
    var summary := SUMMARY_HEAD + top1 + SUMMARY_MIDDLE + top2 + SUMMARY_TAIL;
    assert summary[0] == 'あ' && summary[|summary| - 1] == '！';
    summary
  }

  /** The items in the calculator's order. */
  function Items(scores: seq<LoveLanguageScore>, texts: LoveTexts): (items: seq<LoveLanguageItem>)
    ensures |items| == |scores|
    ensures forall i :: 0 <= i < |scores| ==> items[i] == ToItem(scores[i], texts)
  {
    Map(scores, (s: LoveLanguageScore) => ToItem(s, texts))
  }

  /** The service on the calculator's output: the items, checked by
      `createLoveLanguage`. The summary reads the first two items, which the
      source does not check exist. */
  function Assemble(scores: seq<LoveLanguageScore>, texts: LoveTexts)
    : (r: Result<LoveLanguage, LoveLanguageError>)
    requires |scores| >= 2
  {
    var items := Items(scores, texts);
    Create(items, Summary(items[0].labelText, items[1].labelText))
  }

  /** `calcLoveLanguages`. */
  function CalcLoveLanguages(f: Flags, texts: LoveTexts): Result<LoveLanguage, LoveLanguageError>
  {
    Assemble(Calculate(f), texts)
  }

  /** Five scores carrying every key and ranked 1 to 5 by position are
      always accepted, whatever the table says: `createLoveLanguage` does
      not look at the item texts. */
  lemma AssembleAccepted(scores: seq<LoveLanguageScore>, texts: LoveTexts)
    requires |scores| == 5
    requires forall i :: 0 <= i < 5 ==> scores[i].rank == i + 1
    requires forall k :: Has(scores, k)
    ensures Assemble(scores, texts).Ok?
    ensures Assemble(scores, texts).value.items == Items(scores, texts)
    ensures Assemble(scores, texts).value.summaryText == Summary(Label(scores[0].key), Label(scores[1].key))
  {
    var items := Items(scores, texts);
    assert items[0].labelText == Label(scores[0].key) && items[1].labelText == Label(scores[1].key);
    var summary := Summary(items[0].labelText, items[1].labelText);
    assert !IsBlank(summary) && Trim(summary) == summary by {
      TrimUnchanged(summary);
    }
    assert (forall k :: HasKey(items, k)) && RanksOk(items) by {
      ItemsAccepted(scores, items);
    }
  }

  /** Items that copy the keys and ranks of such scores pass the key and
      rank checks. */
  lemma ItemsAccepted(scores: seq<LoveLanguageScore>, items: seq<LoveLanguageItem>)
    requires |scores| == 5 && |items| == 5
    requires forall i :: 0 <= i < 5 ==> items[i].key == scores[i].key && items[i].rank == i + 1
    requires forall k :: Has(scores, k)
    ensures (forall k :: HasKey(items, k)) && RanksOk(items)
  {
    RanksInOrder(items);
    forall k
      ensures HasKey(items, k)
    {
      assert Has(scores, k);
      var i :| 0 <= i < 5 && scores[i].key == k;
      assert items[i].key == k;
    }
  }

  lemma RanksInOrder(items: seq<LoveLanguageItem>)
    requires |items| == 5
    requires forall i :: 0 <= i < 5 ==> items[i].rank == i + 1
    ensures RanksOk(items)
  {
    var ranks := Map(items, RankOf);
    assert ranks == [1, 2, 3, 4, 5];
    assert multiset(ranks) == multiset{1, 2, 3, 4, 5};
    RanksOkIffPermutation(items);
  }

  /** Any profile's love languages are accepted, whatever the text table
      holds; by `AssembleAccepted` the items are `Items(Calculate(f), texts)`
      and the summary names the labels of their first two keys. */
  lemma CalcLoveLanguagesAccepted(f: Flags, texts: LoveTexts)
    ensures CalcLoveLanguages(f, texts).Ok?
  {
    var scores := Calculate(f);
    assert forall i :: 0 <= i < 5 ==> scores[i].rank == i + 1 by {
      RankedInOrder(f);
    }
    assert forall k :: Has(scores, k) by {
      EachKeyOnce(f);
    }
    AssembleAccepted(scores, texts);
  }

  /** The items of any profile: ranked 1 to 5 in descending order of score,
      every love language once with its own score, the five-step level of
      that score, its label and the table's text. */
  lemma ItemsOfProfile(f: Flags, texts: LoveTexts)
    ensures var items := Items(Calculate(f), texts);
      && |items| == 5
      && (forall i :: 0 <= i < 5 ==> items[i].rank == i + 1)
      && (forall i, j :: 0 <= i < j < 5 ==> items[i].score >= items[j].score)
      && (forall k :: HasKey(items, k))
      && (forall i :: 0 <= i < 5 ==>
            && items[i].score == Score(f, items[i].key) && items[i].level == ToS5(items[i].score)
            && items[i].labelText == Label(items[i].key)
            && items[i].text == texts(items[i].key, items[i].level))
  {
    var scores := Calculate(f);
    var items := Items(scores, texts);
    RankedInOrder(f);
    EachKeyOnce(f);
    forall k
      ensures HasKey(items, k)
    {
      assert Has(scores, k);
      var i :| 0 <= i < 5 && scores[i].key == k;
      assert items[i].key == k;
    }
  }
}
