/** The love language value object: five ranked items and a summary. */
module LoveLanguage {
  import opened Base
  import opened ScoreBuckets
  import opened StableSort
  import opened LoveLanguageCalculator

  datatype LoveLanguageItem = LoveLanguageItem(
    key: LoveLanguageKey, labelText: string, score: real, level: string, rank: int, text: string)

  datatype LoveLanguage = LoveLanguage(items: seq<LoveLanguageItem>, summaryText: string)

  /** What `createLoveLanguageItem` rejects, in the order it checks. */
  datatype ItemError = EmptyLabel | ScoreOutOfRange | InvalidLevel | RankOutOfRange | EmptyText

  /** What `createLoveLanguage` rejects, in the order it checks. */
  datatype LoveLanguageError = NotFiveItems | MissingKey(key: LoveLanguageKey) | BadRanks | EmptySummary

  /** `LOVE_LANGUAGE_KEYS`. */
  const LOVE_LANGUAGE_KEYS: seq<string> := ["words", "time", "gifts", "service", "touch"]

  /** The list spells the calculator's keys in the calculator's order, and so
      holds five different names. */
  lemma KeysMatchCalculator()
    ensures |LOVE_LANGUAGE_KEYS| == 5
    ensures forall i :: 0 <= i < 5 ==> LOVE_LANGUAGE_KEYS[i] == KeyName(KeyAt(i))
    ensures forall i, j :: 0 <= i < j < 5 ==> LOVE_LANGUAGE_KEYS[i] != LOVE_LANGUAGE_KEYS[j]
  {
    forall i, j | 0 <= i < j < 5
      ensures LOVE_LANGUAGE_KEYS[i] != LOVE_LANGUAGE_KEYS[j]
    {
      KeyNameInjective(KeyAt(i), KeyAt(j));
    }
  }

  /** `LOVE_LANGUAGE_LABELS`. */
  function Label(k: LoveLanguageKey): (name: string)
    ensures |name| > 0
  {
    match k
    case Words => "言葉"
    case Time => "一緒に過ごす時間"
    case Gifts => "プレゼント"
    case Service => "サービス・行動"
    case Touch => "スキンシップ"
  }

  /** Each key has its own label. */
  lemma LabelInjective(a: LoveLanguageKey, b: LoveLanguageKey)
    requires a != b
    ensures Label(a) != Label(b)
  {
  }

  /** `createLoveLanguageItem`: label and text not blank, score in 0..100,
      level in S1..S5, rank in 1..5; label and text are stored trimmed. The
      key check of the source always passes for a key of the key type. */
  function CreateItem(key: LoveLanguageKey, labelText: string, score: real, level: string,
                      rank: int, text: string)
    : (r: Result<LoveLanguageItem, ItemError>)
    ensures r == Err(EmptyLabel) <==> IsBlank(labelText)
    ensures r == Err(ScoreOutOfRange) <==> !IsBlank(labelText) && !(0.0 <= score <= 100.0)
    ensures r == Err(InvalidLevel) <==>
              !IsBlank(labelText) && 0.0 <= score <= 100.0 && !IsS5Level(level)
    ensures r == Err(RankOutOfRange) <==>
              !IsBlank(labelText) && 0.0 <= score <= 100.0 && IsS5Level(level) && !(1 <= rank <= 5)
    ensures r == Err(EmptyText) <==>
              !IsBlank(labelText) && 0.0 <= score <= 100.0 && IsS5Level(level) && 1 <= rank <= 5
              && IsBlank(text)
    ensures r.Ok? ==> r.value == LoveLanguageItem(key, Trim(labelText), score, level, rank, Trim(text))
  {
    if IsBlank(labelText) then Err(EmptyLabel)
    else if score < 0.0 || score > 100.0 then Err(ScoreOutOfRange)
    else if !IsS5Level(level) then Err(InvalidLevel)
    else if rank < 1 || rank > 5 then Err(RankOutOfRange)
    else if IsBlank(text) then Err(EmptyText)
    else Ok(LoveLanguageItem(key, Trim(labelText), score, level, rank, Trim(text)))
  }

  /** An accepted item is accepted again, unchanged, from its own fields. */
  lemma CreateItemIdempotent(key: LoveLanguageKey, labelText: string, score: real, level: string,
                             rank: int, text: string)
    requires CreateItem(key, labelText, score, level, rank, text).Ok?
    ensures var v := CreateItem(key, labelText, score, level, rank, text).value;
      CreateItem(v.key, v.labelText, v.score, v.level, v.rank, v.text) == Ok(v)
  {
    TrimKeepsBlankness(labelText);
    TrimKeepsBlankness(text);
    TrimIdempotent(labelText);
    TrimIdempotent(text);
  }

  predicate HasKey(items: seq<LoveLanguageItem>, k: LoveLanguageKey)
  {
    exists i :: 0 <= i < |items| && items[i].key == k
  }

  /** The key check: walking the key list from position `from`, the first key
      no item carries. */
  function FirstMissingKey(items: seq<LoveLanguageItem>, from: nat): (r: Outcome<LoveLanguageKey>)
    requires from <= 5
    ensures r.Pass? <==> forall k :: from <= Index(k) ==> HasKey(items, k)
    ensures r.Fail? ==> && from <= Index(r.error) && !HasKey(items, r.error)
                        && forall k :: from <= Index(k) < Index(r.error) ==> HasKey(items, k)
    decreases 5 - from
  {
    if from == 5 then Pass
    else if !HasKey(items, KeyAt(from)) then Fail(KeyAt(from))
    else FirstMissingKey(items, from + 1)
  }

  function RankOf(item: LoveLanguageItem): int
  {
    item.rank
  }

  /** Ascending order of ranks, as the default `sort` leaves one-digit
      numbers. */
  function Ascending(r: int): real
  {
    -(r as real)
  }

  /** The rank check: the sorted ranks are exactly 1, 2, 3, 4, 5. */
  predicate RanksOk(items: seq<LoveLanguageItem>)
  {
    Sort(Map(items, RankOf), Ascending) == [1, 2, 3, 4, 5]
  }

  /** `createLoveLanguage`: five items, every key present, ranks 1..5 once
      each, and a summary that is not blank; the items are returned as given
      and the summary trimmed. */
  function Create(items: seq<LoveLanguageItem>, summaryText: string)
    : (r: Result<LoveLanguage, LoveLanguageError>)
    ensures r.Ok? <==> && |items| == 5 && (forall k :: HasKey(items, k)) && RanksOk(items)
                       && !IsBlank(summaryText)
    ensures r.Ok? ==> r.value == LoveLanguage(items, Trim(summaryText))
    ensures r == Err(NotFiveItems) <==> |items| != 5
    ensures r.Err? && r.error.MissingKey? ==>
              && |items| == 5 && !HasKey(items, r.error.key)
              && forall k :: Index(k) < Index(r.error.key) ==> HasKey(items, k)
    ensures r == Err(BadRanks) ==> !RanksOk(items)
    ensures r == Err(EmptySummary) ==> IsBlank(summaryText)
  {
    if |items| != 5 then Err(NotFiveItems)
    else match FirstMissingKey(items, 0)
      case Fail(k) => Err(MissingKey(k))
      case Pass =>
        if !RanksOk(items) then Err(BadRanks)
        else if IsBlank(summaryText) then Err(EmptySummary)
        else Ok(LoveLanguage(items, Trim(summaryText)))
  }

  /** The rank check accepts exactly when the ranks are 1..5 in some order:
      how the sort orders them does not matter. */
  lemma RanksOkIffPermutation(items: seq<LoveLanguageItem>)
    ensures RanksOk(items) <==> multiset(Map(items, RankOf)) == multiset{1, 2, 3, 4, 5}
  {
    var ranks := Map(items, RankOf);
    var r := Sort(ranks, Ascending);
    SortPermutation(ranks, Ascending);
    if multiset(ranks) == multiset{1, 2, 3, 4, 5} {
      SortSorted(ranks, Ascending);
      OneToFiveInOrder(r);
    } else {
      assert multiset([1, 2, 3, 4, 5]) == multiset{1, 2, 3, 4, 5};
    }
  }

  /** The only ascending arrangement of 1..5 is 1, 2, 3, 4, 5. */
  lemma OneToFiveInOrder(r: seq<int>)
    requires SortedDesc(r, Ascending)
    requires multiset(r) == multiset{1, 2, 3, 4, 5}
    ensures r == [1, 2, 3, 4, 5]
  {
    assert |r| == 5 by {
      assert |multiset(r)| == 5;
    }
    assert 1 in multiset(r) && 2 in multiset(r) && 3 in multiset(r);
    assert 4 in multiset(r) && 5 in multiset(r);
    var i1 :| 0 <= i1 < 5 && r[i1] == 1;
    var i2 :| 0 <= i2 < 5 && r[i2] == 2;
    var i3 :| 0 <= i3 < 5 && r[i3] == 3;
    var i4 :| 0 <= i4 < 5 && r[i4] == 4;
    var i5 :| 0 <= i5 < 5 && r[i5] == 5;
    assert i1 < i2 && i2 < i3 && i3 < i4 && i4 < i5;
    assert r[0] == 1 && r[1] == 2 && r[2] == 3 && r[3] == 4 && r[4] == 5;
  }

  /** Five items that carry all five keys carry each key exactly once. */
  lemma FiveKeysOnce(items: seq<LoveLanguageItem>)
    requires |items| == 5 && forall k :: HasKey(items, k)
    ensures forall i, j :: 0 <= i < j < 5 ==> items[i].key != items[j].key
  {
    assert HasKey(items, Words) && HasKey(items, Time) && HasKey(items, Gifts);
    assert HasKey(items, Service) && HasKey(items, Touch);
    var iw :| 0 <= iw < 5 && items[iw].key == Words;
    var it :| 0 <= it < 5 && items[it].key == Time;
    var ig :| 0 <= ig < 5 && items[ig].key == Gifts;
    var iv :| 0 <= iv < 5 && items[iv].key == Service;
    var iu :| 0 <= iu < 5 && items[iu].key == Touch;
    forall i, j | 0 <= i < j < 5
      ensures items[i].key != items[j].key
    {
      Cover(iw, it, ig, iv, iu, i);
      Cover(iw, it, ig, iv, iu, j);
    }
  }
}
