/** The life allocation value object: five items whose percentages add up to
    about 100, and a summary. */
module LifeAllocation {
  import opened Base
  import opened ScoreBuckets
  import opened StableSort
  import opened LifeAllocationCalculator

  datatype LifeItem = LifeItem(
    key: LifeCategory, labelText: string, percent: real, level: string, text: string)

  datatype LifeAllocation = LifeAllocation(items: seq<LifeItem>, summaryText: string)

  /** What `createLifeItem` rejects, in the order it checks. */
  datatype ItemError = EmptyLabel | PercentOutOfRange | InvalidLevel | EmptyText

  /** What `createLifeAllocation` rejects, in the order it checks. */
  datatype LifeAllocationError = NotFiveItems | MissingKey(key: LifeCategory) | BadTotal | EmptySummary

  /** `LIFE_ALLOCATION_KEYS`. */
  const LIFE_ALLOCATION_KEYS: seq<string> := ["partner", "work", "friends", "family", "hobbies"]

  /** The list spells the calculator's categories in the calculator's order,
      and so holds five different names. */
  lemma KeysMatchCalculator()
    ensures |LIFE_ALLOCATION_KEYS| == 5
    ensures forall i :: 0 <= i < 5 ==> LIFE_ALLOCATION_KEYS[i] == KeyName(KeyAt(i))
    ensures forall i, j :: 0 <= i < j < 5 ==> LIFE_ALLOCATION_KEYS[i] != LIFE_ALLOCATION_KEYS[j]
  {
    forall i, j | 0 <= i < j < 5
      ensures LIFE_ALLOCATION_KEYS[i] != LIFE_ALLOCATION_KEYS[j]
    {
      KeyNameInjective(KeyAt(i), KeyAt(j));
    }
  }

  /** `LIFE_ALLOCATION_LABELS`. */
  function Label(k: LifeCategory): (name: string)
    ensures |name| > 0
  {
    match k
    case Partner => "恋人"
    case Work => "仕事"
    case Friends => "友人"
    case Family => "家族"
    case Hobbies => "趣味"
  }

  /** Each category has its own label. */
  lemma LabelInjective(a: LifeCategory, b: LifeCategory)
    requires a != b
    ensures Label(a) != Label(b)
  {
  }

  /** `createLifeItem`: label not blank, percent in 0..100, level in S1..S5,
      text not blank; label and text are stored trimmed. The key check of the
      source always passes for a key of the category type. */
  function CreateItem(key: LifeCategory, labelText: string, percent: real, level: string,
                      text: string)
    : (r: Result<LifeItem, ItemError>)
    ensures r == Err(EmptyLabel) <==> IsBlank(labelText)
    ensures r == Err(PercentOutOfRange) <==> !IsBlank(labelText) && !(0.0 <= percent <= 100.0)
    ensures r == Err(InvalidLevel) <==>
              !IsBlank(labelText) && 0.0 <= percent <= 100.0 && !IsS5Level(level)
    ensures r == Err(EmptyText) <==>
              !IsBlank(labelText) && 0.0 <= percent <= 100.0 && IsS5Level(level) && IsBlank(text)
    ensures r.Ok? ==> r.value == LifeItem(key, Trim(labelText), percent, level, Trim(text))
  {
    if IsBlank(labelText) then Err(EmptyLabel)
    else if percent < 0.0 || percent > 100.0 then Err(PercentOutOfRange)
    else if !IsS5Level(level) then Err(InvalidLevel)
    else if IsBlank(text) then Err(EmptyText)
    else Ok(LifeItem(key, Trim(labelText), percent, level, Trim(text)))
  }

  /** An accepted item is accepted again, unchanged, from its own fields. */
  lemma CreateItemIdempotent(key: LifeCategory, labelText: string, percent: real, level: string,
                             text: string)
    requires CreateItem(key, labelText, percent, level, text).Ok?
    ensures var v := CreateItem(key, labelText, percent, level, text).value;
      CreateItem(v.key, v.labelText, v.percent, v.level, v.text) == Ok(v)
  {
    TrimKeepsBlankness(labelText);
    TrimKeepsBlankness(text);
    TrimIdempotent(labelText);
    TrimIdempotent(text);
  }

  predicate HasKey(items: seq<LifeItem>, k: LifeCategory)
  {
    exists i :: 0 <= i < |items| && items[i].key == k
  }

  /** The key check: walking the key list from position `from`, the first
      category no item carries. */
  function FirstMissingKey(items: seq<LifeItem>, from: nat): (r: Outcome<LifeCategory>)
    requires from <= 5
    ensures r.Pass? <==> forall k :: from <= Index(k) ==> HasKey(items, k)
    ensures r.Fail? ==> && from <= Index(r.error) && !HasKey(items, r.error)
                        && forall k :: from <= Index(k) < Index(r.error) ==> HasKey(items, k)
    decreases 5 - from
  {
    if from == 5 then Pass
    else if !HasKey(items, KeyAt(from)) then Fail(KeyAt(from))
    else FirstMissingKey(items, from + 1)
  }

  function PercentOfItem(item: LifeItem): real
  {
    item.percent
  }

  /** The sum check: the percentages add up to 100 within one point. */
  predicate TotalOk(items: seq<LifeItem>)
  {
    var total := SumOf(items, PercentOfItem);
    -1.0 <= total - 100.0 <= 1.0
  }

  /** `createLifeAllocation`: five items, every category present, a total
      within one point of 100 and a summary that is not blank; the items are
      returned as given, in whatever order, and the summary trimmed. */
  function Create(items: seq<LifeItem>, summaryText: string)
    : (r: Result<LifeAllocation, LifeAllocationError>)
    ensures r.Ok? <==> && |items| == 5 && (forall k :: HasKey(items, k)) && TotalOk(items)
                       && !IsBlank(summaryText)
    ensures r.Ok? ==> r.value == LifeAllocation(items, Trim(summaryText))
    ensures r == Err(NotFiveItems) <==> |items| != 5
    ensures r.Err? && r.error.MissingKey? ==>
              && |items| == 5 && !HasKey(items, r.error.key)
              && forall k :: Index(k) < Index(r.error.key) ==> HasKey(items, k)
    ensures r == Err(BadTotal) ==> !TotalOk(items)
    ensures r == Err(EmptySummary) ==> IsBlank(summaryText)
  {
    if |items| != 5 then Err(NotFiveItems)
    else match FirstMissingKey(items, 0)
      case Fail(k) => Err(MissingKey(k))
      case Pass =>
        var total := SumOf(items, PercentOfItem);
        if total - 100.0 > 1.0 || total - 100.0 < -1.0 then Err(BadTotal)
        else if IsBlank(summaryText) then Err(EmptySummary)
        else Ok(LifeAllocation(items, Trim(summaryText)))
  }

  /** The check ignores the order of the items: any rearrangement of an
      accepted list is accepted too. */
  lemma CreateIgnoresOrder(items: seq<LifeItem>, other: seq<LifeItem>, summaryText: string)
    requires multiset(other) == multiset(items)
    ensures Create(other, summaryText).Ok? <==> Create(items, summaryText).Ok?
  {
    SumOfPermutation(items, other, PercentOfItem);
    assert |other| == |items| by {
      assert |multiset(other)| == |multiset(items)|;
    }
    forall k | HasKey(items, k)
      ensures HasKey(other, k)
    {
      var i :| 0 <= i < |items| && items[i].key == k;
      assert items[i] in multiset(other);
    }
    forall k | HasKey(other, k)
      ensures HasKey(items, k)
    {
      var i :| 0 <= i < |other| && other[i].key == k;
      assert other[i] in multiset(items);
    }
  }

  /** Five items that carry all five categories carry each exactly once. */
  lemma FiveKeysOnce(items: seq<LifeItem>)
    requires |items| == 5 && forall k :: HasKey(items, k)
    ensures forall i, j :: 0 <= i < j < 5 ==> items[i].key != items[j].key
  {
    assert HasKey(items, Partner) && HasKey(items, Work) && HasKey(items, Friends);
    assert HasKey(items, Family) && HasKey(items, Hobbies);
    var ip :| 0 <= ip < 5 && items[ip].key == Partner;
    var iw :| 0 <= iw < 5 && items[iw].key == Work;
    var ir :| 0 <= ir < 5 && items[ir].key == Friends;
    var im :| 0 <= im < 5 && items[im].key == Family;
    var ih :| 0 <= ih < 5 && items[ih].key == Hobbies;
    forall i, j | 0 <= i < j < 5
      ensures items[i].key != items[j].key
    {
      Cover(ip, iw, ir, im, ih, i);
      Cover(ip, iw, ir, im, ih, j);
    }
  }
}
