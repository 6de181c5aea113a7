/** The life allocation calculator: five weighted sums, each turned into its
    share of their total in percent, sorted in descending order. */
module LifeAllocationCalculator {
  import opened TypeFlags
  import opened StableSort

  datatype LifeCategory = Partner | Work | Friends | Family | Hobbies

  /** The position of each category in the listed order. */
  function Index(k: LifeCategory): (i: nat)
    ensures i < 5
  {
    match k
    case Partner => 0
    case Work => 1
    case Friends => 2
    case Family => 3
    case Hobbies => 4
  }

  function KeyAt(i: nat): (k: LifeCategory)
    requires i < 5
    ensures Index(k) == i
  {
    if i == 0 then Partner else if i == 1 then Work else if i == 2 then Friends
    else if i == 3 then Family else Hobbies
  }

  /** The category as the wire format spells it. */
  function KeyName(k: LifeCategory): (name: string)
    ensures |name| > 0 && 'a' <= name[0] <= 'z'
  {
    match k
    case Partner => "partner"
    case Work => "work"
    case Friends => "friends"
    case Family => "family"
    case Hobbies => "hobbies"
  }

  /** Different categories have different names. */
  lemma KeyNameInjective(a: LifeCategory, b: LifeCategory)
    requires a != b
    ensures KeyName(a) != KeyName(b)
  {
  }

  datatype LifeAllocationScore = LifeAllocationScore(key: LifeCategory, percent: real)

  function PercentOf(item: LifeAllocationScore): real
  {
    item.percent
  }

  function KeyOf(item: LifeAllocationScore): LifeCategory
  {
    item.key
  }

  /** The five weighted sums, one per category. */
  datatype Raws = Raws(partner: real, work: real, friends: real, family: real, hobbies: real)

  /** The weighted sums of a profile; every weight set adds up to one, so
      each sum lies in 0..1 for 0/1 flags. */
  function RawsOf(f: Flags): (g: Raws)
    ensures Nonnegative(g)
    ensures g.partner <= 1.0 && g.work <= 1.0 && g.friends <= 1.0 && g.family <= 1.0
    ensures g.hobbies <= 1.0
  {
    Raws(
      0.35 * f.Fm + 0.25 * f.N + 0.20 * f.C + 0.15 * f.A + 0.05 * f.Pl,
      0.40 * f.J + 0.30 * f.Tm + 0.20 * f.R + 0.10 * f.El,
      0.50 * f.E + 0.30 * f.N + 0.20 * f.O,
      0.35 * f.Fm + 0.35 * f.J + 0.30 * f.El,
      0.35 * f.I + 0.35 * f.N + 0.20 * f.Pm + 0.10 * f.O)
  }

  predicate Nonnegative(g: Raws)
  {
    g.partner >= 0.0 && g.work >= 0.0 && g.friends >= 0.0 && g.family >= 0.0 && g.hobbies >= 0.0
  }

  function RawOf(g: Raws, k: LifeCategory): real
  {
    match k
    case Partner => g.partner
    case Work => g.work
    case Friends => g.friends
    case Family => g.family
    case Hobbies => g.hobbies
  }

  /** `sumRaw`. */
  function Total(g: Raws): real
  {
    g.partner + g.work + g.friends + g.family + g.hobbies
  }

  /** For the flags of any listed code, extraversion or introversion is
      set, so the friends or the hobbies sum is at least 0.35 and no division
      by zero occurs. */
  lemma LegalTotalPositive(f: Flags)
    requires Legal(f)
    ensures Total(RawsOf(f)) >= 0.35
  {
  }

  /** The sums the division accepts: none negative, total not zero. */
  predicate Divisible(g: Raws)
  {
    Nonnegative(g) && Total(g) != 0.0
  }

  /** A category's share of the total, in percent. */
  function Percent(g: Raws, k: LifeCategory): (p: real)
    requires Divisible(g)
    ensures 0.0 <= p <= 100.0
  {
    Share(RawOf(g, k), Total(g)) * 100.0
  }

  function Share(part: real, total: real): (q: real)
    requires 0.0 <= part <= total && total != 0.0
    ensures 0.0 <= q <= 1.0
  {
    part / total
  }

  /** The items before sorting, in the listed order. */
  function Items(g: Raws): (r: seq<LifeAllocationScore>)
    requires Divisible(g)
    ensures |r| == 5
    ensures forall i :: 0 <= i < 5 ==> r[i].key == KeyAt(i) && r[i].percent == Percent(g, r[i].key)
  {
    seq(5, i requires 0 <= i < 5 => LifeAllocationScore(KeyAt(i), Percent(g, KeyAt(i))))
  }

  /** The percentages of a profile, sorted. */
  function Sorted(g: Raws): (items: seq<LifeAllocationScore>)
    requires Divisible(g)
    ensures |items| == 5
  {
    Sort(Items(g), PercentOf)
  }

  /** `calculateLifeAllocationScores`, as a value: the stable sort by
      descending percentage. */
  function Calculate(f: Flags): (items: seq<LifeAllocationScore>)
    requires Total(RawsOf(f)) != 0.0
    ensures |items| == 5
  {
    Sorted(RawsOf(f))
  }

  /** The computation as the source performs it: the weighted sums, then
      the item array sorted in place. */
  method CalculateScores(f: Flags) returns (items: seq<LifeAllocationScore>)
    requires Total(RawsOf(f)) != 0.0
    ensures items == Calculate(f)
  {
    var g := RawsOf(f);
    items := SortItems(g);
  }

  method SortItems(g: Raws) returns (items: seq<LifeAllocationScore>)
    requires Divisible(g)
    ensures items == Sorted(g)
  {
    var initial := Items(g);
    var a := new LifeAllocationScore[5](i requires 0 <= i < 5 => initial[i]);
    assert a[..] == initial;
    SortInPlace(a, PercentOf);
    items := a[..];
  }

  /** The percentages add up to exactly 100. */
  lemma SumIsHundred(g: Raws)
    requires Divisible(g)
    ensures SumOf(Sorted(g), PercentOf) == 100.0
  {
    var s := Items(g);
    SumOfSort(s, PercentOf, PercentOf);
    SumOfFive(s, PercentOf);
    assert s[0].key == Partner && s[1].key == Work && s[2].key == Friends;
    assert s[3].key == Family && s[4].key == Hobbies;
    SharesAddUp(g.partner, g.work, g.friends, g.family, g.hobbies);
  }

  lemma SumOfFive<T>(s: seq<T>, g: T -> real)
    requires |s| == 5
    ensures SumOf(s, g) == g(s[0]) + g(s[1]) + g(s[2]) + g(s[3]) + g(s[4])
  {
    assert SumOf(s[4..], g) == g(s[4]) + SumOf(s[4..][1..], g);
    assert s[4..][1..] == [];
    assert SumOf(s[3..], g) == g(s[3]) + SumOf(s[3..][1..], g);
    assert s[3..][1..] == s[4..];
    assert SumOf(s[2..], g) == g(s[2]) + SumOf(s[2..][1..], g);
    assert s[2..][1..] == s[3..];
    assert SumOf(s[1..], g) == g(s[1]) + SumOf(s[1..][1..], g);
    assert s[1..][1..] == s[2..];
  }

  lemma SharesAddUp(a: real, b: real, c: real, d: real, e: real)
    requires 0.0 <= a && 0.0 <= b && 0.0 <= c && 0.0 <= d && 0.0 <= e
    requires a + b + c + d + e != 0.0
    ensures var t := a + b + c + d + e;
      Share(a, t) * 100.0 + Share(b, t) * 100.0 + Share(c, t) * 100.0
      + Share(d, t) * 100.0 + Share(e, t) * 100.0 == 100.0
  {
    var t := a + b + c + d + e;
    assert a / t + b / t + c / t + d / t + e / t == t / t;
  }

  /** The items are in descending order of percentage. */
  lemma InOrder(g: Raws)
    requires Divisible(g)
    ensures var items := Sorted(g);
      forall i, j :: 0 <= i < j < 5 ==> items[i].percent >= items[j].percent
  {
    var sorted := Sorted(g);
    SortSorted(Items(g), PercentOf);
    assert forall i, j :: 0 <= i < j < 5 ==> PercentOf(sorted[i]) >= PercentOf(sorted[j]);
  }

  /** Whether some item carries category `k`. */
  predicate Has(items: seq<LifeAllocationScore>, k: LifeCategory)
  {
    exists i :: 0 <= i < |items| && items[i].key == k
  }

  /** Every category appears exactly once, with its own percentage. */
  lemma EachKeyOnce(g: Raws)
    requires Divisible(g)
    ensures var items := Sorted(g);
      && DistinctBy(items, KeyOf)
      && (forall k :: Has(items, k))
      && (forall i :: 0 <= i < 5 ==> items[i].percent == Percent(g, items[i].key))
  {
    var initial := Items(g);
    var items := Sorted(g);
    ItemsDistinct(g);
    SortDistinct(initial, PercentOf, KeyOf);
    forall i | 0 <= i < 5
      ensures items[i].percent == Percent(g, items[i].key)
    {
      SortMembers(initial, PercentOf, items[i]);
    }
    forall k
      ensures Has(items, k)
    {
      var y := initial[Index(k)];
      SortMembers(initial, PercentOf, y);
      var i :| 0 <= i < 5 && items[i] == y;
    }
  }

  lemma ItemsDistinct(g: Raws)
    requires Divisible(g)
    ensures DistinctBy(Items(g), KeyOf)
  {
    var r := Items(g);
    forall i, j | 0 <= i < j < |r|
      ensures KeyOf(r[i]) != KeyOf(r[j])
    {
      assert Index(KeyOf(r[i])) == i && Index(KeyOf(r[j])) == j;
    }
  }

  /** Equal percentages keep the listed order of the categories. */
  lemma TiesKeepListedOrder(g: Raws, v: real)
    requires Divisible(g)
    ensures Filter(Sorted(g), PercentOf, v) == Filter(Items(g), PercentOf, v)
  {
    SortStable(Items(g), PercentOf, v);
  }

  /** The order of the percentages is the order of the raw sums. */
  lemma OrderOfRaw(g: Raws, k1: LifeCategory, k2: LifeCategory)
    requires Divisible(g)
    ensures Percent(g, k1) >= Percent(g, k2) <==> RawOf(g, k1) >= RawOf(g, k2)
  {
    ShareMonotone(RawOf(g, k1), RawOf(g, k2), Total(g));
  }

  lemma ShareMonotone(a: real, b: real, t: real)
    requires t > 0.0 && 0.0 <= a <= t && 0.0 <= b <= t
    ensures Share(a, t) >= Share(b, t) <==> a >= b
  {
    var qa, qb := Share(a, t), Share(b, t);
    assert qa * t == a && qb * t == b;
    assert (qa - qb) * t == a - b;
    MulSign(qa - qb, t);
  }

  lemma MulSign(x: real, t: real)
    requires t > 0.0
    ensures x >= 0.0 <==> x * t >= 0.0
  {
  }

  /** ENFJ with FARE: family 1.00, friends 0.80, partner 0.75, work 0.70,
      hobbies 0.35 of a total of 3.6. */
  lemma EnfjFare()
    ensures RawsOf(GetFlags("ENFJ", "FARE")) == Raws(0.75, 0.70, 0.80, 1.0, 0.35)
    ensures Calculate(GetFlags("ENFJ", "FARE"))
         == [LifeAllocationScore(Family, 100.0 / 3.6), LifeAllocationScore(Friends, 80.0 / 3.6),
             LifeAllocationScore(Partner, 75.0 / 3.6), LifeAllocationScore(Work, 70.0 / 3.6),
             LifeAllocationScore(Hobbies, 35.0 / 3.6)]
  {
    EnfjFareFlags();
    EnfjFareSorted();
  }

  lemma EnfjFareSorted()
    ensures Sorted(Raws(0.75, 0.70, 0.80, 1.0, 0.35))
         == [LifeAllocationScore(Family, 100.0 / 3.6), LifeAllocationScore(Friends, 80.0 / 3.6),
             LifeAllocationScore(Partner, 75.0 / 3.6), LifeAllocationScore(Work, 70.0 / 3.6),
             LifeAllocationScore(Hobbies, 35.0 / 3.6)]
  {
    var s := Items(Raws(0.75, 0.70, 0.80, 1.0, 0.35));
    var p, w, fr, fa, h := s[0], s[1], s[2], s[3], s[4];
    assert p == LifeAllocationScore(Partner, 75.0 / 3.6) && w == LifeAllocationScore(Work, 70.0 / 3.6);
    assert fr == LifeAllocationScore(Friends, 80.0 / 3.6);
    assert fa == LifeAllocationScore(Family, 100.0 / 3.6);
    assert h == LifeAllocationScore(Hobbies, 35.0 / 3.6);
    InsertAt(w, [p], 1, PercentOf);
    assert [p][..1] + [w] + [p][1..] == [p, w];
    InsertAt(fr, [p, w], 0, PercentOf);
    assert [p, w][..0] + [fr] + [p, w][0..] == [fr, p, w];
    InsertAt(fa, [fr, p, w], 0, PercentOf);
    assert [fr, p, w][..0] + [fa] + [fr, p, w][0..] == [fa, fr, p, w];
    InsertAt(h, [fa, fr, p, w], 4, PercentOf);
    assert [fa, fr, p, w][..4] + [h] + [fa, fr, p, w][4..] == [fa, fr, p, w, h];
    SortSteps(s, [p, w], [fr, p, w], [fa, fr, p, w], [fa, fr, p, w, h]);
  }

  /** INTJ with LCRO: work 0.9, hobbies 0.8, friends 0.5, partner 0.45,
      family 0.35 of a total of 3.0, so work takes 30 percent. */
  lemma IntjLcro()
    ensures RawsOf(GetFlags("INTJ", "LCRO")) == Raws(0.45, 0.90, 0.50, 0.35, 0.80)
    ensures Calculate(GetFlags("INTJ", "LCRO"))
         == [LifeAllocationScore(Work, 30.0), LifeAllocationScore(Hobbies, 80.0 / 3.0),
             LifeAllocationScore(Friends, 50.0 / 3.0), LifeAllocationScore(Partner, 15.0),
             LifeAllocationScore(Family, 35.0 / 3.0)]
  {
    IntjLcroFlags();
    IntjLcroSorted();
  }

  lemma IntjLcroSorted()
    ensures Sorted(Raws(0.45, 0.90, 0.50, 0.35, 0.80))
         == [LifeAllocationScore(Work, 30.0), LifeAllocationScore(Hobbies, 80.0 / 3.0),
             LifeAllocationScore(Friends, 50.0 / 3.0), LifeAllocationScore(Partner, 15.0),
             LifeAllocationScore(Family, 35.0 / 3.0)]
  {
    var s := Items(Raws(0.45, 0.90, 0.50, 0.35, 0.80));
    var p, w, fr, fa, h := s[0], s[1], s[2], s[3], s[4];
    assert p == LifeAllocationScore(Partner, 15.0) && w == LifeAllocationScore(Work, 30.0);
    assert fr == LifeAllocationScore(Friends, 50.0 / 3.0);
    assert fa == LifeAllocationScore(Family, 35.0 / 3.0);
    assert h == LifeAllocationScore(Hobbies, 80.0 / 3.0);
    InsertAt(w, [p], 0, PercentOf);
    assert [p][..0] + [w] + [p][0..] == [w, p];
    InsertAt(fr, [w, p], 1, PercentOf);
    assert [w, p][..1] + [fr] + [w, p][1..] == [w, fr, p];
    InsertAt(fa, [w, fr, p], 3, PercentOf);
    assert [w, fr, p][..3] + [fa] + [w, fr, p][3..] == [w, fr, p, fa];
    InsertAt(h, [w, fr, p, fa], 1, PercentOf);
    assert [w, fr, p, fa][..1] + [h] + [w, fr, p, fa][1..] == [w, h, fr, p, fa];
    SortSteps(s, [w, p], [w, fr, p], [w, fr, p, fa], [w, h, fr, p, fa]);
  }

  /** The insertion sort of five items, one insertion at a time. */
  lemma SortSteps(s: seq<LifeAllocationScore>, t1: seq<LifeAllocationScore>,
                  t2: seq<LifeAllocationScore>, t3: seq<LifeAllocationScore>,
                  r: seq<LifeAllocationScore>)
    requires |s| == 5
    requires Insert(s[1], [s[0]], PercentOf) == t1 && Insert(s[2], t1, PercentOf) == t2
    requires Insert(s[3], t2, PercentOf) == t3 && Insert(s[4], t3, PercentOf) == r
    ensures Sort(s, PercentOf) == r
  {
    assert s[..0] == [];
    SortSnoc(s, PercentOf, 0);
    assert Sort(s[..1], PercentOf) == [s[0]];
    SortSnoc(s, PercentOf, 1);
    SortSnoc(s, PercentOf, 2);
    SortSnoc(s, PercentOf, 3);
    SortSnoc(s, PercentOf, 4);
    assert s[..5] == s;
  }
}
