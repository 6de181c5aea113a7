/** The diagnosis use case: every calculator applied to one profile, and the
    search for the three best partners among all 256 code pairs. */
module DiagnosisUseCase {
  import opened Base
  import opened TypeFlags
  import opened StableSort
  import MbtiType
  import LoveType
  import CompatibilityCalculator
  import opened Compatibility
  import CAlg = CompatibilityAlgorithm
  import PopularityService
  import PersonalityVectorService
  import LoveLanguageService
  import LifeAllocationService
  import LifeAllocationCalculator
  import Attractiveness
  import PersonalityAxis
  import LoveLanguage
  import LifeAllocation
  import DR = DiagnosisResult

  /** The personality codes in the order the search generates them. */
  const MBTI_ORDER: seq<string> := [
    "ENFP", "ENFJ", "ENTP", "ENTJ", "ESFP", "ESFJ", "ESTP", "ESTJ",
    "INFP", "INFJ", "INTP", "INTJ", "ISFP", "ISFJ", "ISTP", "ISTJ"
  ]

  /** The love-type codes in the order the search generates them. */
  const LOVE_ORDER: seq<string> := [
    "LCPO", "LCPE", "LCRO", "LCRE", "LAPO", "LAPE", "LARO", "LARE",
    "FCPO", "FCPE", "FCRO", "FCRE", "FAPO", "FAPE", "FARO", "FARE"
  ]

  /** Every code of `mbtiTypes` with every code of `loveTypes`,
      personality-major: pair `16 * m + l` is code `m` with love type `l`. */
  function Pairs(mbtiTypes: seq<string>, loveTypes: seq<string>): (r: seq<CompatibilityPartner>)
    requires |mbtiTypes| == 16 && |loveTypes| == 16
    ensures |r| == 256
  {
    seq(256, i requires 0 <= i < 256 => CompatibilityPartner(mbtiTypes[i / 16], loveTypes[i % 16]))
  }

  /** Pair `16 * m + l` is personality code `m` with love type `l`. */
  lemma PairAt(mbtiTypes: seq<string>, loveTypes: seq<string>, m: nat, l: nat)
    requires |mbtiTypes| == 16 && |loveTypes| == 16 && m < 16 && l < 16
    ensures 16 * m + l < 256
    ensures Pairs(mbtiTypes, loveTypes)[16 * m + l] == CompatibilityPartner(mbtiTypes[m], loveTypes[l])
  {
    assert (16 * m + l) / 16 == m && (16 * m + l) % 16 == l;
  }

  /** The pairs are exactly the combinations of the two lists ... */
  lemma PairsMembers(mbtiTypes: seq<string>, loveTypes: seq<string>, p: CompatibilityPartner)
    requires |mbtiTypes| == 16 && |loveTypes| == 16
    ensures p in Pairs(mbtiTypes, loveTypes) <==> p.mbti in mbtiTypes && p.loveType in loveTypes
  {
    var r := Pairs(mbtiTypes, loveTypes);
    if p.mbti in mbtiTypes && p.loveType in loveTypes {
      var m :| 0 <= m < 16 && mbtiTypes[m] == p.mbti;
      var l :| 0 <= l < 16 && loveTypes[l] == p.loveType;
      PairAt(mbtiTypes, loveTypes, m, l);
    }
    if p in r {
      var i :| 0 <= i < 256 && r[i] == p;
      assert mbtiTypes[i / 16] == p.mbti && loveTypes[i % 16] == p.loveType;
    }
  }

  /** ... and each occurs once when neither list repeats a code. */
  lemma PairsDistinct(mbtiTypes: seq<string>, loveTypes: seq<string>)
    requires |mbtiTypes| == 16 && |loveTypes| == 16
    requires forall i, j :: 0 <= i < j < 16 ==> mbtiTypes[i] != mbtiTypes[j]
    requires forall i, j :: 0 <= i < j < 16 ==> loveTypes[i] != loveTypes[j]
    ensures forall i, j :: 0 <= i < j < 256 ==> Pairs(mbtiTypes, loveTypes)[i] != Pairs(mbtiTypes, loveTypes)[j]
  {
    var r := Pairs(mbtiTypes, loveTypes);
    forall i, j | 0 <= i < j < 256
      ensures r[i] != r[j]
    {
      assert i == 16 * (i / 16) + i % 16 && j == 16 * (j / 16) + j % 16;
      assert r[i].mbti == mbtiTypes[i / 16] && r[i].loveType == loveTypes[i % 16];
      assert r[j].mbti == mbtiTypes[j / 16] && r[j].loveType == loveTypes[j % 16];
    }
  }

  /** The nested loops of `generateAllCombinations`, pushing one pair per
      inner step. */
  method PushPairs(mbtiTypes: seq<string>, loveTypes: seq<string>)
    returns (combinations: seq<CompatibilityPartner>)
    requires |mbtiTypes| == 16 && |loveTypes| == 16
    ensures combinations == Pairs(mbtiTypes, loveTypes)
  {
    combinations := [];
    for m := 0 to 16
      invariant |combinations| == 16 * m
      invariant forall k :: 0 <= k < |combinations| ==> combinations[k] == Pairs(mbtiTypes, loveTypes)[k]
    {
      for l := 0 to 16
        invariant |combinations| == 16 * m + l
        invariant forall k :: 0 <= k < |combinations| ==> combinations[k] == Pairs(mbtiTypes, loveTypes)[k]
      {
        PairAt(mbtiTypes, loveTypes, m, l);
        combinations := combinations + [CompatibilityPartner(mbtiTypes[m], loveTypes[l])];
      }
    }
  }

  /** A pair of listed codes. */
  predicate Listed(p: CompatibilityPartner)
  {
    MbtiType.IsValid(p.mbti) && LoveType.IsValid(p.loveType)
  }

  /** Every personality code with every love type, in the generation order. */
  function AllCombinations(): (r: seq<CompatibilityPartner>)
    ensures |r| == 256
  {
    Pairs(MBTI_ORDER, LOVE_ORDER)
  }

  /** Both generation orders list exactly the listed codes. */
  lemma OrdersListed()
    ensures forall m :: MbtiType.IsValid(m) <==> m in MBTI_ORDER
    ensures forall l :: LoveType.IsValid(l) <==> l in LOVE_ORDER
  {
    forall m
      ensures MbtiType.IsValid(m) <==> m in MBTI_ORDER
    {
      MbtiType.ValidIffInAlphabets(m);
      if MbtiType.InAlphabets(m) {
        assert m == [m[0], m[1], m[2], m[3]];
      }
    }
    forall l
      ensures LoveType.IsValid(l) <==> l in LOVE_ORDER
    {
      LoveType.ValidIffInAlphabets(l);
      if LoveType.InAlphabets(l) {
        assert l == [l[0], l[1], l[2], l[3]];
      }
    }
  }

  /** Each generation order lists each code once. */
  lemma OrdersDistinct()
    ensures forall i, j :: 0 <= i < j < 16 ==> MBTI_ORDER[i] != MBTI_ORDER[j]
    ensures forall i, j :: 0 <= i < j < 16 ==> LOVE_ORDER[i] != LOVE_ORDER[j]
  {
  }

  /** The generated pairs are the 256 pairs of listed codes, each exactly
      once, starting with ENFP and LCPO and ending with ISTJ and FARE. */
  lemma CombinationsListed()
    ensures forall p :: p in AllCombinations() <==> Listed(p)
    ensures forall i, j :: 0 <= i < j < 256 ==> AllCombinations()[i] != AllCombinations()[j]
    ensures AllCombinations()[0] == CompatibilityPartner("ENFP", "LCPO")
    ensures AllCombinations()[255] == CompatibilityPartner("ISTJ", "FARE")
  {
    OrdersListed();
    OrdersDistinct();
    forall p
      ensures p in AllCombinations() <==> Listed(p)
    {
      PairsMembers(MBTI_ORDER, LOVE_ORDER, p);
    }
    PairsDistinct(MBTI_ORDER, LOVE_ORDER);
  }

  /** `generateAllCombinations`. */
  method GenerateAllCombinations() returns (combinations: seq<CompatibilityPartner>)
    ensures combinations == AllCombinations()
  {
    combinations := PushPairs(MBTI_ORDER, LOVE_ORDER);
  }

  /** A candidate with its compatibility score. */
  datatype ScoredPartner = ScoredPartner(mbti: string, loveType: string, score: real)

  function ScoreOf(s: ScoredPartner): real
  {
    s.score
  }

  /** Dropping the score. */
  function Strip(s: ScoredPartner): CompatibilityPartner
  {
    CompatibilityPartner(s.mbti, s.loveType)
  }

  /** The compatibility of a profile with a candidate pair. */
  function PartnerScore(selfFlags: Flags, p: CompatibilityPartner): real
  {
    CAlg.CalcCompatScore(selfFlags, GetFlags(p.mbti, p.loveType))
  }

  function WithScore(selfFlags: Flags, p: CompatibilityPartner): (s: ScoredPartner)
    ensures Strip(s) == p && s.score == PartnerScore(selfFlags, p)
  {
    ScoredPartner(p.mbti, p.loveType, PartnerScore(selfFlags, p))
  }

  /** Every candidate with its score, in the candidates' order. */
  function Scored(selfFlags: Flags, candidates: seq<CompatibilityPartner>): (r: seq<ScoredPartner>)
    ensures |r| == |candidates|
  {
    seq(|candidates|, i requires 0 <= i < |candidates| => WithScore(selfFlags, candidates[i]))
  }

  /** The first three candidates after the stable descending sort by score,
      without their scores. */
  function BestOf(selfFlags: Flags, candidates: seq<CompatibilityPartner>): (r: seq<CompatibilityPartner>)
    requires |candidates| >= 3
    ensures |r| == 3
  {
    Map(Sort(Scored(selfFlags, candidates), ScoreOf)[..3], Strip)
  }

  /** The search of `calculateBestPartners` over all generated pairs. */
  function BestPartners(selfMbti: string, selfLoveType: string): (r: seq<CompatibilityPartner>)
    ensures |r| == 3
  {
    BestOf(GetFlags(selfMbti, selfLoveType), AllCombinations())
  }

  /** Every sorted candidate is one of the candidates with its own score. */
  lemma SortedFromCandidates(selfFlags: Flags, candidates: seq<CompatibilityPartner>, i: nat)
    requires i < |candidates|
    ensures var x := Sort(Scored(selfFlags, candidates), ScoreOf)[i];
      Strip(x) in candidates && x.score == PartnerScore(selfFlags, Strip(x))
  {
    var s := Scored(selfFlags, candidates);
    var x := Sort(s, ScoreOf)[i];
    SortMembers(s, ScoreOf, x);
    var j :| 0 <= j < |s| && s[j] == x;
    assert Strip(x) == candidates[j];
  }

  /** Over distinct candidates: three different candidates, in non-increasing
      order of score, and no candidate left out scores higher than any of
      them. */
  lemma BestOfProperties(selfFlags: Flags, candidates: seq<CompatibilityPartner>)
    requires |candidates| >= 3
    requires forall i, j :: 0 <= i < j < |candidates| ==> candidates[i] != candidates[j]
    ensures var r := BestOf(selfFlags, candidates);
      && (forall i :: 0 <= i < 3 ==> r[i] in candidates)
      && r[0] != r[1] && r[0] != r[2] && r[1] != r[2]
      && PartnerScore(selfFlags, r[0]) >= PartnerScore(selfFlags, r[1]) >= PartnerScore(selfFlags, r[2])
      && (forall p, i :: p in candidates && p !in r && 0 <= i < 3 ==>
            PartnerScore(selfFlags, r[i]) >= PartnerScore(selfFlags, p))
  {
    var s := Scored(selfFlags, candidates);
    var sorted := Sort(s, ScoreOf);
    var r := BestOf(selfFlags, candidates);
    forall i | 0 <= i < 3
      ensures r[i] in candidates && PartnerScore(selfFlags, r[i]) == ScoreOf(sorted[i])
    {
      SortedFromCandidates(selfFlags, candidates, i);
    }
    assert DistinctBy(s, Strip) by {
      forall i, j | 0 <= i < j < |s|
        ensures Strip(s[i]) != Strip(s[j])
      {
        assert Strip(s[i]) == candidates[i] && Strip(s[j]) == candidates[j];
      }
    }
    SortDistinct(s, ScoreOf, Strip);
    assert Strip(sorted[0]) != Strip(sorted[1]) && Strip(sorted[0]) != Strip(sorted[2]);
    assert Strip(sorted[1]) != Strip(sorted[2]);
    SortSorted(s, ScoreOf);
    assert ScoreOf(sorted[0]) >= ScoreOf(sorted[1]) >= ScoreOf(sorted[2]);
    BestOfDominates(selfFlags, candidates);
  }

  /** No candidate left out scores higher than a chosen one. */
  lemma BestOfDominates(selfFlags: Flags, candidates: seq<CompatibilityPartner>)
    requires |candidates| >= 3
    ensures var r := BestOf(selfFlags, candidates);
      forall p, i :: p in candidates && p !in r && 0 <= i < 3 ==>
        PartnerScore(selfFlags, r[i]) >= PartnerScore(selfFlags, p)
  {
    var r := BestOf(selfFlags, candidates);
    forall p | p in candidates && p !in r
      ensures forall i :: 0 <= i < 3 ==> PartnerScore(selfFlags, r[i]) >= PartnerScore(selfFlags, p)
    {
      var j :| 0 <= j < |candidates| && candidates[j] == p;
      DominatesOne(selfFlags, candidates, j);
    }
  }

  lemma DominatesOne(selfFlags: Flags, candidates: seq<CompatibilityPartner>, j: nat)
    requires 3 <= |candidates| && j < |candidates|
    requires candidates[j] !in BestOf(selfFlags, candidates)
    ensures forall i :: 0 <= i < 3 ==>
      PartnerScore(selfFlags, BestOf(selfFlags, candidates)[i]) >= PartnerScore(selfFlags, candidates[j])
  {
    var s := Scored(selfFlags, candidates);
    var sorted := Sort(s, ScoreOf);
    var r := BestOf(selfFlags, candidates);
    var y := s[j];
    assert Strip(y) == candidates[j];
    assert forall k :: 0 <= k < 3 ==> Strip(sorted[..3][k]) == r[k];
    TopDominatesRest(s, ScoreOf, 3, y);
    forall i | 0 <= i < 3
      ensures PartnerScore(selfFlags, r[i]) >= PartnerScore(selfFlags, candidates[j])
    {
      SortedFromCandidates(selfFlags, candidates, i);
      assert ScoreOf(sorted[i]) >= ScoreOf(y);
    }
  }

  /** A candidate that alone reaches a score no candidate exceeds comes
      first. */
  lemma BestOfUniqueMax(selfFlags: Flags, candidates: seq<CompatibilityPartner>, k: nat, top: real)
    requires 3 <= |candidates| && k < |candidates|
    requires forall j :: 0 <= j < |candidates| ==> PartnerScore(selfFlags, candidates[j]) <= top
    requires PartnerScore(selfFlags, candidates[k]) == top
    requires forall j :: 0 <= j < |candidates| && j != k ==> PartnerScore(selfFlags, candidates[j]) != top
    ensures BestOf(selfFlags, candidates)[0] == candidates[k]
  {
    var s := Scored(selfFlags, candidates);
    FilterSingle(s, ScoreOf, top, k);
    MaxFirst(s, ScoreOf, top);
    assert Sort(s, ScoreOf)[..1][0] == s[k];
  }

  /** Three different listed pairs, in non-increasing order of score, and no
      listed pair left out scores higher than any of them. */
  lemma BestPartnersProperties(selfMbti: string, selfLoveType: string)
    ensures var r := BestPartners(selfMbti, selfLoveType);
      var f := GetFlags(selfMbti, selfLoveType);
      && (forall i :: 0 <= i < 3 ==> Listed(r[i]))
      && r[0] != r[1] && r[0] != r[2] && r[1] != r[2]
      && PartnerScore(f, r[0]) >= PartnerScore(f, r[1]) >= PartnerScore(f, r[2])
      && (forall p, i :: Listed(p) && p !in r && 0 <= i < 3 ==> PartnerScore(f, r[i]) >= PartnerScore(f, p))
  {
    CombinationsListed();
    BestOfProperties(GetFlags(selfMbti, selfLoveType), AllCombinations());
  }

  /** The love type with the lead and cuddle letters flipped. */
  function FlipLeadCuddle(loveType: string): (r: string)
    requires |loveType| == 4
    ensures |r| == 4 && r[2] == loveType[2] && r[3] == loveType[3]
    ensures r[0] != loveType[0] && r[1] != loveType[1]
  {
    [if loveType[0] == 'L' then 'F' else 'L', if loveType[1] == 'C' then 'A' else 'C',
     loveType[2], loveType[3]]
  }

  /** The pair that shares all six similarity axes with a profile and differs
      on both complement axes: the same personality code, the love type with
      lead and cuddle flipped. */
  function IdealPartner(selfMbti: string, selfLoveType: string): (p: CompatibilityPartner)
    requires LoveType.IsValid(selfLoveType)
    ensures MbtiType.IsValid(p.mbti) == MbtiType.IsValid(selfMbti) && LoveType.IsValid(p.loveType)
  {
    LoveType.ValidIffInAlphabets(selfLoveType);
    var l := FlipLeadCuddle(selfLoveType);
    LoveType.ValidIffInAlphabets(l);
    CompatibilityPartner(selfMbti, l)
  }

  /** The ideal partner scores 100 with a listed profile. */
  lemma IdealScoresFull(selfMbti: string, selfLoveType: string)
    requires MbtiType.IsValid(selfMbti) && LoveType.IsValid(selfLoveType)
    ensures PartnerScore(GetFlags(selfMbti, selfLoveType), IdealPartner(selfMbti, selfLoveType)) == 100.0
  {
    var l := selfLoveType;
    LoveType.ValidIffInAlphabets(l);
    var s := GetFlags(selfMbti, l);
    var o := GetFlags(selfMbti, FlipLeadCuddle(l));
    assert MbtiPart(s) == MbtiPart(o);
    assert s.L != o.L && s.C != o.C && s.R == o.R && s.O == o.O;
    CompatibilityCalculator.FullScoreIff(s, o);
    assert CompatibilityCalculator.Compare(s, o)
        == CompatibilityCalculator.Agreement(true, true, true, true, true, true, true, true);
  }

  /** A listed pair that scores 100 with a listed profile is its ideal
      partner. */
  lemma FullScoreIsIdeal(selfMbti: string, selfLoveType: string, p: CompatibilityPartner)
    requires MbtiType.IsValid(selfMbti) && LoveType.IsValid(selfLoveType)
    requires Listed(p)
    requires PartnerScore(GetFlags(selfMbti, selfLoveType), p) == 100.0
    ensures p == IdealPartner(selfMbti, selfLoveType)
  {
    var s := GetFlags(selfMbti, selfLoveType);
    var o := GetFlags(p.mbti, p.loveType);
    ListedCodesLegal(selfMbti, selfLoveType);
    ListedCodesLegal(p.mbti, p.loveType);
    FullAgreement(s, o);
    DecodeEncode(selfMbti, selfLoveType);
    DecodeEncode(p.mbti, p.loveType);
    MbtiOfAgrees(s, o);
    LoveOfFlipped(s, o);
  }

  /** Legal flags with the full score agree on all similarity axes and differ
      on both complement axes. */
  lemma FullAgreement(s: Flags, o: Flags)
    requires Legal(s) && Legal(o)
    requires CAlg.CalcCompatScore(s, o) == 100.0
    ensures o.E == s.E && o.N == s.N && o.Tm == s.Tm && o.J == s.J
    ensures o.L != s.L && o.C != s.C && o.R == s.R && o.O == s.O
  {
    var g := CompatibilityCalculator.Compare(s, o);
    CompatibilityCalculator.FullScoreIff(s, o);
    assert CompatibilityCalculator.Similarity(g) == 6 && CompatibilityCalculator.Complement(g) == 2;
    assert g.sn && g.tf && g.jp && g.ei && g.rp && g.oe && g.lf && g.ca;
  }

  lemma MbtiOfAgrees(s: Flags, o: Flags)
    requires o.E == s.E && o.N == s.N && o.Tm == s.Tm && o.J == s.J
    ensures MbtiOf(o) == MbtiOf(s)
  {
  }

  lemma LoveOfFlipped(s: Flags, o: Flags)
    requires o.L != s.L && o.C != s.C && o.R == s.R && o.O == s.O
    ensures LoveOf(o) == FlipLeadCuddle(LoveOf(s))
  {
    assert |LoveOf(s)| == 4 by {
      LoveType.ValidIffInAlphabets(LoveOf(s));
    }
  }

  /** Among distinct listed candidates that include it, the ideal partner
      comes first. */
  lemma BestOfIsIdeal(selfMbti: string, selfLoveType: string, candidates: seq<CompatibilityPartner>)
    requires MbtiType.IsValid(selfMbti) && LoveType.IsValid(selfLoveType)
    requires |candidates| >= 3
    requires forall i, j :: 0 <= i < j < |candidates| ==> candidates[i] != candidates[j]
    requires forall p :: p in candidates ==> Listed(p)
    requires IdealPartner(selfMbti, selfLoveType) in candidates
    ensures BestOf(GetFlags(selfMbti, selfLoveType), candidates)[0] == IdealPartner(selfMbti, selfLoveType)
  {
    var f := GetFlags(selfMbti, selfLoveType);
    var ideal := IdealPartner(selfMbti, selfLoveType);
    var k :| 0 <= k < |candidates| && candidates[k] == ideal;
    IdealScoresFull(selfMbti, selfLoveType);
    forall j | 0 <= j < |candidates| && j != k
      ensures PartnerScore(f, candidates[j]) != 100.0
    {
      if PartnerScore(f, candidates[j]) == 100.0 {
        FullScoreIsIdeal(selfMbti, selfLoveType, candidates[j]);
      }
    }
    BestOfUniqueMax(f, candidates, k, 100.0);
  }

  /** The ideal partner is always the best: the first pair the search
      returns for a listed profile. */
  lemma BestIsIdeal(selfMbti: string, selfLoveType: string)
    requires MbtiType.IsValid(selfMbti) && LoveType.IsValid(selfLoveType)
    ensures BestPartners(selfMbti, selfLoveType)[0] == IdealPartner(selfMbti, selfLoveType)
  {
    CombinationsListed();
    BestOfIsIdeal(selfMbti, selfLoveType, AllCombinations());
  }

  /** The text tables every service looks its texts up in. */
  datatype TextTables = TextTables(
    popularity: PopularityService.PopularityTexts,
    personality: PersonalityVectorService.PersonalityTexts,
    compatibility: CAlg.CompatTexts,
    flavorSummaries: CAlg.FlavorSummaries,
    loveLanguage: LoveLanguageService.LoveTexts,
    lifeAllocation: LifeAllocationService.LifeTexts)

  /** The error a step of `execute` throws, tagged with the step. */
  datatype DiagnosisError =
    | AttractivenessRejected(attractiveness: Attractiveness.AttractivenessError)
    | PersonalityRejected(personality: PersonalityAxis.AxisError)
    | CompatibilityRejected(compatibility: CAlg.ResultError)
    | LoveLanguageRejected(loveLanguage: LoveLanguage.LoveLanguageError)
    | LifeAllocationRejected(lifeAllocation: LifeAllocation.LifeAllocationError)
    | ResultRejected(result: DR.ResultError)

  /** Listed codes give legal flags, whose life allocation sums are never
      all zero. */
  lemma ListedTotalPositive(mbti: string, loveType: string)
    requires MbtiType.IsValid(mbti) && LoveType.IsValid(loveType)
    ensures LifeAllocationCalculator.Total(LifeAllocationCalculator.RawsOf(GetFlags(mbti, loveType))) > 0.0
  {
    ListedCodesLegal(mbti, loveType);
    LifeAllocationCalculator.LegalTotalPositive(GetFlags(mbti, loveType));
  }

  /** Codes that are listed once upper-cased, such as "enfj" and "fare",
      read the same flags as their upper-case forms, so their life
      allocation total is positive too. */
  lemma CaseFoldedTotalPositive(mbti: string, loveType: string)
    requires MbtiType.IsValid(Upper(mbti)) && LoveType.IsValid(Upper(loveType))
    ensures LifeAllocationCalculator.Total(LifeAllocationCalculator.RawsOf(GetFlags(mbti, loveType))) > 0.0
  {
    CaseInsensitive(mbti, loveType);
    ListedTotalPositive(Upper(mbti), Upper(loveType));
  }

  /** Four letters outside every axis alphabet set no flag, so the life
      allocation total is zero: the one case `execute` is not modelled for. */
  lemma UnlistedZeroTotal()
    ensures LifeAllocationCalculator.Total(LifeAllocationCalculator.RawsOf(GetFlags("XXXX", "XXXX"))) == 0.0
  {
    var x := "XXXX";
    assert UpperChar('X') == 'X';
    assert ParseMbti(x) == MbtiFlags(0.0, 0.0, 0.0, 0.0, 0.0, 0.0, 0.0, 0.0);
    assert ParseLoveType(x) == LoveFlags(0.0, 0.0, 0.0, 0.0, 0.0, 0.0, 0.0, 0.0);
    var f := GetFlags(x, x);
    assert f.Fm == 0.0 && f.N == 0.0 && f.C == 0.0 && f.A == 0.0 && f.Pl == 0.0 && f.J == 0.0 && f.Tm == 0.0;
    assert f.R == 0.0 && f.El == 0.0 && f.E == 0.0 && f.O == 0.0 && f.I == 0.0 && f.Pm == 0.0;
  }

  /** The aggregate of `execute` from the outcomes of its five steps, in the
      order the source runs them: the first step that throws decides the
      error; otherwise the aggregate of the five results, once validated. */
  function Compose(mbti: string, loveType: string,
                   attractiveness: Result<Attractiveness.Attractiveness, Attractiveness.AttractivenessError>,
                   personalityAxis: Result<PersonalityAxis.PersonalityAxis, PersonalityAxis.AxisError>,
                   compatibility: Result<Compatibility, CAlg.ResultError>,
                   loveLanguage: Result<LoveLanguage.LoveLanguage, LoveLanguage.LoveLanguageError>,
                   lifeAllocation: Result<LifeAllocation.LifeAllocation, LifeAllocation.LifeAllocationError>)
    : (r: Result<DR.DiagnosisResult, DiagnosisError>)
    ensures r.Ok? ==> attractiveness.Ok? && personalityAxis.Ok? && compatibility.Ok?
                      && loveLanguage.Ok? && lifeAllocation.Ok?
    ensures r.Ok? ==> r.value == DR.Create(mbti, loveType, DR.DiagnosisResults(
      Some(attractiveness.value), Some(personalityAxis.value), Some(compatibility.value),
      Some(loveLanguage.value), Some(lifeAllocation.value)))
  {
    if attractiveness.Err? then Err(AttractivenessRejected(attractiveness.error))
    else if personalityAxis.Err? then Err(PersonalityRejected(personalityAxis.error))
    else if compatibility.Err? then Err(CompatibilityRejected(compatibility.error))
    else if loveLanguage.Err? then Err(LoveLanguageRejected(loveLanguage.error))
    else if lifeAllocation.Err? then Err(LifeAllocationRejected(lifeAllocation.error))
    else
      var result := DR.Create(mbti, loveType, DR.DiagnosisResults(
        Some(attractiveness.value), Some(personalityAxis.value), Some(compatibility.value),
        Some(loveLanguage.value), Some(lifeAllocation.value)));
      var outcome := DR.Validate(result);
      if outcome.Fail? then Err(ResultRejected(outcome.error)) else Ok(result)
  }

  /** The aggregate is built exactly when every step succeeds and, for
      four-character codes, its validation never fails; the error is that of
      the first failing step. */
  lemma ComposeOutcome(mbti: string, loveType: string,
                       attractiveness: Result<Attractiveness.Attractiveness, Attractiveness.AttractivenessError>,
                       personalityAxis: Result<PersonalityAxis.PersonalityAxis, PersonalityAxis.AxisError>,
                       compatibility: Result<Compatibility, CAlg.ResultError>,
                       loveLanguage: Result<LoveLanguage.LoveLanguage, LoveLanguage.LoveLanguageError>,
                       lifeAllocation: Result<LifeAllocation.LifeAllocation, LifeAllocation.LifeAllocationError>)
    requires |mbti| == 4 && |loveType| == 4
    ensures var r := Compose(mbti, loveType, attractiveness, personalityAxis, compatibility, loveLanguage, lifeAllocation);
      && (r.Ok? <==> attractiveness.Ok? && personalityAxis.Ok? && compatibility.Ok? && loveLanguage.Ok? && lifeAllocation.Ok?)
      && (r.Ok? ==> DR.Validate(r.value).Pass?)
      && (attractiveness.Err? ==> r == Err(AttractivenessRejected(attractiveness.error)))
      && (attractiveness.Ok? && personalityAxis.Err? ==> r == Err(PersonalityRejected(personalityAxis.error)))
      && (attractiveness.Ok? && personalityAxis.Ok? && compatibility.Err? ==>
            r == Err(CompatibilityRejected(compatibility.error)))
      && (attractiveness.Ok? && personalityAxis.Ok? && compatibility.Ok? && loveLanguage.Err? ==>
            r == Err(LoveLanguageRejected(loveLanguage.error)))
      && (attractiveness.Ok? && personalityAxis.Ok? && compatibility.Ok? && loveLanguage.Ok? && lifeAllocation.Err? ==>
            r == Err(LifeAllocationRejected(lifeAllocation.error)))
  {
  }

  /** The five steps of `execute` on the given flags and partners, composed. */
  function DiagnoseWith(mbti: string, loveType: string, flags: Flags,
                        bestPartners: seq<CompatibilityPartner>, texts: TextTables)
    : Result<DR.DiagnosisResult, DiagnosisError>
    requires LifeAllocationCalculator.Total(LifeAllocationCalculator.RawsOf(flags)) != 0.0
  {
    Compose(mbti, loveType,
            PopularityService.Build(flags, texts.popularity),
            PersonalityVectorService.CalcPersonalityVector(flags, texts.personality),
            CAlg.BuildResult(mbti, loveType, bestPartners, texts.compatibility, texts.flavorSummaries),
            LoveLanguageService.CalcLoveLanguages(flags, texts.loveLanguage),
            LifeAllocationService.CalcLifeAllocation(flags, texts.lifeAllocation))
  }

  /** What `execute` computes for a listed profile: the five steps on its
      flags, the compatibility with the three best partners of the search.
      Listed codes give legal flags, so the life allocation never divides
      by zero. */
  function Diagnose(mbti: string, loveType: string, texts: TextTables): Result<DR.DiagnosisResult, DiagnosisError>
    requires MbtiType.IsValid(mbti) && LoveType.IsValid(loveType)
  {
    ListedTotalPositive(mbti, loveType);
    DiagnoseWith(mbti, loveType, GetFlags(mbti, loveType), BestPartners(mbti, loveType), texts)
  }

  /** Listed codes have four characters. */
  lemma ListedLengths(p: CompatibilityPartner)
    requires Listed(p)
    ensures |p.mbti| == 4 && |p.loveType| == 4
  {
    MbtiType.ValidIffInAlphabets(p.mbti);
    LoveType.ValidIffInAlphabets(p.loveType);
  }

  /** The compatibility step of a listed profile: with non-blank
      descriptions and flavour summaries it is accepted, with a match for
      each of the three best partners in the order of the search. */
  lemma CompatibilityStepAccepted(mbti: string, loveType: string, texts: TextTables)
    requires CAlg.TextsNotBlank(texts.compatibility)
    requires forall f :: !IsBlank(texts.flavorSummaries(f))
    ensures var bestPartners := BestPartners(mbti, loveType);
      var c := CAlg.BuildResult(mbti, loveType, bestPartners, texts.compatibility, texts.flavorSummaries);
      && c.Ok?
      && |c.value.bestMatches| == 3
      && (forall i :: 0 <= i < 3 ==> c.value.bestMatches[i].partner == bestPartners[i])
  {
    var bestPartners := BestPartners(mbti, loveType);
    BestPartnersProperties(mbti, loveType);
    forall i | 0 <= i < 3
      ensures |bestPartners[i].mbti| == 4 && |bestPartners[i].loveType| == 4
    {
      ListedLengths(bestPartners[i]);
    }
    CAlg.BuildResultAccepts(mbti, loveType, bestPartners, texts.compatibility, texts.flavorSummaries);
  }

  /** On any flags whose life-allocation total is not zero, and codes of
      four characters, only the attractiveness and compatibility steps can
      fail: the personality, love-language and life-allocation steps always
      succeed and the aggregate always passes validation. */
  lemma DiagnoseWithErrors(mbti: string, loveType: string, flags: Flags,
                           bestPartners: seq<CompatibilityPartner>, texts: TextTables)
    requires LifeAllocationCalculator.Total(LifeAllocationCalculator.RawsOf(flags)) != 0.0
    requires |mbti| == 4 && |loveType| == 4
    ensures var r := DiagnoseWith(mbti, loveType, flags, bestPartners, texts);
      && (r.Err? ==> r.error.AttractivenessRejected? || r.error.CompatibilityRejected?)
      && (r.Ok? <==> PopularityService.Build(flags, texts.popularity).Ok?
                     && CAlg.BuildResult(mbti, loveType, bestPartners, texts.compatibility, texts.flavorSummaries).Ok?)
      && (r.Ok? ==> DR.Validate(r.value).Pass?)
  {
    StepsAccepted(flags, texts);
    ComposeWithStepsOk(mbti, loveType,
                       PopularityService.Build(flags, texts.popularity),
                       PersonalityVectorService.CalcPersonalityVector(flags, texts.personality),
                       CAlg.BuildResult(mbti, loveType, bestPartners, texts.compatibility, texts.flavorSummaries),
                       LoveLanguageService.CalcLoveLanguages(flags, texts.loveLanguage),
                       LifeAllocationService.CalcLifeAllocation(flags, texts.lifeAllocation));
  }

  /** `ComposeOutcome` when the personality, love-language and
      life-allocation steps succeeded. */
  lemma ComposeWithStepsOk(mbti: string, loveType: string,
                           attractiveness: Result<Attractiveness.Attractiveness, Attractiveness.AttractivenessError>,
                           personalityAxis: Result<PersonalityAxis.PersonalityAxis, PersonalityAxis.AxisError>,
                           compatibility: Result<Compatibility, CAlg.ResultError>,
                           loveLanguage: Result<LoveLanguage.LoveLanguage, LoveLanguage.LoveLanguageError>,
                           lifeAllocation: Result<LifeAllocation.LifeAllocation, LifeAllocation.LifeAllocationError>)
    requires |mbti| == 4 && |loveType| == 4
    requires personalityAxis.Ok? && loveLanguage.Ok? && lifeAllocation.Ok?
    ensures var r := Compose(mbti, loveType, attractiveness, personalityAxis, compatibility, loveLanguage, lifeAllocation);
      && (r.Err? ==> r.error.AttractivenessRejected? || r.error.CompatibilityRejected?)
      && (r.Ok? <==> attractiveness.Ok? && compatibility.Ok?)
      && (r.Ok? ==> DR.Validate(r.value).Pass?)
  {
    ComposeOutcome(mbti, loveType, attractiveness, personalityAxis, compatibility, loveLanguage, lifeAllocation);
  }

  /** The personality, love-language and life-allocation steps succeed on
      any flags whose life-allocation total is not zero, whatever the text
      tables hold. */
  lemma StepsAccepted(flags: Flags, texts: TextTables)
    requires LifeAllocationCalculator.Total(LifeAllocationCalculator.RawsOf(flags)) != 0.0
    ensures PersonalityVectorService.CalcPersonalityVector(flags, texts.personality).Ok?
    ensures LoveLanguageService.CalcLoveLanguages(flags, texts.loveLanguage).Ok?
    ensures LifeAllocationService.CalcLifeAllocation(flags, texts.lifeAllocation).Ok?
  {
    PersonalityVectorService.VectorProperties(flags, texts.personality);
    LoveLanguageService.CalcLoveLanguagesAccepted(flags, texts.loveLanguage);
    LifeAllocationService.CalcLifeAllocationAccepted(flags, texts.lifeAllocation);
  }

  /** For a listed profile only the attractiveness texts and the
      compatibility step can stop `execute`: the personality, love-language
      and life-allocation steps always succeed, and the aggregate of four-
      character codes always passes validation. */
  lemma DiagnoseErrors(mbti: string, loveType: string, texts: TextTables)
    requires MbtiType.IsValid(mbti) && LoveType.IsValid(loveType)
    ensures var r := Diagnose(mbti, loveType, texts);
      r.Err? ==> r.error.AttractivenessRejected? || r.error.CompatibilityRejected?
  {
    ListedTotalPositive(mbti, loveType);
    ListedLengths(CompatibilityPartner(mbti, loveType));
    DiagnoseWithErrors(mbti, loveType, GetFlags(mbti, loveType), BestPartners(mbti, loveType), texts);
  }

  /** With text tables that cover every level with non-blank texts,
      `execute` succeeds for every listed profile: the aggregate carries the
      two codes, passes validation, and its compatibility holds a match for
      each of the three best partners, the ideal partner first. */
  lemma DiagnoseAccepted(mbti: string, loveType: string, texts: TextTables)
    requires MbtiType.IsValid(mbti) && LoveType.IsValid(loveType)
    requires PopularityService.Covers(texts.popularity)
    requires CAlg.TextsNotBlank(texts.compatibility)
    requires forall f :: !IsBlank(texts.flavorSummaries(f))
    ensures Diagnose(mbti, loveType, texts).Ok?
    ensures var v := Diagnose(mbti, loveType, texts).value;
      && v.mbti == mbti && v.loveType == loveType
      && DR.Validate(v).Pass?
      && v.results.Some? && v.results.value.compatibility.Some?
      && |v.results.value.compatibility.value.bestMatches| == 3
      && (forall i :: 0 <= i < 3 ==>
            v.results.value.compatibility.value.bestMatches[i].partner == BestPartners(mbti, loveType)[i])
      && v.results.value.compatibility.value.bestMatches[0].partner == IdealPartner(mbti, loveType)
  {
    ListedTotalPositive(mbti, loveType);
    ListedLengths(CompatibilityPartner(mbti, loveType));
    CompatibilityStepAccepted(mbti, loveType, texts);
    DiagnoseWithErrors(mbti, loveType, GetFlags(mbti, loveType), BestPartners(mbti, loveType), texts);
    BestIsIdeal(mbti, loveType);
  }

  /** The use case. It holds no state; its steps allocate what they change. */
  class CreateDiagnosisUseCase {

    /** `calculateBestPartners`: score every generated pair, sort the scored
        array in place in descending order, keep the first three pairs. */
    method CalculateBestPartners(selfMbti: string, selfLoveType: string)
      returns (best: seq<CompatibilityPartner>)
      ensures best == BestPartners(selfMbti, selfLoveType)
    {
      var selfFlags := GetFlags(selfMbti, selfLoveType);
      var all := GenerateAllCombinations();
      var scored := new ScoredPartner[|all|](i requires 0 <= i < |all| => WithScore(selfFlags, all[i]));
      assert scored[..] == Scored(selfFlags, all);
      SortInPlace(scored, ScoreOf);
      best := Map(scored[..3], Strip);
    }

    /** `execute`: the flags, then the five results in order, the aggregate
        and its validation; the first step that throws decides the error.
        The codes are whatever the caller passes (the request check looks
        only at their length); only the all-zero life-allocation total,
        where the source divides by zero, is excluded. For listed codes the
        outcome is `Diagnose`. */
    method Execute(mbti: string, loveType: string, texts: TextTables)
      returns (r: Result<DR.DiagnosisResult, DiagnosisError>)
      requires LifeAllocationCalculator.Total(LifeAllocationCalculator.RawsOf(GetFlags(mbti, loveType))) != 0.0
      ensures r == DiagnoseWith(mbti, loveType, GetFlags(mbti, loveType), BestPartners(mbti, loveType), texts)
      ensures MbtiType.IsValid(mbti) && LoveType.IsValid(loveType) ==> r == Diagnose(mbti, loveType, texts)
    {
      var bestPartners := CalculateBestPartners(mbti, loveType);
      r := ExecuteSteps(mbti, loveType, GetFlags(mbti, loveType), bestPartners, texts);
    }

    method ExecuteSteps(mbti: string, loveType: string, flags: Flags,
                        bestPartners: seq<CompatibilityPartner>, texts: TextTables)
      returns (r: Result<DR.DiagnosisResult, DiagnosisError>)
      requires LifeAllocationCalculator.Total(LifeAllocationCalculator.RawsOf(flags)) != 0.0
      ensures r == DiagnoseWith(mbti, loveType, flags, bestPartners, texts)
    {
      var attractiveness := PopularityService.Build(flags, texts.popularity);
      if attractiveness.Err? {
        return Err(AttractivenessRejected(attractiveness.error));
      }
      var personalityAxis := PersonalityVectorService.CalcPersonalityVector(flags, texts.personality);
      if personalityAxis.Err? {
        return Err(PersonalityRejected(personalityAxis.error));
      }
      var compatibility := CAlg.BuildResult(mbti, loveType, bestPartners,
                                            texts.compatibility, texts.flavorSummaries);
      if compatibility.Err? {
        return Err(CompatibilityRejected(compatibility.error));
      }
      var loveLanguage := LoveLanguageService.CalcLoveLanguages(flags, texts.loveLanguage);
      if loveLanguage.Err? {
        return Err(LoveLanguageRejected(loveLanguage.error));
      }
      var lifeAllocation := LifeAllocationService.CalcLifeAllocation(flags, texts.lifeAllocation);
      if lifeAllocation.Err? {
        return Err(LifeAllocationRejected(lifeAllocation.error));
      }
      var result := DR.Create(mbti, loveType, DR.DiagnosisResults(
        Some(attractiveness.value), Some(personalityAxis.value), Some(compatibility.value),
        Some(loveLanguage.value), Some(lifeAllocation.value)));
      var outcome := DR.Validate(result);
      if outcome.Fail? {
        return Err(ResultRejected(outcome.error));
      }
      return Ok(result);
    }
  }
}
