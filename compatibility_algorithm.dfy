/** The compatibility result: a match per partner type (score, ten-step
    level, flavour and the description for that flavour and level), and a
    summary chosen by the flavour that occurs most often among the matches. */
module CompatibilityAlgorithm {
  import opened Base
  import opened ScoreBuckets
  import opened TypeFlags
  import opened StableSort
  import opened CompatibilityCalculator
  import opened Compatibility

  /** The description matrix, an opaque lookup by flavour and level; a
      missing or empty entry is replaced by the fallback sentence. */
  type CompatTexts = map<(RelationFlavor, string), string>

  /** The flavour summaries, an opaque lookup. */
  type FlavorSummaries = RelationFlavor -> string

  const FALLBACK_DESCRIPTION: string := "この組み合わせには、まだ誰も知らない特別な化学反応が眠っているようです。"

  /** Every entry of the matrix is not blank. */
  predicate TextsNotBlank(table: CompatTexts)
  {
    forall key :: key in table ==> !IsBlank(table[key])
  }

  /** `calcCompatScore`: the calculator's score. */
  function CalcCompatScore(s: Flags, o: Flags): (score: real)
    ensures score == Raw(Compare(s, o)) * 100.0
    ensures 0.0 <= score <= 100.0
  {
    CompatibilityCalculator.Calculate(s, o).score
  }

  /** `calcRelationFlavor`: the calculator's flavour. */
  function CalcRelationFlavor(s: Flags, o: Flags): (flavor: RelationFlavor)
    ensures flavor == Flavor(Similarity(Compare(s, o)), Complement(Compare(s, o)))
  {
    CompatibilityCalculator.Calculate(s, o).relationFlavor
  }

  /** `getCompatibilityDescription`: the matrix entry when there is a
      non-empty one, and the fallback sentence otherwise; never empty. */
  function Description(table: CompatTexts, flavor: RelationFlavor, level: string): (d: string)
    ensures |d| > 0
    ensures (flavor, level) in table && table[(flavor, level)] != "" ==> d == table[(flavor, level)]
    ensures (flavor, level) !in table || table[(flavor, level)] == "" ==> d == FALLBACK_DESCRIPTION
  {
    if (flavor, level) in table && table[(flavor, level)] != "" then table[(flavor, level)]
    else FALLBACK_DESCRIPTION
  }

  /** With a matrix of non-blank entries the description is never blank. */
  lemma DescriptionNotBlank(table: CompatTexts, flavor: RelationFlavor, level: string)
    requires TextsNotBlank(table)
    ensures !IsBlank(Description(table, flavor, level))
  {
    if (flavor, level) !in table || table[(flavor, level)] == "" {
      assert !IsSpace(FALLBACK_DESCRIPTION[0]);
    }
  }

  /** `buildCompatibilityDescription`: the same lookup for a finished match. */
  function BuildDescription(entry: CompatibilityMatch, table: CompatTexts): (d: string)
    ensures d == Description(table, entry.relationFlavor, entry.level)
  {
    var flavor := entry.relationFlavor;
    var level := entry.level;
    if (flavor, level) in table && table[(flavor, level)] != "" then table[(flavor, level)]
    else FALLBACK_DESCRIPTION
  }

  /** `buildCompatibilityMatch`: score and flavour from the two codes' flags,
      the ten-step level of the score and its description, checked by
      `createCompatibilityMatch`. */
  function BuildMatch(selfMbti: string, selfLoveType: string, partnerMbti: string,
                      partnerLoveType: string, table: CompatTexts)
    : (r: Result<CompatibilityMatch, MatchError>)
    ensures r.Ok? ==> r.value.partner == CompatibilityPartner(partnerMbti, partnerLoveType)
    ensures TextsNotBlank(table) ==>
              (r.Ok? <==> |partnerMbti| == 4 && |partnerLoveType| == 4)
  {
    var selfFlags := GetFlags(selfMbti, selfLoveType);
    var otherFlags := GetFlags(partnerMbti, partnerLoveType);
    var score := CalcCompatScore(selfFlags, otherFlags);
    var level := ToS10(score);
    var relationFlavor := CalcRelationFlavor(selfFlags, otherFlags);
    var description := Description(table, relationFlavor, level);
    DescriptionNotBlankIf(table, relationFlavor, level);
    CreateMatch(CompatibilityPartner(partnerMbti, partnerLoveType), score, level,
                relationFlavor, description)
  }

  /** An accepted match carries the calculator's score and flavour for the
      two codes' flags, the ten-step level of that score and the description
      for that flavour and level. */
  lemma BuildMatchFields(selfMbti: string, selfLoveType: string, partnerMbti: string,
                         partnerLoveType: string, table: CompatTexts)
    requires BuildMatch(selfMbti, selfLoveType, partnerMbti, partnerLoveType, table).Ok?
    ensures var m := BuildMatch(selfMbti, selfLoveType, partnerMbti, partnerLoveType, table).value;
      var s := GetFlags(selfMbti, selfLoveType);
      var o := GetFlags(partnerMbti, partnerLoveType);
      && m.score == CalcCompatScore(s, o)
      && m.level == ToS10(m.score)
      && m.relationFlavor == CalcRelationFlavor(s, o)
      && m.description == Description(table, m.relationFlavor, m.level)
  {
  }

  lemma DescriptionNotBlankIf(table: CompatTexts, flavor: RelationFlavor, level: string)
    ensures TextsNotBlank(table) ==> !IsBlank(Description(table, flavor, level))
  {
    if TextsNotBlank(table) {
      DescriptionNotBlank(table, flavor, level);
    }
  }

  /** The match of a pair does not depend on which side is "self": the
      score, level and flavour of the reverse match are the same. */
  lemma BuildMatchSymmetric(m1: string, l1: string, m2: string, l2: string, table: CompatTexts)
    requires |m1| == 4 && |l1| == 4 && |m2| == 4 && |l2| == 4 && TextsNotBlank(table)
    ensures var r := BuildMatch(m1, l1, m2, l2, table);
      var q := BuildMatch(m2, l2, m1, l1, table);
      && r.Ok? && q.Ok?
      && r.value.score == q.value.score && r.value.level == q.value.level
      && r.value.relationFlavor == q.value.relationFlavor
  {
    Symmetric(GetFlags(m1, l1), GetFlags(m2, l2));
  }

  /** `Array.prototype.map` with a callback that may throw: the results in
      order, or the first element's error. */
  function MapAll<A, B, E>(xs: seq<A>, f: A -> Result<B, E>): (r: Result<seq<B>, E>)
    ensures r.Ok? ==> (&& |r.value| == |xs|
                       && forall i :: 0 <= i < |xs| ==> f(xs[i]) == Ok(r.value[i]))
    ensures r.Ok? <==> forall i :: 0 <= i < |xs| ==> f(xs[i]).Ok?
    ensures r.Err? ==> exists i :: (&& 0 <= i < |xs| && f(xs[i]) == Err(r.error)
                                   && forall j :: 0 <= j < i ==> f(xs[j]).Ok?)
  {
    if xs == [] then Ok([])
    else
      match f(xs[0])
      case Err(e) => Err(e)
      case Ok(y) =>
        match MapAll(xs[1..], f)
        case Err(e) =>
          assert forall i :: 1 <= i < |xs| ==> xs[i] == xs[1..][i - 1];
          Err(e)
        case Ok(ys) =>
          assert forall i :: 1 <= i < |xs| ==> xs[i] == xs[1..][i - 1];
          Ok([y] + ys)
  }

  /** The match for each partner, in the given order. */
  function BuildMatches(selfMbti: string, selfLoveType: string,
                        partners: seq<CompatibilityPartner>, table: CompatTexts)
    : (r: Result<seq<CompatibilityMatch>, MatchError>)
  {
    MapAll(partners, (p: CompatibilityPartner) => BuildMatch(selfMbti, selfLoveType, p.mbti, p.loveType, table))
  }

  /** How often a flavour occurs. */
  function Count(flavors: seq<RelationFlavor>, f: RelationFlavor): nat
  {
    multiset(flavors)[f]
  }

  /** The largest of the four counts. */
  function MaxCount(flavors: seq<RelationFlavor>): (m: nat)
    ensures Count(flavors, Soulmate) <= m && Count(flavors, Partner) <= m
    ensures Count(flavors, Hybrid) <= m && Count(flavors, Magnet) <= m
    ensures m == Count(flavors, Soulmate) || m == Count(flavors, Partner)
         || m == Count(flavors, Hybrid) || m == Count(flavors, Magnet)
  {
    var a := Count(flavors, Soulmate);
    var b := Count(flavors, Partner);
    var c := Count(flavors, Hybrid);
    var d := Count(flavors, Magnet);
    var ab := if a >= b then a else b;
    var cd := if c >= d then c else d;
    if ab >= cd then ab else cd
  }

  /** The flavours in the order the counter lists them. */
  function Rank(f: RelationFlavor): nat
  {
    match f
    case Soulmate => 0
    case Partner => 1
    case Hybrid => 2
    case Magnet => 3
  }

  /** The dominant flavour: the first, in the order soulmate, partner,
      hybrid, magnet, that occurs most often; hybrid when there is none. */
  function Dominant(flavors: seq<RelationFlavor>): RelationFlavor
  {
    var m := MaxCount(flavors);
    if m == 0 then Hybrid
    else if Count(flavors, Soulmate) == m then Soulmate
    else if Count(flavors, Partner) == m then Partner
    else if Count(flavors, Hybrid) == m then Hybrid
    else Magnet
  }

  /** The dominant flavour occurs at least as often as any other and more
      often than every flavour listed before it; with no matches it is
      hybrid. */
  lemma DominantIsMostFrequent(flavors: seq<RelationFlavor>)
    ensures flavors == [] ==> Dominant(flavors) == Hybrid
    ensures flavors != [] ==>
      && (forall g :: Count(flavors, g) <= Count(flavors, Dominant(flavors)))
      && (forall g :: Rank(g) < Rank(Dominant(flavors)) ==>
            Count(flavors, g) < Count(flavors, Dominant(flavors)))
  {
    if flavors != [] {
      var d := Dominant(flavors);
      assert flavors[0] in multiset(flavors);
      assert MaxCount(flavors) > 0 by {
        match flavors[0]
        case Soulmate =>
        case Partner =>
        case Hybrid =>
        case Magnet =>
      }
      forall g
        ensures Count(flavors, g) <= Count(flavors, d)
        ensures Rank(g) < Rank(d) ==> Count(flavors, g) < Count(flavors, d)
      {
        match g
        case Soulmate =>
        case Partner =>
        case Hybrid =>
        case Magnet =>
      }
    }
  }

  function FlavorOf(m: CompatibilityMatch): RelationFlavor
  {
    m.relationFlavor
  }

  /** The first loop of `generateCompatibilitySummary`: a count per flavour. */
  method CountFlavors(flavors: seq<RelationFlavor>) returns (flavorCount: map<RelationFlavor, nat>)
    ensures forall g :: g in flavorCount && flavorCount[g] == Count(flavors, g)
  {
    flavorCount := map[Soulmate := 0, Partner := 0, Hybrid := 0, Magnet := 0];
    forall g
      ensures g in flavorCount && flavorCount[g] == Count(flavors[..0], g)
    {
      assert flavors[..0] == [];
      match g
      case Soulmate =>
      case Partner =>
      case Hybrid =>
      case Magnet =>
    }
    for i := 0 to |flavors|
      invariant forall g :: g in flavorCount && flavorCount[g] == Count(flavors[..i], g)
    {
      assert flavors[..i + 1] == flavors[..i] + [flavors[i]];
      flavorCount := flavorCount[flavors[i] := flavorCount[flavors[i]] + 1];
    }
    assert flavors[..|flavors|] == flavors;
  }

  /** What the second loop leaves behind determines the dominant flavour. */
  lemma DominantOfCounts(flavors: seq<RelationFlavor>, dominant: RelationFlavor, maxCount: nat)
    requires forall g :: Count(flavors, g) <= maxCount
    requires maxCount == 0 ==> dominant == Hybrid
    requires maxCount > 0 ==> (&& Count(flavors, dominant) == maxCount
                               && forall g :: Rank(g) < Rank(dominant) ==> Count(flavors, g) < maxCount)
    ensures dominant == Dominant(flavors)
  {
    assert Rank(Soulmate) < Rank(Partner) < Rank(Hybrid) < Rank(Magnet);
  }

  /** `generateCompatibilitySummary`: count the flavours of the matches,
      then walk the four flavours keeping the first strictly larger count,
      starting from hybrid with count zero. */
  method GenerateSummary(bestMatches: seq<CompatibilityMatch>, flavorSummaries: FlavorSummaries)
    returns (summary: string)
    ensures summary == flavorSummaries(Dominant(Map(bestMatches, FlavorOf)))
  {
    var flavors := Map(bestMatches, FlavorOf);
    var flavorCount := CountFlavors(flavors);
    var order := [Soulmate, Partner, Hybrid, Magnet];
    var dominant := Hybrid;
    var maxCount: nat := 0;
    for j := 0 to 4
      invariant forall g :: Rank(g) < j ==> flavorCount[g] <= maxCount
      invariant maxCount == 0 ==> dominant == Hybrid
      invariant maxCount > 0 ==> (&& Rank(dominant) < j && flavorCount[dominant] == maxCount
                                  && forall g :: Rank(g) < Rank(dominant) ==> flavorCount[g] < maxCount)
    {
      assert Rank(order[j]) == j;
      if flavorCount[order[j]] > maxCount {
        maxCount := flavorCount[order[j]];
        dominant := order[j];
      }
    }
    DominantOfCounts(flavors, dominant, maxCount);
    summary := flavorSummaries(dominant);
  }

  /** What `buildCompatibilityResult` fails with: the first rejected match
      (thrown while mapping the partners), or the whole result rejected. */
  datatype ResultError = MatchRejected(cause: MatchError) | ResultRejected(error: CompatibilityError)

  /** `buildCompatibilityResult`: the matches for the partners, kept in the
      given order, with the summary of their dominant flavour, checked by
      `createCompatibility`. */
  function BuildResult(selfMbti: string, selfLoveType: string, bestPartners: seq<CompatibilityPartner>,
                       table: CompatTexts, flavorSummaries: FlavorSummaries)
    : (r: Result<Compatibility, ResultError>)
    ensures r.Ok? ==>
      && |r.value.bestMatches| == |bestPartners|
      && (forall i :: 0 <= i < |bestPartners| ==> r.value.bestMatches[i].partner == bestPartners[i])
      && r.value.summary == flavorSummaries(Dominant(Map(r.value.bestMatches, FlavorOf)))
  {
    match BuildMatches(selfMbti, selfLoveType, bestPartners, table)
    case Err(e) => Err(MatchRejected(e))
    case Ok(matches) =>
      match Create(matches, flavorSummaries(Dominant(Map(matches, FlavorOf))))
      case Err(e) => Err(ResultRejected(e))
      case Ok(c) => Ok(c)
  }

  /** The result is rejected for having no matches exactly when there are
      no partners. */
  lemma BuildResultEmpty(selfMbti: string, selfLoveType: string, bestPartners: seq<CompatibilityPartner>,
                         table: CompatTexts, flavorSummaries: FlavorSummaries)
    ensures (BuildResult(selfMbti, selfLoveType, bestPartners, table, flavorSummaries)
             == Err(ResultRejected(NoMatches))) <==> |bestPartners| == 0
  {
    var ms := BuildMatches(selfMbti, selfLoveType, bestPartners, table);
    if ms.Ok? {
      assert |ms.value| == |bestPartners|;
    }
  }

  /** With non-blank descriptions, a match is rejected while mapping exactly
      when some partner code does not have four characters. */
  lemma BuildResultRejectsCodes(selfMbti: string, selfLoveType: string,
                                bestPartners: seq<CompatibilityPartner>,
                                table: CompatTexts, flavorSummaries: FlavorSummaries)
    requires TextsNotBlank(table)
    ensures var r := BuildResult(selfMbti, selfLoveType, bestPartners, table, flavorSummaries);
      r.Err? && r.error.MatchRejected? <==>
        exists i :: 0 <= i < |bestPartners| &&
          (|bestPartners[i].mbti| != 4 || |bestPartners[i].loveType| != 4)
  {
    var build := (p: CompatibilityPartner) => BuildMatch(selfMbti, selfLoveType, p.mbti, p.loveType, table);
    forall i | 0 <= i < |bestPartners|
      ensures build(bestPartners[i]).Ok? <==>
                |bestPartners[i].mbti| == 4 && |bestPartners[i].loveType| == 4
    {
    }
  }

  /** With non-blank descriptions and flavour summaries, the result is
      accepted exactly when there is at least one partner and every code
      has four characters. */
  lemma BuildResultAccepts(selfMbti: string, selfLoveType: string,
                           bestPartners: seq<CompatibilityPartner>,
                           table: CompatTexts, flavorSummaries: FlavorSummaries)
    requires TextsNotBlank(table)
    requires forall f :: !IsBlank(flavorSummaries(f))
    ensures BuildResult(selfMbti, selfLoveType, bestPartners, table, flavorSummaries).Ok? <==>
      && |bestPartners| > 0
      && forall i :: 0 <= i < |bestPartners| ==>
           |bestPartners[i].mbti| == 4 && |bestPartners[i].loveType| == 4
  {
    var build := (p: CompatibilityPartner) => BuildMatch(selfMbti, selfLoveType, p.mbti, p.loveType, table);
    var ms := MapAll(bestPartners, build);
    forall i | 0 <= i < |bestPartners|
      ensures build(bestPartners[i]).Ok? <==>
                |bestPartners[i].mbti| == 4 && |bestPartners[i].loveType| == 4
    {
    }
    if ms.Ok? {
      forall i | 0 <= i < |ms.value|
        ensures MatchOk(ms.value[i])
      {
        assert build(bestPartners[i]) == Ok(ms.value[i]);
      }
    }
  }
}
