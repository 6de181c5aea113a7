/** The infrastructure copy of the compatibility computation. Its score and
    flavour repeat the domain calculator's comparisons and weights, its
    description lookup and match builder repeat the application service;
    each is written out again here and proved equal to that copy. */
module InfraCompatibility {
  import opened Base
  import opened TypeFlags
  import opened ScoreBuckets
  import opened StableSort
  import opened Compatibility
  import opened CompatibilityCalculator
  import CAlg = CompatibilityAlgorithm

  function Bit01(b: bool): real
  {
    if b then 1.0 else 0.0
  }

  /** The weighted sum of the eight indicators (the six similarity
      indicators first, then the two complement indicators). */
  function WeightedSum(sn: bool, tf: bool, jp: bool, ei: bool, rp: bool, oe: bool, lf: bool, ca: bool)
    : (r: real)
    ensures r == Raw(Agreement(sn, tf, jp, ei, rp, oe, lf, ca))
  {
    0.18 * Bit01(sn) + 0.16 * Bit01(tf) + 0.18 * Bit01(jp) + 0.08 * Bit01(ei)
    + 0.12 * Bit01(rp) + 0.08 * Bit01(oe) + 0.1 * Bit01(lf) + 0.1 * Bit01(ca)
  }

  /** `calcCompatScore`: six similarity indicators and two complement
      indicators, weighted and scaled to 0..100 with the `min(100, …)`
      clamp; the same score as the domain calculator for every pair. */
  function CalcCompatScore(s: Flags, o: Flags): (score: real)
    ensures score == CAlg.CalcCompatScore(s, o)
  {
    var compatRaw := WeightedSum(s.N == o.N, s.Fm == o.Fm, s.J == o.J, s.E == o.E, s.R == o.R,
                                 s.O == o.O, s.L != o.L, s.C != o.C);
    if compatRaw * 100.0 <= 100.0 then compatRaw * 100.0 else 100.0
  }

  /** The flavour rules on the indicators: four shared axes make soulmates,
      two differing complement axes partners, two shared axes with one
      differing complement axis a hybrid, anything else a magnet. */
  function FlavorOfIndicators(sn: bool, tf: bool, jp: bool, ei: bool, rp: bool, oe: bool, lf: bool, ca: bool)
    : (flavor: RelationFlavor)
    ensures var g := Agreement(sn, tf, jp, ei, rp, oe, lf, ca);
      flavor == Flavor(Similarity(g), Complement(g))
  {
    var similarityScore :=
      (if sn then 1 else 0) + (if tf then 1 else 0) + (if jp then 1 else 0)
      + (if ei then 1 else 0) + (if rp then 1 else 0) + (if oe then 1 else 0);
    var complementScore := (if lf then 1 else 0) + (if ca then 1 else 0);
    if similarityScore >= 4 then Soulmate
    else if complementScore == 2 then Partner
    else if similarityScore >= 2 && complementScore == 1 then Hybrid
    else Magnet
  }

  /** `calcRelationFlavor`: the same flavour as the domain calculator for
      every pair. */
  function CalcRelationFlavor(s: Flags, o: Flags): (flavor: RelationFlavor)
    ensures flavor == CAlg.CalcRelationFlavor(s, o)
  {
    FlavorOfIndicators(s.N == o.N, s.Fm == o.Fm, s.J == o.J, s.E == o.E, s.R == o.R,
                       s.O == o.O, s.L != o.L, s.C != o.C)
  }

  /** `getCompatibilityDescription`: the matrix entry when it is there and
      not empty, the fixed fallback sentence otherwise. */
  function GetCompatibilityDescription(table: CAlg.CompatTexts, flavor: RelationFlavor, level: string)
    : (d: string)
    ensures d == CAlg.Description(table, flavor, level)
    ensures (flavor, level) !in table ==> d == CAlg.FALLBACK_DESCRIPTION
  {
    if (flavor, level) in table && table[(flavor, level)] != "" then table[(flavor, level)]
    else CAlg.FALLBACK_DESCRIPTION
  }

  /** `buildCompatibilityDescription`: the same lookup for a finished
      match. */
  function BuildCompatibilityDescription(entry: CompatibilityMatch, table: CAlg.CompatTexts)
    : (d: string)
    ensures d == CAlg.BuildDescription(entry, table)
    ensures d == GetCompatibilityDescription(table, entry.relationFlavor, entry.level)
  {
    var flavor := entry.relationFlavor;
    var level := entry.level;
    if (flavor, level) in table && table[(flavor, level)] != "" then table[(flavor, level)]
    else CAlg.FALLBACK_DESCRIPTION
  }

  /** `buildCompatibilityMatch`: the same match, or the same error, as the
      application service; an accepted match echoes the partner codes and
      carries the ten-step level of its score. */
  function BuildCompatibilityMatch(selfMbti: string, selfLoveType: string, partnerMbti: string,
                                   partnerLoveType: string, table: CAlg.CompatTexts)
    : (r: Result<CompatibilityMatch, MatchError>)
    ensures r == CAlg.BuildMatch(selfMbti, selfLoveType, partnerMbti, partnerLoveType, table)
    ensures r.Ok? ==> && r.value.partner == CompatibilityPartner(partnerMbti, partnerLoveType)
                      && r.value.level == ToS10(r.value.score)
  {
    var selfFlags := GetFlags(selfMbti, selfLoveType);
    var otherFlags := GetFlags(partnerMbti, partnerLoveType);
    var score := CalcCompatScore(selfFlags, otherFlags);
    var level := ToS10(score);
    var relationFlavor := CalcRelationFlavor(selfFlags, otherFlags);
    var description := GetCompatibilityDescription(table, relationFlavor, level);
    CreateMatch(CompatibilityPartner(partnerMbti, partnerLoveType), score, level,
                relationFlavor, description)
  }

  /** `generateCompatibilitySummary`: the summary of the flavour that occurs
      most often among the best matches, by the same counting as the
      application service. The worst matches are not looked at. */
  method GenerateCompatibilitySummary(best: seq<CompatibilityMatch>, worst: seq<CompatibilityMatch>,
                                      flavorSummaries: CAlg.FlavorSummaries)
    returns (summary: string)
    ensures summary == flavorSummaries(CAlg.Dominant(Map(best, CAlg.FlavorOf)))
  {
    summary := CAlg.GenerateSummary(best, flavorSummaries);
  }
}
