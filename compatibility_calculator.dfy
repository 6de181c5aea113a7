/** The compatibility calculator: six axes where sameness helps, two where
    difference helps, weighted into a 0..100 score and classified into one of
    four relation flavours. */
module CompatibilityCalculator {
  import opened TypeFlags

  datatype RelationFlavor = Soulmate | Partner | Hybrid | Magnet

  datatype CompatibilityScore = CompatibilityScore(score: real, relationFlavor: RelationFlavor)

  /** Which of the eight compared axes favour the pair: sameness on the six
      similarity axes (intuition, feeling, judging, extraversion, realism,
      optimism), difference on the two complement axes (lead, cuddliness). */
  datatype Agreement = Agreement(
    sn: bool, tf: bool, jp: bool, ei: bool, rp: bool, oe: bool, lf: bool, ca: bool)

  function Compare(s: Flags, o: Flags): Agreement
  {
    Agreement(s.N == o.N, s.Fm == o.Fm, s.J == o.J, s.E == o.E, s.R == o.R, s.O == o.O,
              s.L != o.L, s.C != o.C)
  }

  function One(b: bool): int
  {
    if b then 1 else 0
  }

  /** How many similarity axes the pair shares. */
  function Similarity(g: Agreement): (n: int)
    ensures 0 <= n <= 6
  {
    One(g.sn) + One(g.tf) + One(g.jp) + One(g.ei) + One(g.rp) + One(g.oe)
  }

  /** On how many complement axes the pair differs. */
  function Complement(g: Agreement): (n: int)
    ensures 0 <= n <= 2
  {
    One(g.lf) + One(g.ca)
  }

  /** The weighted sum; the eight weights add up to one. */
  function Raw(g: Agreement): (r: real)
    ensures 0.0 <= r <= 1.0
  {
    0.18 * One(g.sn) as real + 0.16 * One(g.tf) as real + 0.18 * One(g.jp) as real
    + 0.08 * One(g.ei) as real + 0.12 * One(g.rp) as real + 0.08 * One(g.oe) as real
    + 0.1 * One(g.lf) as real + 0.1 * One(g.ca) as real
  }

  /** The first matching rule decides the flavour. */
  function Flavor(similarity: int, complement: int): (f: RelationFlavor)
    ensures f == Soulmate <==> similarity >= 4
    ensures f == Partner <==> similarity < 4 && complement == 2
    ensures f == Hybrid <==> similarity < 4 && complement != 2 && similarity >= 2 && complement == 1
  {
    if similarity >= 4 then Soulmate
    else if complement == 2 then Partner
    else if similarity >= 2 && complement == 1 then Hybrid
    else Magnet
  }

  /** `calculateCompatibilityScore`. The `min(100, …)` clamp never changes
      the score, which lies in 0..100. */
  function Calculate(s: Flags, o: Flags): (r: CompatibilityScore)
    ensures r.score == Raw(Compare(s, o)) * 100.0
    ensures 0.0 <= r.score <= 100.0
    ensures r.relationFlavor == Flavor(Similarity(Compare(s, o)), Complement(Compare(s, o)))
  {
    var g := Compare(s, o);
    var score := if Raw(g) * 100.0 <= 100.0 then Raw(g) * 100.0 else 100.0;
    CompatibilityScore(score, Flavor(Similarity(g), Complement(g)))
  }

  /** Compatibility is symmetric. */
  lemma Symmetric(s: Flags, o: Flags)
    ensures Calculate(s, o) == Calculate(o, s)
  {
    assert Compare(s, o) == Compare(o, s);
  }

  /** A pair of identical profiles shares every similarity axis and no
      complement axis: score 80, soulmates. */
  lemma SelfCompatibility(f: Flags)
    ensures Calculate(f, f) == CompatibilityScore(80.0, Soulmate)
  {
    assert Compare(f, f) == Agreement(true, true, true, true, true, true, false, false);
  }

  /** The full score is reached exactly when every similarity axis is shared
      and both complement axes differ. */
  lemma FullScoreIff(s: Flags, o: Flags)
    ensures Calculate(s, o).score == 100.0
        <==> Similarity(Compare(s, o)) == 6 && Complement(Compare(s, o)) == 2
  {
    var g := Compare(s, o);
    RawFull(g);
    assert Similarity(g) == 6 <==> g.sn && g.tf && g.jp && g.ei && g.rp && g.oe;
  }

  lemma RawFull(g: Agreement)
    ensures Raw(g) == 1.0 <==> g.sn && g.tf && g.jp && g.ei && g.rp && g.oe && g.lf && g.ca
  {
  }

  /** Soulmates share at least four axes, which weigh at least 0.44: the
      four lightest weights are 0.08, 0.08, 0.12 and 0.16. */
  lemma SoulmateScoreFloor(s: Flags, o: Flags)
    requires Calculate(s, o).relationFlavor == Soulmate
    ensures Calculate(s, o).score >= 44.0
  {
  }

  /** Partners differ on both complement axes, worth 20 points. */
  lemma PartnerScoreFloor(s: Flags, o: Flags)
    requires Calculate(s, o).relationFlavor == Partner
    ensures Calculate(s, o).score >= 20.0
  {
  }

  /** Magnets share at most three axes and differ on at most one complement
      axis (exactly none when they share two or three). */
  lemma MagnetShape(s: Flags, o: Flags)
    requires Calculate(s, o).relationFlavor == Magnet
    ensures Similarity(Compare(s, o)) <= 3 && Complement(Compare(s, o)) <= 1
    ensures Similarity(Compare(s, o)) >= 2 ==> Complement(Compare(s, o)) == 0
  {
  }

  lemma InfjLcroSelf()
    ensures Calculate(GetFlags("INFJ", "LCRO"), GetFlags("INFJ", "LCRO"))
         == CompatibilityScore(80.0, Soulmate)
  {
    SelfCompatibility(GetFlags("INFJ", "LCRO"));
  }

  lemma IntjLcroEsfpFape()
    ensures Calculate(GetFlags("INTJ", "LCRO"), GetFlags("ESFP", "FAPE"))
         == CompatibilityScore(20.0, Partner)
  {
    IntjLcroFlags();
    EsfpFapeFlags();
  }

  lemma InfjLcroEsfpFcro()
    ensures Calculate(GetFlags("INFJ", "LCRO"), GetFlags("ESFP", "FCRO")).relationFlavor == Hybrid
  {
    InfjLcroFlags();
    EsfpFcroFlags();
  }

  lemma IntjLcroEsfpLcpe()
    ensures Calculate(GetFlags("INTJ", "LCRO"), GetFlags("ESFP", "LCPE"))
         == CompatibilityScore(0.0, Magnet)
  {
    IntjLcroFlags();
    EsfpLcpeFlags();
  }

  lemma IntjLcroIntjFape()
    ensures Calculate(GetFlags("INTJ", "LCRO"), GetFlags("INTJ", "FAPE"))
         == CompatibilityScore(80.0, Soulmate)
  {
    IntjLcroFlags();
    IntjFapeFlags();
  }
}
