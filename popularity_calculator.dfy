/** The attractiveness calculator: three weighted sums of flags, scaled to
    0..100, and their mean. */
module PopularityCalculator {
  import opened TypeFlags

  datatype PopularityScores = PopularityScores(
    totalScore: real, chance: real, firstImpression: real, lastingLikeability: real)

  function Min(a: real, b: real): (m: real)
    ensures m <= a && m <= b && (m == a || m == b)
  {
    if a <= b then a else b
  }

  /** How many chances to meet someone: extraversion, lead, optimism, and
      both planning and flexibility. */
  function RawChance(f: Flags): (r: real)
    ensures 0.0 <= r <= 1.0
  {
    0.35 * f.E + 0.20 * f.L + 0.15 * f.O + 0.15 * f.J + 0.15 * f.Pm
  }

  /** First impression: extraversion, feeling, cuddliness, passion, intuition. */
  function RawFirst(f: Flags): (r: real)
    ensures 0.0 <= r <= 1.0
  {
    0.25 * f.E + 0.25 * f.Fm + 0.20 * f.C + 0.20 * f.Pl + 0.10 * f.N
  }

  /** Lasting likeability: earnestness, realism, feeling, planning, introversion. */
  function RawLasting(f: Flags): (r: real)
    ensures 0.0 <= r <= 1.0
  {
    0.30 * f.El + 0.25 * f.R + 0.20 * f.Fm + 0.15 * f.J + 0.10 * f.I
  }

  /** `calculatePopularityScores`. Each weight set sums to one, so for 0/1
      flags every sub-score lies in 0..100 and the `min(100, …)` clamp never
      changes a value; the total is the mean of the three and so also lies
      in 0..100. */
  function Calculate(f: Flags): (r: PopularityScores)
    ensures r.chance == RawChance(f) * 100.0
    ensures r.firstImpression == RawFirst(f) * 100.0
    ensures r.lastingLikeability == RawLasting(f) * 100.0
    ensures 0.0 <= r.chance <= 100.0 && 0.0 <= r.firstImpression <= 100.0
    ensures 0.0 <= r.lastingLikeability <= 100.0
    ensures 3.0 * r.totalScore == r.chance + r.firstImpression + r.lastingLikeability
    ensures 0.0 <= r.totalScore <= 100.0
  {
    var chance := Min(100.0, RawChance(f) * 100.0);
    var first := Min(100.0, RawFirst(f) * 100.0);
    var lasting := Min(100.0, RawLasting(f) * 100.0);
    PopularityScores((chance + first + lasting) / 3.0, chance, first, lasting)
  }

  /** The total never exceeds the best sub-score nor falls below the worst. */
  lemma TotalBetween(f: Flags)
    ensures var r := Calculate(f);
      && (r.totalScore <= r.chance || r.totalScore <= r.firstImpression
          || r.totalScore <= r.lastingLikeability)
      && (r.totalScore >= r.chance || r.totalScore >= r.firstImpression
          || r.totalScore >= r.lastingLikeability)
  {
  }

  lemma EnfjFare()
    ensures var r := Calculate(GetFlags("ENFJ", "FARE"));
      r.chance == 50.0 && r.firstImpression == 60.0 && r.lastingLikeability == 90.0
      && r.totalScore == 200.0 / 3.0
  {
    ListedFlags("ENFJ", "FARE");
  }

  lemma IntjLcro()
    ensures var r := Calculate(GetFlags("INTJ", "LCRO"));
      r.chance == 50.0 && r.firstImpression == 30.0 && r.lastingLikeability == 50.0
      && r.totalScore == 130.0 / 3.0
  {
    ListedFlags("INTJ", "LCRO");
  }

  lemma IstpFapo()
    ensures var r := Calculate(GetFlags("ISTP", "FAPO"));
      r.chance == 30.0 && r.firstImpression == 20.0 && r.lastingLikeability == 10.0
      && r.totalScore == 20.0
  {
    ListedFlags("ISTP", "FAPO");
  }
}
