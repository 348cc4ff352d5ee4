/** The mapping from an anomaly probability to the risk tier reported to clients. */
module Risk {

  datatype RiskLevel = Low | Medium | High {

    /** The string carried in the `risk_level` field of a response. */
    function Name(): string
    {
      match this
      case Low => "LOW"
      case Medium => "MEDIUM"
      case High => "HIGH"
    }

    /** Position in the order LOW < MEDIUM < HIGH. */
    function Rank(): nat
    {
      match this
      case Low => 0
      case Medium => 1
      case High => 2
    }
  }

  /** A probability strictly above this is HIGH. */
  const HighThreshold: real := 0.7

  /** A probability strictly above this (and not HIGH) is MEDIUM. */
  const MediumThreshold: real := 0.4

  /** The band of probabilities each tier covers: every band is open below and
      closed above, so a score of exactly 0.7 is MEDIUM and exactly 0.4 is LOW. */
  ghost predicate InBand(p: real, t: RiskLevel)
  {
    match t
    case High => HighThreshold < p
    case Medium => MediumThreshold < p <= HighThreshold
    case Low => p <= MediumThreshold
  }

  /** The if/elif chain of the single-transaction handler. */
  function RiskTier(p: real): (t: RiskLevel)
    ensures InBand(p, t)
  {
    if p > HighThreshold then High
    else if p > MediumThreshold then Medium
    else Low
  }

  /** The conditional expression the batch handler evaluates for each item. Python
      reads `A if c1 else B if c2 else C` as `A if c1 else (B if c2 else C)`, so the
      expression has the same shape as the if/elif chain of `RiskTier`. Their
      agreement is stated by `TierFormsAgree`. */
  function InlineRiskTier(p: real): RiskLevel
  {
    if p > HighThreshold then High else if p > MediumThreshold then Medium else Low
  }

  /** The three bands partition the reals: every probability lies in exactly one. */
  lemma BandsPartition(p: real)
    ensures exists t :: InBand(p, t)
    ensures forall t, u :: InBand(p, t) && InBand(p, u) ==> t == u
  {
    assert InBand(p, RiskTier(p));
  }

  /** The tier is the band the probability lies in, in both directions. */
  lemma RiskTierIsBand(p: real, t: RiskLevel)
    ensures RiskTier(p) == t <==> InBand(p, t)
  {
  }

  /** The two ways the handlers write the mapping agree on every probability. */
  lemma TierFormsAgree(p: real)
    ensures InlineRiskTier(p) == RiskTier(p)
  {
  }

  /** The boundary scores fall in the lower band. */
  lemma BoundaryScores()
    ensures RiskTier(0.7) == Medium && RiskTier(0.4) == Low
    ensures InlineRiskTier(0.7) == Medium && InlineRiskTier(0.4) == Low
  {
  }

  /** A higher probability never yields a lower tier. */
  lemma TierMonotone(p: real, q: real)
    requires p <= q
    ensures RiskTier(p).Rank() <= RiskTier(q).Rank()
  {
  }
}
