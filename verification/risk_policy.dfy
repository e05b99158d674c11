/**
 The business rules applied to the classifier's output: the risk tier (with
 its displayed level, recommended action and badge style) chosen from the
 claim probability in percent, and the text shown for the predicted hard label.
 */
module RiskPolicy {

  /** The four ordered risk tiers. */
  datatype Tier = Low | Moderate | High | VeryHigh

  /** The cut-offs, in percent, at which the next tier begins. */
  const Thresholds: seq<real> := [5.0, 10.0, 20.0]

  /** The band of probabilities each tier covers: closed below, open above. */
  predicate InBand(t: Tier, p: real)
  {
    match t
    case Low => p < 5.0
    case Moderate => 5.0 <= p < 10.0
    case High => 10.0 <= p < 20.0
    case VeryHigh => 20.0 <= p
  }

  /** The if/elif chain over the probability in percent. It is total: any
      real, including one outside [0, 100], gets a tier. */
  function TierOf(p: real): (t: Tier)
    ensures InBand(t, p)
  {
    if p < 5.0 then Low
    else if p < 10.0 then Moderate
    else if p < 20.0 then High
    else VeryHigh
  }

  /** Position of a tier in the order Low < Moderate < High < VeryHigh. */
  function Rank(t: Tier): nat
  {
    match t
    case Low => 0
    case Moderate => 1
    case High => 2
    case VeryHigh => 3
  }

  /** How many of the cut-offs `p` has reached. */
  function Reached(cuts: seq<real>, p: real): (n: nat)
    ensures n <= |cuts|
  {
    if |cuts| == 0 then 0
    else (if cuts[0] <= p then 1 else 0) + Reached(cuts[1..], p)
  }

  /** The bands partition the reals: every probability lies in the band of
      the tier it gets and in no other band. */
  lemma TierOfIsBand(p: real, t: Tier)
    ensures TierOf(p) == t <==> InBand(t, p)
  {
  }

  /** The tier's rank is the number of cut-offs the probability reached. */
  lemma TierRankCountsThresholds(p: real)
    ensures Rank(TierOf(p)) == Reached(Thresholds, p)
  {
    assert Reached([20.0], p) == if 20.0 <= p then 1 else 0 by {
      assert [20.0][1..] == [];
    }
    assert Reached([10.0, 20.0], p) == (if 10.0 <= p then 1 else 0) + Reached([20.0], p) by {
      assert [10.0, 20.0][1..] == [20.0];
    }
    assert Reached(Thresholds, p) == (if 5.0 <= p then 1 else 0) + Reached([10.0, 20.0], p) by {
      assert Thresholds[1..] == [10.0, 20.0];
    }
  }

  /** The count of cut-offs reached never decreases as the probability grows,
      whatever the cut-offs. */
  lemma {:induction false} ReachedMonotone(cuts: seq<real>, p: real, q: real)
    requires p <= q
    ensures Reached(cuts, p) <= Reached(cuts, q)
    decreases |cuts|
  {
    if |cuts| > 0 {
      ReachedMonotone(cuts[1..], p, q);
    }
  }

  /** A higher probability never gets a lower tier: the rank counts the
      cut-offs reached, and that count only grows. */
  lemma TierMonotone(p: real, q: real)
    requires p <= q
    ensures Rank(TierOf(p)) <= Rank(TierOf(q))
  {
    TierRankCountsThresholds(p);
    TierRankCountsThresholds(q);
    ReachedMonotone(Thresholds, p, q);
  }

  /** The level shown for a tier. */
  function Level(t: Tier): string
  {
    match t
    case Low => "Low Risk"
    case Moderate => "Moderate Risk"
    case High => "High Risk"
    case VeryHigh => "Very High Risk"
  }

  /** The recommended business action for a tier. */
  function Action(t: Tier): string
  {
    match t
    case Low => "Standard premium"
    case Moderate => "Monitor customer"
    case High => "Higher premium"
    case VeryHigh => "Manual underwriting review"
  }

  /** The style class of the tier's badge. */
  function Badge(t: Tier): string
  {
    match t
    case Low => "badge-low"
    case Moderate => "badge-mid"
    case High => "badge-high"
    case VeryHigh => "badge-vhigh"
  }

  /** What the risk block yields for a probability: level, action, badge. */
  datatype Recommendation = Recommendation(level: string, action: string, badge: string)

  function Recommend(p: real): (r: Recommendation)
    ensures p < 5.0 ==> r == Recommendation("Low Risk", "Standard premium", "badge-low")
    ensures 5.0 <= p < 10.0 ==> r == Recommendation("Moderate Risk", "Monitor customer", "badge-mid")
    ensures 10.0 <= p < 20.0 ==> r == Recommendation("High Risk", "Higher premium", "badge-high")
    ensures 20.0 <= p ==> r == Recommendation("Very High Risk", "Manual underwriting review", "badge-vhigh")
  {
    var t := TierOf(p);
    Recommendation(Level(t), Action(t), Badge(t))
  }

  /** Each tier has its own action, so the action shown identifies the tier. */
  lemma ActionIdentifiesTier(t: Tier, u: Tier)
    ensures Action(t) == Action(u) <==> t == u
  {
  }

  /** The boundary cases: exactly 5 is Moderate, exactly 10 is High, exactly
      20 is VeryHigh, and the ends of the scale are Low and VeryHigh. */
  lemma TierBoundaries()
    ensures TierOf(0.0) == Low && TierOf(4.999) == Low
    ensures TierOf(5.0) == Moderate && TierOf(9.999) == Moderate
    ensures TierOf(10.0) == High && TierOf(19.999) == High
    ensures TierOf(20.0) == VeryHigh && TierOf(100.0) == VeryHigh
    ensures Action(TierOf(0.0)) == "Standard premium"
    ensures Action(TierOf(100.0)) == "Manual underwriting review"
  {
  }

  /** The text shown for the predicted hard label. */
  function ClaimText(predicted: int): (s: string)
    ensures s == "Claim Expected" <==> predicted == 1
    ensures s == "No Claim Expected" <==> predicted != 1
  {
    if predicted == 1 then "Claim Expected" else "No Claim Expected"
  }

  /** The style class of the predicted-label badge. */
  function ClaimBadge(predicted: int): (s: string)
    ensures s == "badge-high" <==> predicted == 1
    ensures s == "badge-low" <==> predicted != 1
  {
    if predicted == 1 then "badge-high" else "badge-low"
  }
}
