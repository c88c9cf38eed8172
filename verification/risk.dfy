/**
 Risk formulas: the weighted composite of the five indices, the Theory of
 Planned Behavior intention score, and their fixed 60/40 blend.
 */
module Risk {
  import opened Config
  import opened Normalizers

  /** One weighted term. */
  function Scale(k: real, x: real): real { k * x }

  /** The five weighted terms before clamping. */
  function WeightedSum(cai: real, cdi: real, thi: real, ti: real, ei: real, w: Weights): real
  {
    Scale(w.cai, cai) + Scale(w.cdi, cdi) + Scale(w.thi, thi) + Scale(w.ti, ti) + Scale(w.ei, ei)
  }

  function CompositeRisk(cai: real, cdi: real, thi: real, ti: real, ei: real, w: Weights): (r: real)
    ensures 0.0 <= r <= 1.0
  {
    Clamp01(WeightedSum(cai, cdi, thi, ti, ei, w))
  }

  predicate Unit(x: real) { 0.0 <= x <= 1.0 }

  lemma ScaleMonotone(k: real, x: real, y: real)
    requires 0.0 <= k && x <= y
    ensures Scale(k, x) <= Scale(k, y)
  {
    assert k * y - k * x == k * (y - x);
  }

  lemma ScaleUnit(k: real, x: real)
    requires 0.0 <= k && Unit(x)
    ensures 0.0 <= Scale(k, x) <= k
  {
    ScaleMonotone(k, 0.0, x);
    ScaleMonotone(k, x, 1.0);
  }

  /** Term-by-term comparison of two five-term sums; purely linear. */
  lemma SumMonotone(p1: real, p2: real, p3: real, p4: real, p5: real,
                    q1: real, q2: real, q3: real, q4: real, q5: real)
    requires p1 <= q1 && p2 <= q2 && p3 <= q3 && p4 <= q4 && p5 <= q5
    ensures p1 + p2 + p3 + p4 + p5 <= q1 + q2 + q3 + q4 + q5
  {}

  /** Bounds a five-term sum between zero and a second sum; purely linear. */
  lemma SumBounded(p1: real, p2: real, p3: real, p4: real, p5: real,
                   k1: real, k2: real, k3: real, k4: real, k5: real)
    requires 0.0 <= p1 <= k1 && 0.0 <= p2 <= k2 && 0.0 <= p3 <= k3
    requires 0.0 <= p4 <= k4 && 0.0 <= p5 <= k5
    ensures 0.0 <= p1 + p2 + p3 + p4 + p5 <= k1 + k2 + k3 + k4 + k5
  {}

  /** With non-negative weights a rise in any index never lowers the risk. */
  lemma CompositeMonotone(a1: real, a2: real, d1: real, d2: real, h1: real, h2: real,
                          t1: real, t2: real, e1: real, e2: real, w: Weights)
    requires NonNegative(w)
    requires a1 <= a2 && d1 <= d2 && h1 <= h2 && t1 <= t2 && e1 <= e2
    ensures CompositeRisk(a1, d1, h1, t1, e1, w) <= CompositeRisk(a2, d2, h2, t2, e2, w)
  {
    var lo, hi := WeightedSum(a1, d1, h1, t1, e1, w), WeightedSum(a2, d2, h2, t2, e2, w);
    assert lo <= hi by {
      ScaleMonotone(w.cai, a1, a2);
      ScaleMonotone(w.cdi, d1, d2);
      ScaleMonotone(w.thi, h1, h2);
      ScaleMonotone(w.ti, t1, t2);
      ScaleMonotone(w.ei, e1, e2);
      SumMonotone(Scale(w.cai, a1), Scale(w.cdi, d1), Scale(w.thi, h1), Scale(w.ti, t1), Scale(w.ei, e1),
                  Scale(w.cai, a2), Scale(w.cdi, d2), Scale(w.thi, h2), Scale(w.ti, t2), Scale(w.ei, e2));
    }
    Clamp01Monotone(lo, hi);
  }

  /** When every index equals x the risk is the clamped product of x and the weight sum. */
  lemma CompositeUniform(x: real, w: Weights)
    ensures CompositeRisk(x, x, x, x, x, w) == Clamp01(WeightSum(w) * x)
  {
    assert WeightedSum(x, x, x, x, x, w) == WeightSum(w) * x;
  }

  /** Corner values under the default weights: all-zero indices give 0; all-one
      indices give 1, although the raw sum is 1.00001 and only the clamp brings
      it back to 1. */
  lemma CompositeDefaultCorners()
    ensures CompositeRisk(0.0, 0.0, 0.0, 0.0, 0.0, DefaultWeights) == 0.0
    ensures CompositeRisk(1.0, 1.0, 1.0, 1.0, 1.0, DefaultWeights) == 1.0
    ensures WeightedSum(1.0, 1.0, 1.0, 1.0, 1.0, DefaultWeights) > 1.0
  {
    CompositeUniform(0.0, DefaultWeights);
    CompositeUniform(1.0, DefaultWeights);
    DefaultWeightSum();
  }

  /** With non-negative weights summing to at most one, unit indices never
      reach the clamp. */
  lemma CompositeClampInert(cai: real, cdi: real, thi: real, ti: real, ei: real, w: Weights)
    requires NonNegative(w) && WeightSum(w) <= 1.0
    requires Unit(cai) && Unit(cdi) && Unit(thi) && Unit(ti) && Unit(ei)
    ensures CompositeRisk(cai, cdi, thi, ti, ei, w) == WeightedSum(cai, cdi, thi, ti, ei, w)
  {
    var sum := WeightedSum(cai, cdi, thi, ti, ei, w);
    assert 0.0 <= sum <= WeightSum(w) by {
      ScaleUnit(w.cai, cai);
      ScaleUnit(w.cdi, cdi);
      ScaleUnit(w.thi, thi);
      ScaleUnit(w.ti, ti);
      ScaleUnit(w.ei, ei);
      SumBounded(Scale(w.cai, cai), Scale(w.cdi, cdi), Scale(w.thi, thi), Scale(w.ti, ti), Scale(w.ei, ei),
                 w.cai, w.cdi, w.thi, w.ti, w.ei);
    }
    Clamp01FixedPoints(sum);
  }

  /** Behavioral intention: attitude 0.3, subjective norm 0.5, perceived control 0.2. */
  function BehavioralIntention(ati: real, sni: real, pci: real): (r: real)
    ensures 0.0 <= r <= 1.0
  {
    Clamp01(0.3 * ati + 0.5 * sni + 0.2 * pci)
  }

  lemma BehavioralIntentionCorners()
    ensures BehavioralIntention(0.0, 0.0, 0.0) == 0.0
    ensures BehavioralIntention(1.0, 1.0, 1.0) == 1.0
  {}

  /** The weights sum to exactly one, so unit inputs never reach the clamp;
      social-norm pressure weighs most and perceived control least. */
  lemma BehavioralIntentionUnclamped(ati: real, sni: real, pci: real)
    requires Unit(ati) && Unit(sni) && Unit(pci)
    ensures BehavioralIntention(ati, sni, pci) == 0.3 * ati + 0.5 * sni + 0.2 * pci
    ensures BehavioralIntention(0.0, 1.0, 0.0) > BehavioralIntention(1.0, 0.0, 0.0) > BehavioralIntention(0.0, 0.0, 1.0)
  {}

  lemma BehavioralIntentionMonotone(a1: real, a2: real, s1: real, s2: real, p1: real, p2: real)
    requires a1 <= a2 && s1 <= s2 && p1 <= p2
    ensures BehavioralIntention(a1, s1, p1) <= BehavioralIntention(a2, s2, p2)
  {
    Clamp01Monotone(0.3 * a1 + 0.5 * s1 + 0.2 * p1, 0.3 * a2 + 0.5 * s2 + 0.2 * p2);
  }

  /** Extended risk: 60% physical composite, 40% behavioral intention. */
  function ExtendedRisk(cai: real, cdi: real, thi: real, ti: real, ei: real,
                        ati: real, sni: real, pci: real, w: Weights): (r: real)
    ensures 0.0 <= r <= 1.0
  {
    var physical := CompositeRisk(cai, cdi, thi, ti, ei, w);
    var behavioral := BehavioralIntention(ati, sni, pci);
    Clamp01(0.6 * physical + 0.4 * behavioral)
  }

  /** Both parts already lie in [0,1], so the outer clamp never bites and the
      extended risk is exactly the 60/40 blend; it lies between its parts. */
  lemma ExtendedIsBlend(cai: real, cdi: real, thi: real, ti: real, ei: real,
                        ati: real, sni: real, pci: real, w: Weights)
    ensures ExtendedRisk(cai, cdi, thi, ti, ei, ati, sni, pci, w)
            == 0.6 * CompositeRisk(cai, cdi, thi, ti, ei, w) + 0.4 * BehavioralIntention(ati, sni, pci)
    ensures Min(CompositeRisk(cai, cdi, thi, ti, ei, w), BehavioralIntention(ati, sni, pci))
            <= ExtendedRisk(cai, cdi, thi, ti, ei, ati, sni, pci, w)
            <= Max(CompositeRisk(cai, cdi, thi, ti, ei, w), BehavioralIntention(ati, sni, pci))
  {}

  /** All-zero inputs give 0 under any weights. */
  lemma ExtendedAllZero(w: Weights)
    ensures ExtendedRisk(0.0, 0.0, 0.0, 0.0, 0.0, 0.0, 0.0, 0.0, w) == 0.0
  {
    assert CompositeRisk(0.0, 0.0, 0.0, 0.0, 0.0, w) == 0.0 by {
      CompositeUniform(0.0, w);
      assert WeightSum(w) * 0.0 == 0.0;
    }
    assert BehavioralIntention(0.0, 0.0, 0.0) == 0.0;
    ExtendedIsBlend(0.0, 0.0, 0.0, 0.0, 0.0, 0.0, 0.0, 0.0, w);
  }

  /** All-one inputs give 1 under any weights summing to at least one, the
      default weights included. */
  lemma ExtendedAllOne(w: Weights)
    requires WeightSum(w) >= 1.0
    ensures ExtendedRisk(1.0, 1.0, 1.0, 1.0, 1.0, 1.0, 1.0, 1.0, w) == 1.0
  {
    assert CompositeRisk(1.0, 1.0, 1.0, 1.0, 1.0, w) == 1.0 by {
      CompositeUniform(1.0, w);
      assert WeightSum(w) * 1.0 == WeightSum(w);
    }
    assert BehavioralIntention(1.0, 1.0, 1.0) == 1.0;
    ExtendedIsBlend(1.0, 1.0, 1.0, 1.0, 1.0, 1.0, 1.0, 1.0, w);
  }

  lemma ExtendedMonotoneInBehavior(cai: real, cdi: real, thi: real, ti: real, ei: real,
                                   a1: real, a2: real, s1: real, s2: real, p1: real, p2: real, w: Weights)
    requires a1 <= a2 && s1 <= s2 && p1 <= p2
    ensures ExtendedRisk(cai, cdi, thi, ti, ei, a1, s1, p1, w)
            <= ExtendedRisk(cai, cdi, thi, ti, ei, a2, s2, p2, w)
  {
    BehavioralIntentionMonotone(a1, a2, s1, s2, p1, p2);
    ExtendedIsBlend(cai, cdi, thi, ti, ei, a1, s1, p1, w);
    ExtendedIsBlend(cai, cdi, thi, ti, ei, a2, s2, p2, w);
  }
}
