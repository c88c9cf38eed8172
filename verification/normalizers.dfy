/**
 Normalizers of the early-warning model: pure, total maps from raw crowd
 signals (heat, density, speed, turbulence, anxiety counts) to risk
 contributions. Every quantity is an exact `real`; out-of-range raw inputs
 are clamped, never rejected.
 */
module Normalizers {

  function Max(a: real, b: real): real { if a >= b then a else b }

  function Min(a: real, b: real): real { if a <= b then a else b }

  /** Clamps a value into the unit interval: `max(0, min(1, x))`. */
  function Clamp01(x: real): (r: real)
    ensures 0.0 <= r <= 1.0
    ensures 0.0 <= x <= 1.0 ==> r == x
    ensures x < 0.0 ==> r == 0.0
    ensures x > 1.0 ==> r == 1.0
  {
    Max(0.0, Min(1.0, x))
  }

  lemma Clamp01Idempotent(x: real)
    ensures Clamp01(Clamp01(x)) == Clamp01(x)
  {}

  /** Clamping changes nothing exactly on the unit interval. */
  lemma Clamp01FixedPoints(x: real)
    ensures Clamp01(x) == x <==> 0.0 <= x <= 1.0
  {}

  lemma Clamp01Monotone(x: real, y: real)
    requires x <= y
    ensures Clamp01(x) <= Clamp01(y)
  {}

  // ---------------------------------------------------------------------
  // Heat stress
  // ---------------------------------------------------------------------

  /** Raw temperature-humidity index in Celsius-like units. */
  function ThiCelsius(tempC: real, rh: real): (thi: real)
    ensures thi - 14.5 == (0.45 + 0.0055 * rh) * (tempC - 14.5)
    ensures 0.0 <= rh ==> (thi > 14.5 <==> tempC > 14.5)
  {
    PositiveScaleKeepsSign(0.45 + 0.0055 * rh, tempC - 14.5);
    tempC - (0.55 - 0.0055 * rh) * (tempC - 14.5)
  }

  /** A positive factor keeps the sign of the other one. */
  lemma PositiveScaleKeepsSign(a: real, b: real)
    ensures a > 0.0 ==> (a * b > 0.0 <==> b > 0.0)
  {
    if a > 0.0 && b <= 0.0 {
      assert a * b == -(a * -b);
      assert a * -b >= 0.0;
    }
  }

  /** 14.5 degrees is the pivot of the index: humidity has no effect there. */
  lemma ThiPivot(rh: real)
    ensures ThiCelsius(14.5, rh) == 14.5
  {}

  /** For non-negative humidity, a hotter reading never lowers the index:
      the slope in temperature is 0.45 + 0.0055 * rh. */
  lemma ThiMonotoneInTemperature(t1: real, t2: real, rh: real)
    requires t1 <= t2 && 0.0 <= rh
    ensures ThiCelsius(t1, rh) <= ThiCelsius(t2, rh)
  {
    var slope := 0.45 + 0.0055 * rh;
    assert ThiCelsius(t2, rh) - ThiCelsius(t1, rh) == slope * (t2 - t1);
    assert slope > 0.0;
  }

  /** Maps the raw index onto [0,1]: 0 up to 22, 1 from 32, linear between. */
  function NormalizeThi(thi: real): (r: real)
    ensures 0.0 <= r <= 1.0
    ensures thi <= 22.0 ==> r == 0.0
    ensures thi >= 32.0 ==> r == 1.0
  {
    Clamp01((thi - 22.0) / (32.0 - 22.0))
  }

  lemma NormalizeThiMonotone(a: real, b: real)
    requires a <= b
    ensures NormalizeThi(a) <= NormalizeThi(b)
  {}

  // ---------------------------------------------------------------------
  // Crowd dynamics
  // ---------------------------------------------------------------------

  /** Piecewise-linear density risk in four bands (persons per square metre).
      The first band is not clamped, so a negative density gives a negative
      value. */
  function NormalizeDensity(d: real): (r: real)
    ensures d >= 0.0 ==> 0.0 <= r <= 1.0
    ensures d < 0.0 ==> r < 0.0
    ensures d >= 5.0 ==> r == 1.0
  {
    if d <= 1.0 then 0.15 * (d / 1.0)
    else if d <= 2.0 then 0.15 + 0.25 * ((d - 1.0) / 1.0)
    else if d <= 3.5 then 0.40 + 0.35 * ((d - 2.0) / 1.5)
    else 0.75 + 0.25 * Min(1.0, (d - 3.5) / 1.5)
  }

  /** Values at the band boundaries and at saturation. */
  lemma DensityBoundaryValues()
    ensures NormalizeDensity(0.0) == 0.0
    ensures NormalizeDensity(1.0) == 0.15
    ensures NormalizeDensity(2.0) == 0.40
    ensures NormalizeDensity(3.5) == 0.75
    ensures NormalizeDensity(5.0) == 1.0
  {}

  /** Below one person per square metre the map is the unclamped line 0.15 * d. */
  lemma DensityFirstBandUnclamped(d: real)
    requires d <= 1.0
    ensures NormalizeDensity(d) == 0.15 * d
  {}

  /** Non-decreasing and 1/4-Lipschitz over the whole real line: the steepest
      band rises 0.25 per unit, and no boundary has a jump. */
  lemma DensityMonotoneLipschitz(x: real, y: real)
    requires x <= y
    ensures 0.0 <= NormalizeDensity(y) - NormalizeDensity(x) <= 0.25 * (y - x)
  {}

  /** Continuity at every point (in particular at 1.0, 2.0 and 3.5):
      inputs within 4 * eps of c have values within eps of the value at c. */
  lemma DensityContinuous(c: real, x: real, eps: real)
    requires eps > 0.0
    requires c - 4.0 * eps < x < c + 4.0 * eps
    ensures NormalizeDensity(c) - eps < NormalizeDensity(x) < NormalizeDensity(c) + eps
  {
    if x <= c {
      DensityMonotoneLipschitz(x, c);
    } else {
      DensityMonotoneLipschitz(c, x);
    }
  }

  /** Lower average speed (congestion) means higher risk; free flow at 1.2 m/s. */
  function NormalizeSpeed(speed: real): (r: real)
    ensures 0.0 <= r <= 1.0
    ensures r == 1.0 <==> speed <= 0.0
    ensures r == 0.0 <==> speed >= 1.2
  {
    var s := Max(0.0, Min(1.2, speed));
    1.0 - s / 1.2
  }

  lemma NormalizeSpeedAntitone(a: real, b: real)
    requires a <= b
    ensures NormalizeSpeed(b) <= NormalizeSpeed(a)
  {}

  /** Speed variance relative to the band 0 .. 0.5 (m/s)^2. */
  function NormalizeSpeedVar(v: real): (r: real)
    ensures 0.0 <= r <= 1.0
    ensures v <= 0.0 ==> r == 0.0
    ensures v >= 0.5 ==> r == 1.0
  {
    Clamp01(v / 0.5)
  }

  lemma NormalizeSpeedVarMonotone(a: real, b: real)
    requires a <= b
    ensures NormalizeSpeedVar(a) <= NormalizeSpeedVar(b)
  {}

  /** Crowd Dynamics Index: density 50%, turbulence 30%, low speed 20%. */
  function ComputeCdi(density: real, speed: real, speedVar: real): (r: real)
    ensures 0.0 <= r <= 1.0
  {
    var dn := NormalizeDensity(density);
    var sn := NormalizeSpeed(speed);
    var vn := NormalizeSpeedVar(speedVar);
    Clamp01(0.5 * dn + 0.3 * vn + 0.2 * sn)
  }

  /** CDI never falls when density or turbulence rises or speed falls. */
  lemma ComputeCdiMonotone(d1: real, d2: real, s1: real, s2: real, v1: real, v2: real)
    requires d1 <= d2 && s2 <= s1 && v1 <= v2
    ensures ComputeCdi(d1, s1, v1) <= ComputeCdi(d2, s2, v2)
  {
    DensityMonotoneLipschitz(d1, d2);
    NormalizeSpeedAntitone(s2, s1);
    NormalizeSpeedVarMonotone(v1, v2);
    Clamp01Monotone(0.5 * NormalizeDensity(d1) + 0.3 * NormalizeSpeedVar(v1) + 0.2 * NormalizeSpeed(s1),
                    0.5 * NormalizeDensity(d2) + 0.3 * NormalizeSpeedVar(v2) + 0.2 * NormalizeSpeed(s2));
  }

  /** For a non-negative density the three weights sum to one, so the outer
      clamp never bites; it only matters for a negative density. */
  lemma ComputeCdiClampInert(density: real, speed: real, speedVar: real)
    requires density >= 0.0
    ensures ComputeCdi(density, speed, speedVar)
            == 0.5 * NormalizeDensity(density) + 0.3 * NormalizeSpeedVar(speedVar) + 0.2 * NormalizeSpeed(speed)
  {}

  // ---------------------------------------------------------------------
  // Crowd anxiety
  // ---------------------------------------------------------------------

  /** Anxiety proxy from push rate (0..10), shout rate (0..20) and near falls (0..10). */
  function NormalizeAnxietySignals(pushRate: real, shoutRate: real, nearFalls: real): (r: real)
    ensures 0.0 <= r <= 1.0
  {
    var pr := Clamp01(pushRate / 10.0);
    var sr := Clamp01(shoutRate / 20.0);
    var nf := Clamp01(nearFalls / 10.0);
    Clamp01(0.4 * pr + 0.3 * sr + 0.3 * nf)
  }

  lemma AnxietyMonotone(p1: real, p2: real, s1: real, s2: real, n1: real, n2: real)
    requires p1 <= p2 && s1 <= s2 && n1 <= n2
    ensures NormalizeAnxietySignals(p1, s1, n1) <= NormalizeAnxietySignals(p2, s2, n2)
  {
    Clamp01Monotone(p1 / 10.0, p2 / 10.0);
    Clamp01Monotone(s1 / 20.0, s2 / 20.0);
    Clamp01Monotone(n1 / 10.0, n2 / 10.0);
  }

  /** Quiet crowd gives 0; saturated signals (10 pushes, 20 shouts, 10 near falls) give 1. */
  lemma AnxietyCorners(p: real, s: real, n: real)
    ensures NormalizeAnxietySignals(0.0, 0.0, 0.0) == 0.0
    ensures p >= 10.0 && s >= 20.0 && n >= 10.0 ==> NormalizeAnxietySignals(p, s, n) == 1.0
  {
    assert Clamp01(0.0 / 10.0) == 0.0 && Clamp01(0.0 / 20.0) == 0.0;
    if p >= 10.0 && s >= 20.0 && n >= 10.0 {
      assert p / 10.0 >= 1.0 && s / 20.0 >= 1.0 && n / 10.0 >= 1.0;
      assert Clamp01(p / 10.0) == 1.0 && Clamp01(s / 20.0) == 1.0 && Clamp01(n / 10.0) == 1.0;
    }
  }

  /** Crowd Anxiety Index: anxiety amplified by a quarter of the density risk. */
  function ComputeCai(pushRate: real, shoutRate: real, nearFalls: real, density: real): (r: real)
    ensures 0.0 <= r <= 1.0
  {
    var base := NormalizeAnxietySignals(pushRate, shoutRate, nearFalls);
    var amp := 0.25 * NormalizeDensity(density);
    Clamp01(base + amp)
  }

  /** A non-negative density only amplifies: CAI is never below the anxiety proxy. */
  lemma CaiAmplifiesAnxiety(pushRate: real, shoutRate: real, nearFalls: real, density: real)
    requires density >= 0.0
    ensures NormalizeAnxietySignals(pushRate, shoutRate, nearFalls)
            <= ComputeCai(pushRate, shoutRate, nearFalls, density)
  {}

  lemma ComputeCaiMonotone(p1: real, p2: real, s1: real, s2: real, n1: real, n2: real, d1: real, d2: real)
    requires p1 <= p2 && s1 <= s2 && n1 <= n2 && d1 <= d2
    ensures ComputeCai(p1, s1, n1, d1) <= ComputeCai(p2, s2, n2, d2)
  {
    AnxietyMonotone(p1, p2, s1, s2, n1, n2);
    DensityMonotoneLipschitz(d1, d2);
    Clamp01Monotone(NormalizeAnxietySignals(p1, s1, n1) + 0.25 * NormalizeDensity(d1),
                    NormalizeAnxietySignals(p2, s2, n2) + 0.25 * NormalizeDensity(d2));
  }
}
