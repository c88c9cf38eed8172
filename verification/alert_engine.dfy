/**
 The hysteresis alert engine. One engine state per monitored stream holds
 the current level and two counters of consecutive ticks that asked for a
 higher (up) or a lower (down) level. A tick commits a change of level only
 once its counter reaches the count the configuration requires for that
 (from, to) pair. A pair the table does not list needs one tick, even when
 it jumps over a level.
 */
module AlertEngine {
  import opened Config
  import opened Normalizers

  datatype EngineState = EngineState(level: Level, up: nat, down: nat)

  /** A new engine starts green with both counters at zero. */
  const Initial := EngineState(Green, 0, 0)

  /** Level asked for by a single risk value; thresholds are inclusive and
      tried from red downwards, so whatever their order the result is the
      highest level whose threshold the risk reaches. */
  function DesiredLevel(th: Thresholds, risk: real): (l: Level)
    ensures Reaches(th, l, risk)
    ensures forall m :: Rank(m) > Rank(l) ==> !Reaches(th, m, risk)
  {
    if risk >= th.red then Red
    else if risk >= th.orange then Orange
    else if risk >= th.yellow then Yellow
    else Green
  }

  /** Whether a risk value reaches the lower bound of a level. */
  predicate Reaches(th: Thresholds, l: Level, risk: real)
  {
    match l
    case Green => true
    case Yellow => risk >= th.yellow
    case Orange => risk >= th.orange
    case Red => risk >= th.red
  }

  /** With ordered thresholds the desired level is at least `l` exactly when
      the risk reaches the threshold of `l`. */
  lemma DesiredLevelThresholds(th: Thresholds, risk: real, l: Level)
    requires th.yellow <= th.orange <= th.red
    ensures Rank(DesiredLevel(th, risk)) >= Rank(l) <==> Reaches(th, l, risk)
  {}

  /** A higher risk never asks for a lower level, whatever the thresholds. */
  lemma DesiredLevelMonotone(th: Thresholds, r1: real, r2: real)
    requires r1 <= r2
    ensures Rank(DesiredLevel(th, r1)) <= Rank(DesiredLevel(th, r2))
  {}

  /** One tick: returns the new engine state and the level reported. */
  function Step(cfg: EwsConfig, s: EngineState, risk: real): (r: (EngineState, Level))
    ensures r.1 == r.0.level
    ensures r.0.level == s.level || r.0.level == DesiredLevel(cfg.thresholds, risk)
    ensures DesiredLevel(cfg.thresholds, risk) == s.level ==> r.0 == EngineState(s.level, 0, 0)
    ensures r.0.level != s.level ==> r.0.up == 0 && r.0.down == 0
    ensures r.0.up == 0 || r.0.down == 0
    ensures r.0.up > 0 ==>
              && Rank(DesiredLevel(cfg.thresholds, risk)) > Rank(s.level)
              && r.0.up == s.up + 1
              && r.0.up < Required(cfg.hysteresisUp, s.level, DesiredLevel(cfg.thresholds, risk))
    ensures r.0.down > 0 ==>
              && Rank(DesiredLevel(cfg.thresholds, risk)) < Rank(s.level)
              && r.0.down == s.down + 1
              && r.0.down < Required(cfg.hysteresisDown, s.level, DesiredLevel(cfg.thresholds, risk))
    ensures Rank(DesiredLevel(cfg.thresholds, risk)) > Rank(s.level) && r.0.level == s.level
            ==> r.0 == EngineState(s.level, s.up + 1, 0)
    ensures Rank(DesiredLevel(cfg.thresholds, risk)) < Rank(s.level) && r.0.level == s.level
            ==> r.0 == EngineState(s.level, 0, s.down + 1)
  {
    var desired := DesiredLevel(cfg.thresholds, risk);
    if desired == s.level then
      (EngineState(s.level, 0, 0), s.level)
    else if Rank(desired) > Rank(s.level) then
      var up := s.up + 1;
      if up >= Required(cfg.hysteresisUp, s.level, desired) then (EngineState(desired, 0, 0), desired)
      else (EngineState(s.level, up, 0), s.level)
    else
      var down := s.down + 1;
      if down >= Required(cfg.hysteresisDown, s.level, desired) then (EngineState(desired, 0, 0), desired)
      else (EngineState(s.level, 0, down), s.level)
  }

  /** A tick commits exactly when the risk asks for another level and the
      matching counter, after counting this tick, reaches the required count. */
  lemma StepCommitsIff(cfg: EwsConfig, s: EngineState, risk: real)
    ensures var d := DesiredLevel(cfg.thresholds, risk);
            Step(cfg, s, risk).0.level != s.level
            <==> (|| (Rank(d) > Rank(s.level) && s.up + 1 >= Required(cfg.hysteresisUp, s.level, d))
                  || (Rank(d) < Rank(s.level) && s.down + 1 >= Required(cfg.hysteresisDown, s.level, d)))
  {
    RankInjective(DesiredLevel(cfg.thresholds, risk), s.level);
  }

  /** Out-of-range risk behaves as if clamped into [0,1] first, provided every
      threshold is positive and red is at most one. */
  lemma StepClampInvariant(cfg: EwsConfig, s: EngineState, risk: real)
    requires 0.0 < cfg.thresholds.yellow && 0.0 < cfg.thresholds.orange
    requires 0.0 < cfg.thresholds.red <= 1.0
    ensures Step(cfg, s, risk) == Step(cfg, s, Clamp01(risk))
  {
    assert DesiredLevel(cfg.thresholds, risk) == DesiredLevel(cfg.thresholds, Clamp01(risk));
  }

  /** A pair absent from the table commits on the first tick that asks for it,
      whatever the counters held. */
  lemma UnlistedPairCommitsAtOnce(cfg: EwsConfig, s: EngineState, risk: real)
    requires DesiredLevel(cfg.thresholds, risk) != s.level
    requires var d := DesiredLevel(cfg.thresholds, risk);
             if Rank(d) > Rank(s.level) then (s.level, d) !in cfg.hysteresisUp
             else (s.level, d) !in cfg.hysteresisDown
    ensures Step(cfg, s, risk) == (EngineState(DesiredLevel(cfg.thresholds, risk), 0, 0),
                                   DesiredLevel(cfg.thresholds, risk))
  {}

  // ---------------------------------------------------------------------
  // Runs over a sequence of ticks
  // ---------------------------------------------------------------------

  /** Engine state after feeding the risks in order. The run ends at the
      starting level or at a level one of its ticks asked for, and after at
      least one tick the two counters are never both non-zero. */
  function Run(cfg: EwsConfig, s: EngineState, risks: seq<real>): (e: EngineState)
    ensures |risks| == 0 ==> e == s
    ensures || e.level == s.level
            || exists i :: 0 <= i < |risks| && e.level == DesiredLevel(cfg.thresholds, risks[i])
    ensures |risks| > 0 ==> e.up == 0 || e.down == 0
    decreases |risks|
  {
    if |risks| == 0 then s
    else
      var next := Step(cfg, s, risks[0]).0;
      assert forall i :: 0 <= i < |risks| - 1 ==> risks[1..][i] == risks[i + 1];
      Run(cfg, next, risks[1..])
  }

  /** A prefix of at least one tick runs as its first tick followed by the
      rest of the prefix. */
  lemma RunPrefixes(cfg: EwsConfig, s: EngineState, risks: seq<real>)
    requires |risks| > 0
    ensures forall i :: 1 <= i <= |risks| ==>
              Run(cfg, s, risks[..i]) == Run(cfg, Step(cfg, s, risks[0]).0, risks[1..][..i - 1])
  {
    forall i | 1 <= i <= |risks|
      ensures Run(cfg, s, risks[..i]) == Run(cfg, Step(cfg, s, risks[0]).0, risks[1..][..i - 1])
    {
      assert risks[..i][1..] == risks[1..][..i - 1];
    }
  }

  /** Levels reported, one per tick: each is the level of the engine after
      the ticks up to and including that one. */
  function Trace(cfg: EwsConfig, s: EngineState, risks: seq<real>): (t: seq<Level>)
    ensures |t| == |risks|
    ensures forall i :: 0 <= i < |t| ==> t[i] == Run(cfg, s, risks[..i + 1]).level
    ensures |t| > 0 ==> t[|t| - 1] == Run(cfg, s, risks).level
    decreases |risks|
  {
    if |risks| == 0 then []
    else
      var next := Step(cfg, s, risks[0]).0;
      var rest := Trace(cfg, next, risks[1..]);
      RunPrefixes(cfg, s, risks);
      assert risks[..|risks|] == risks;
      [Step(cfg, s, risks[0]).1] + rest
  }

  lemma {:induction false} RunAppend(cfg: EwsConfig, s: EngineState, a: seq<real>, b: seq<real>)
    ensures Run(cfg, s, a + b) == Run(cfg, Run(cfg, s, a), b)
    decreases |a|
  {
    if |a| == 0 {
      assert a + b == b;
    } else {
      assert (a + b)[0] == a[0];
      assert (a + b)[1..] == a[1..] + b;
      RunAppend(cfg, Step(cfg, s, a[0]).0, a[1..], b);
    }
  }

  /** After at least one tick the two counters are never both non-zero. */
  lemma {:induction false} RunCountersExclusive(cfg: EwsConfig, s: EngineState, risks: seq<real>)
    requires s.up == 0 || s.down == 0
    ensures Run(cfg, s, risks).up == 0 || Run(cfg, s, risks).down == 0
    decreases |risks|
  {
    if |risks| > 0 {
      RunCountersExclusive(cfg, Step(cfg, s, risks[0]).0, risks[1..]);
    }
  }

  /** The up-counter is shared by every upward target: from yellow, a tick
      asking for orange followed by one asking for red commits to red on the
      second tick, although neither target was asked for twice. */
  lemma SharedUpCounter()
    ensures var cfg := DefaultConfig.(hysteresisUp := map[(Yellow, Orange) := 3, (Yellow, Red) := 2]);
            Trace(cfg, EngineState(Yellow, 0, 0), [0.65, 0.80]) == [Yellow, Red]
  {
    var cfg := DefaultConfig.(hysteresisUp := map[(Yellow, Orange) := 3, (Yellow, Red) := 2]);
    var s1 := EngineState(Yellow, 1, 0);
    assert DesiredLevel(cfg.thresholds, 0.65) == Orange;
    assert DesiredLevel(cfg.thresholds, 0.80) == Red;
    assert Step(cfg, EngineState(Yellow, 0, 0), 0.65) == (s1, Yellow);
    assert Step(cfg, s1, 0.80) == (EngineState(Red, 0, 0), Red);
    assert [0.65, 0.80][1..] == [0.80];
    assert [0.80][1..] == [];
    assert Trace(cfg, s1, [0.80]) == [Red];
  }

  function Repeat(risk: real, k: nat): (rs: seq<real>)
    ensures |rs| == k
    ensures forall i :: 0 <= i < k ==> rs[i] == risk
  {
    seq(k, _ => risk)
  }

  /** The required count, read as at least one tick. */
  function Ticks(n: int): nat
  {
    if n < 1 then 1 else n
  }

  /** Below the required count a steady upward request only counts ticks. */
  lemma {:induction false} ClimbCounts(cfg: EwsConfig, s: EngineState, risk: real, k: nat)
    requires Rank(DesiredLevel(cfg.thresholds, risk)) > Rank(s.level)
    requires s.down == 0
    requires s.up + k < Ticks(Required(cfg.hysteresisUp, s.level, DesiredLevel(cfg.thresholds, risk)))
    ensures Run(cfg, s, Repeat(risk, k)) == EngineState(s.level, s.up + k, 0)
    decreases k
  {
    if k > 0 {
      var next := Step(cfg, s, risk).0;
      assert next == EngineState(s.level, s.up + 1, 0);
      assert Repeat(risk, k)[1..] == Repeat(risk, k - 1);
      ClimbCounts(cfg, next, risk, k - 1);
    }
  }

  /** Transition timing upwards: from a settled level, a risk that steadily asks
      for a higher level keeps the level for Ticks(required) - 1 ticks and
      commits on the next one. */
  lemma ClimbTiming(cfg: EwsConfig, l: Level, risk: real)
    requires Rank(DesiredLevel(cfg.thresholds, risk)) > Rank(l)
    ensures var n := Ticks(Required(cfg.hysteresisUp, l, DesiredLevel(cfg.thresholds, risk)));
            && Run(cfg, EngineState(l, 0, 0), Repeat(risk, n - 1)) == EngineState(l, n - 1, 0)
            && Run(cfg, EngineState(l, 0, 0), Repeat(risk, n))
               == EngineState(DesiredLevel(cfg.thresholds, risk), 0, 0)
  {
    var d := DesiredLevel(cfg.thresholds, risk);
    var n := Ticks(Required(cfg.hysteresisUp, l, d));
    var s := EngineState(l, 0, 0);
    ClimbCounts(cfg, s, risk, n - 1);
    assert Repeat(risk, n) == Repeat(risk, n - 1) + [risk];
    RunAppend(cfg, s, Repeat(risk, n - 1), [risk]);
    assert Run(cfg, EngineState(l, n - 1, 0), [risk]) == Step(cfg, EngineState(l, n - 1, 0), risk).0;
  }

  /** Below the required count a steady downward request only counts ticks. */
  lemma {:induction false} DescendCounts(cfg: EwsConfig, s: EngineState, risk: real, k: nat)
    requires Rank(DesiredLevel(cfg.thresholds, risk)) < Rank(s.level)
    requires s.up == 0
    requires s.down + k < Ticks(Required(cfg.hysteresisDown, s.level, DesiredLevel(cfg.thresholds, risk)))
    ensures Run(cfg, s, Repeat(risk, k)) == EngineState(s.level, 0, s.down + k)
    decreases k
  {
    if k > 0 {
      var next := Step(cfg, s, risk).0;
      assert next == EngineState(s.level, 0, s.down + 1);
      assert Repeat(risk, k)[1..] == Repeat(risk, k - 1);
      DescendCounts(cfg, next, risk, k - 1);
    }
  }

  /** Transition timing downwards, the mirror of ClimbTiming. */
  lemma DescendTiming(cfg: EwsConfig, l: Level, risk: real)
    requires Rank(DesiredLevel(cfg.thresholds, risk)) < Rank(l)
    ensures var n := Ticks(Required(cfg.hysteresisDown, l, DesiredLevel(cfg.thresholds, risk)));
            && Run(cfg, EngineState(l, 0, 0), Repeat(risk, n - 1)) == EngineState(l, 0, n - 1)
            && Run(cfg, EngineState(l, 0, 0), Repeat(risk, n))
               == EngineState(DesiredLevel(cfg.thresholds, risk), 0, 0)
  {
    var d := DesiredLevel(cfg.thresholds, risk);
    var n := Ticks(Required(cfg.hysteresisDown, l, d));
    var s := EngineState(l, 0, 0);
    DescendCounts(cfg, s, risk, n - 1);
    assert Repeat(risk, n) == Repeat(risk, n - 1) + [risk];
    RunAppend(cfg, s, Repeat(risk, n - 1), [risk]);
    assert Run(cfg, EngineState(l, 0, n - 1), [risk]) == Step(cfg, EngineState(l, 0, n - 1), risk).0;
  }

  // ---------------------------------------------------------------------
  // The default configuration
  // ---------------------------------------------------------------------

  /** Under the default tables no counter ever exceeds one, from any state. */
  lemma DefaultCountersAtMostOne(s: EngineState, risk: real)
    ensures Step(DefaultConfig, s, risk).0.up <= 1
    ensures Step(DefaultConfig, s, risk).0.down <= 1
  {
    var d := DesiredLevel(DefaultThresholds, risk);
    assert Required(DefaultUp, s.level, d) <= 2;
    assert Required(DefaultDown, s.level, d) <= 2;
  }

  /** From green, one tick at 0.5 stays green; a second consecutive one gives yellow. */
  lemma GreenToYellowTakesTwoTicks()
    ensures Step(DefaultConfig, Initial, 0.5) == (EngineState(Green, 1, 0), Green)
    ensures Trace(DefaultConfig, Initial, [0.5, 0.5]) == [Green, Yellow]
  {
    assert DesiredLevel(DefaultThresholds, 0.5) == Yellow;
    assert Required(DefaultUp, Green, Yellow) == 2;
    var s1 := EngineState(Green, 1, 0);
    assert [0.5, 0.5][1..] == [0.5];
    assert Trace(DefaultConfig, s1, [0.5]) == [Yellow];
  }

  /** From orange, one tick at 0.80 gives red. */
  lemma OrangeToRedInOneTick()
    ensures Step(DefaultConfig, EngineState(Orange, 0, 0), 0.80).1 == Red
  {
    assert DesiredLevel(DefaultThresholds, 0.80) == Red;
    assert Required(DefaultUp, Orange, Red) == 1;
  }

  /** Red -> green is not listed, so a single tick below yellow drops from red
      straight to green without passing through orange, whatever the counters. */
  lemma RedDropsStraightToGreen(u: nat, dn: nat, risk: real)
    requires risk < 0.40
    ensures Step(DefaultConfig, EngineState(Red, u, dn), risk).1 == Green
  {
    assert DesiredLevel(DefaultThresholds, risk) == Green;
    assert (Red, Green) !in DefaultDown;
    UnlistedPairCommitsAtOnce(DefaultConfig, EngineState(Red, u, dn), risk);
  }

  /** Green -> orange is not listed either: one tick at orange risk escalates two levels. */
  lemma GreenJumpsToOrange(risk: real)
    requires 0.60 <= risk < 0.75
    ensures Step(DefaultConfig, Initial, risk).1 == Orange
  {
    assert DesiredLevel(DefaultThresholds, risk) == Orange;
    assert (Green, Orange) !in DefaultUp;
    UnlistedPairCommitsAtOnce(DefaultConfig, Initial, risk);
  }

  /** Risks that stay in the yellow or orange band and never ask for orange
      twice in a row. */
  predicate Flickering(rs: seq<real>)
  {
    && (forall i :: 0 <= i < |rs| ==> 0.40 <= rs[i] < 0.75)
    && (forall i :: 0 <= i < |rs| - 1 && rs[i] >= 0.60 ==> rs[i + 1] < 0.60)
  }

  /** From yellow, flickering risk never commits: every reported level is yellow. */
  lemma {:induction false} FlickerNeverCommits(s: EngineState, rs: seq<real>)
    requires s.level == Yellow && s.down == 0 && s.up <= 1
    requires s.up == 1 && |rs| > 0 ==> rs[0] < 0.60
    requires Flickering(rs)
    ensures forall i :: 0 <= i < |rs| ==> Trace(DefaultConfig, s, rs)[i] == Yellow
    decreases |rs|
  {
    if |rs| > 0 {
      var r := rs[0];
      var next := Step(DefaultConfig, s, r).0;
      if r >= 0.60 {
        assert DesiredLevel(DefaultThresholds, r) == Orange;
        assert Required(DefaultUp, Yellow, Orange) == 2;
        assert next == EngineState(Yellow, 1, 0);
      } else {
        assert DesiredLevel(DefaultThresholds, r) == Yellow;
        assert next == EngineState(Yellow, 0, 0);
      }
      var rest := rs[1..];
      assert forall i :: 0 <= i < |rest| ==> rest[i] == rs[i + 1];
      assert Flickering(rest);
      FlickerNeverCommits(next, rest);
      var t := Trace(DefaultConfig, s, rs);
      assert t == [Yellow] + Trace(DefaultConfig, next, rest);
      forall i | 0 <= i < |rs|
        ensures t[i] == Yellow
      {
        if i > 0 {
          assert t[i] == Trace(DefaultConfig, next, rest)[i - 1];
        }
      }
    }
  }

  /** Alternating 0.61, 0.59, 0.61, ... around the orange threshold. */
  function Alternating(n: nat): (rs: seq<real>)
    ensures |rs| == n
  {
    seq(n, i => if i % 2 == 0 then 0.61 else 0.59)
  }

  /** Starting at yellow, alternating 0.61 / 0.59 never commits a change. */
  lemma AlternatingStaysYellow(n: nat)
    ensures forall i :: 0 <= i < n ==> Trace(DefaultConfig, EngineState(Yellow, 0, 0), Alternating(n))[i] == Yellow
  {
    var rs := Alternating(n);
    forall i | 0 <= i < |rs| - 1 && rs[i] >= 0.60
      ensures rs[i + 1] < 0.60
    {
      assert i % 2 == 0;
      assert (i + 1) % 2 == 1;
    }
    FlickerNeverCommits(EngineState(Yellow, 0, 0), rs);
  }

  /** A fresh engine fed only risks below yellow stays green with clear counters. */
  lemma {:induction false} InitialStaysGreenBelowYellow(cfg: EwsConfig, rs: seq<real>)
    requires forall i :: 0 <= i < |rs| ==> rs[i] < cfg.thresholds.yellow
    requires cfg.thresholds.yellow <= cfg.thresholds.orange <= cfg.thresholds.red
    ensures Run(cfg, Initial, rs) == Initial
    decreases |rs|
  {
    if |rs| > 0 {
      assert DesiredLevel(cfg.thresholds, rs[0]) == Green;
      assert Step(cfg, Initial, rs[0]).0 == Initial;
      InitialStaysGreenBelowYellow(cfg, rs[1..]);
    }
  }
}
