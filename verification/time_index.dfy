/**
 Time Index: a time-of-day risk weighting. A base of 0.1, plus 0.5 for every
 configured risk window whose half-open hour interval contains the hour, plus
 0.1 when the hour is one away from a fixed list of shoulder hours; the sum
 is clamped to [0,1].
 */
module TimeIndex {
  import opened Normalizers

  /** A named risk window `start <= hour < end`; only its bounds matter. */
  datatype Window = Window(start: int, end: int)

  predicate Contains(w: Window, hour: int)
  {
    w.start <= hour < w.end
  }

  /** Pre-dawn 3-6, morning 6-10, evening 17-20. */
  const DefaultWindows: seq<Window> := [Window(3, 6), Window(6, 10), Window(17, 20)]

  /** Window boundaries whose neighbours get the shoulder bump; this list is
      fixed even when custom windows are supplied. */
  const ShoulderHours: seq<int> := [3, 6, 10, 17, 20]

  function Abs(x: int): nat { if x < 0 then -x else x }

  /** Number of windows containing the hour. */
  function CountContaining(ws: seq<Window>, hour: int): (k: nat)
    ensures k <= |ws|
    ensures k > 0 <==> exists i :: 0 <= i < |ws| && Contains(ws[i], hour)
  {
    if |ws| == 0 then 0
    else
      var rest := CountContaining(ws[1..], hour);
      assert forall i :: 0 <= i < |ws| - 1 ==> ws[1..][i] == ws[i + 1];
      (if Contains(ws[0], hour) then 1 else 0) + rest
  }

  /** Whether the hour lies exactly one away from some listed hour. */
  function NearAny(hour: int, hs: seq<int>): (b: bool)
    ensures b <==> exists i :: 0 <= i < |hs| && Abs(hour - hs[i]) == 1
  {
    if |hs| == 0 then false
    else
      assert forall i :: 0 <= i < |hs| - 1 ==> hs[1..][i] == hs[i + 1];
      Abs(hour - hs[0]) == 1 || NearAny(hour, hs[1..])
  }

  /** The score before clamping. */
  function TiScore(hour: int, ws: seq<Window>): real
  {
    0.1 + 0.5 * (CountContaining(ws, hour) as real)
        + (if NearAny(hour, ShoulderHours) then 0.1 else 0.0)
  }

  function NormalizeTi(hour: int, ws: seq<Window>): (r: real)
    ensures 0.0 <= r <= 1.0
    ensures r >= 0.1
  {
    Clamp01(TiScore(hour, ws))
  }

  /** The index with the default windows (the source's `risk_windows=None`). */
  function DefaultTi(hour: int): (r: real)
    ensures r in {0.1, 0.2, 0.6, 0.7}
    ensures r >= 0.6 <==> InDefaultWindow(hour)
    ensures r == 0.2 || r == 0.7 <==> IsShoulderHour(hour)
  {
    DefaultCount(hour);
    ShoulderHoursExplicit(hour);
    NormalizeTi(hour, DefaultWindows)
  }

  /** A window appended to any window list adds 0.5 to the score exactly when
      `start <= hour < end`, and nothing otherwise. */
  lemma {:induction false} CountAppend(ws: seq<Window>, w: Window, hour: int)
    ensures CountContaining(ws + [w], hour)
            == CountContaining(ws, hour) + (if Contains(w, hour) then 1 else 0)
  {
    if |ws| == 0 {
      assert ws + [w] == [w];
    } else {
      assert (ws + [w])[1..] == ws[1..] + [w];
      CountAppend(ws[1..], w, hour);
    }
  }

  lemma WindowAddsHalfOnlyInside(ws: seq<Window>, w: Window, hour: int)
    ensures TiScore(hour, ws + [w]) == TiScore(hour, ws) + (if Contains(w, hour) then 0.5 else 0.0)
  {
    CountAppend(ws, w, hour);
  }

  /** Reference definition of the default windows as hour ranges. */
  predicate InDefaultWindow(hour: int)
  {
    (3 <= hour < 10) || (17 <= hour < 20)
  }

  /** Reference definition of the shoulder hours. */
  predicate IsShoulderHour(hour: int)
  {
    hour in {2, 4, 5, 7, 9, 11, 16, 18, 19, 21}
  }

  /** The default windows are disjoint, so at most one of them counts. */
  lemma DefaultCount(hour: int)
    ensures CountContaining(DefaultWindows, hour) == if InDefaultWindow(hour) then 1 else 0
  {
    var ws := DefaultWindows;
    assert ws[1..] == [Window(6, 10), Window(17, 20)];
    assert ws[1..][1..] == [Window(17, 20)];
    assert ws[1..][1..][1..] == [];
    var evening := if 17 <= hour < 20 then 1 else 0;
    var morning := if 6 <= hour < 10 then 1 else 0;
    var preDawn := if 3 <= hour < 6 then 1 else 0;
    assert CountContaining(ws[1..][1..], hour) == evening;
    assert CountContaining(ws[1..], hour) == morning + evening;
    assert CountContaining(ws, hour) == preDawn + morning + evening;
  }

  lemma ShoulderHoursExplicit(hour: int)
    ensures NearAny(hour, ShoulderHours) <==> IsShoulderHour(hour)
  {
    var hs := ShoulderHours;
    assert hs[1..] == [6, 10, 17, 20];
    assert hs[1..][1..] == [10, 17, 20];
    assert hs[1..][1..][1..] == [17, 20];
    assert hs[1..][1..][1..][1..] == [20];
    assert hs[1..][1..][1..][1..][1..] == [];
  }

  /** With the default windows the index is the unclamped sum of the base,
      one window bonus and at most one shoulder bump. */
  lemma DefaultTiReference(hour: int)
    ensures DefaultTi(hour)
            == 0.1 + (if InDefaultWindow(hour) then 0.5 else 0.0)
                   + (if IsShoulderHour(hour) then 0.1 else 0.0)
  {
    DefaultCount(hour);
    ShoulderHoursExplicit(hour);
  }

  /** With the default windows only four values occur. */
  lemma DefaultTiValues(hour: int)
    ensures DefaultTi(hour) in {0.1, 0.2, 0.6, 0.7}
    ensures DefaultTi(hour) >= 0.6 <==> InDefaultWindow(hour)
  {
    DefaultTiReference(hour);
  }

  lemma DefaultTiExamples()
    ensures DefaultTi(5) == 0.7
    ensures DefaultTi(6) == 0.6
    ensures DefaultTi(10) == 0.1
    ensures DefaultTi(12) == 0.1
    ensures DefaultTi(2) == 0.2
  {
    DefaultTiReference(5);
    DefaultTiReference(6);
    DefaultTiReference(10);
    DefaultTiReference(12);
    DefaultTiReference(2);
  }
}
