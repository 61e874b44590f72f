/** The debt agent's rule-based decision: ten observation fields are
    sanitised (clamped to [0, 1], or re-centred to [-1, 1] for the three
    slopes) and an ordered chain of rules, first match wins, picks action
    1 (hold), 2 or 3. The only memory is the previously emitted action,
    consulted in the last rule alone.

    Arithmetic is on reals: float rounding at exact thresholds (for
    instance `1.8 + leverage * 0.4 < 1.9`) is idealised. */
module DebtEngine {
  import opened Protocol

  const ObsDim: nat := 10
  const LeverageBottom: real := 1.8
  const LeverageTop: real := 2.2
  const LeverageRange: real := LeverageTop - LeverageBottom

  /** The action assumed when no action has been emitted yet (hold). */
  const DefaultAction: int := 1

  function Abs(x: real): real
  {
    if x < 0.0 then -x else x
  }

  function Max(a: real, b: real): real
  {
    if a < b then b else a
  }

  function Min(a: real, b: real): real
  {
    if a < b then a else b
  }

  /** Maps a slope normalised to [0, 1] back to [-1, 1], saturating outside
      [0, 1]; non-finite input counts as flat. The result is 0 exactly at
      the midpoint 0.5. */
  function ZeroCenter(v: Float): (r: real)
    ensures -1.0 <= r <= 1.0
    ensures v.NonFinite? ==> r == 0.0
    ensures r == 0.0 <==> v.NonFinite? || v.r == 0.5
    ensures v.Finite? && 0.0 <= v.r <= 1.0 ==> r == (v.r - 0.5) * 2.0
    ensures v.Finite? && v.r < 0.0 ==> r == -1.0
    ensures v.Finite? && 1.0 < v.r ==> r == 1.0
  {
    match v
    case NonFinite => 0.0
    case Finite(x) => Max(-1.0, Min(1.0, (x - 0.5) * 2.0))
  }

  /** Clamps to [0, 1]: the identity inside, the nearest bound outside,
      and 0 for non-finite input. */
  function Clamp01(v: Float): (r: real)
    ensures 0.0 <= r <= 1.0
    ensures v.NonFinite? ==> r == 0.0
    ensures v.Finite? && 0.0 <= v.r <= 1.0 ==> r == v.r
    ensures v.Finite? && v.r < 0.0 ==> r == 0.0
    ensures v.Finite? && 1.0 < v.r ==> r == 1.0
  {
    match v
    case NonFinite => 0.0
    case Finite(x) => Max(0.0, Min(1.0, x))
  }

  /** The observation after sanitising, field by field in the order the
      caller sends them. */
  datatype Features = Features(
    leverage: real,
    coverage: real,
    leverageMean: real,
    leverageSlope: real,
    volRatio: real,
    volMean: real,
    volSlope: real,
    calm: real,
    calmMean: real,
    calmSlope: real)

  /** Every level field in [0, 1], every slope in [-1, 1]. */
  predicate Sanitised(f: Features)
  {
    0.0 <= f.leverage <= 1.0 && 0.0 <= f.coverage <= 1.0 && 0.0 <= f.leverageMean <= 1.0
    && 0.0 <= f.volRatio <= 1.0 && 0.0 <= f.volMean <= 1.0
    && 0.0 <= f.calm <= 1.0 && 0.0 <= f.calmMean <= 1.0
    && -1.0 <= f.leverageSlope <= 1.0 && -1.0 <= f.volSlope <= 1.0 && -1.0 <= f.calmSlope <= 1.0
  }

  function Sanitise(obs: seq<Float>): (f: Features)
    requires |obs| == ObsDim
    ensures Sanitised(f)
  {
    Features(
      Clamp01(obs[0]), Clamp01(obs[1]), Clamp01(obs[2]), ZeroCenter(obs[3]),
      Clamp01(obs[4]), Clamp01(obs[5]), ZeroCenter(obs[6]),
      Clamp01(obs[7]), Clamp01(obs[8]), ZeroCenter(obs[9]))
  }

  function IncreasePressure(f: Features): real
  {
    (0.35 - f.leverage) * 2.0
    + (f.coverage - 0.55) * 1.5
    + (f.calm - f.calmMean) * 0.8
    - Abs(f.volSlope) * 0.6
    - Abs(f.calmSlope) * 0.4
  }

  function DecreasePressure(f: Features): real
  {
    (f.leverage - 0.65) * 2.0
    + (0.45 - f.coverage) * 1.7
    + (f.volRatio - f.volMean) * 0.9
    + Max(0.0, f.leverageSlope) * 0.8
    + Max(0.0, f.volSlope) * 0.6
  }

  function GapAbs(f: Features): real
  {
    Abs(f.leverageMean - f.leverage)
  }

  function CalmDelta(f: Features): real
  {
    Abs(f.calm - f.calmMean)
  }

  /** The leverage de-normalised into the band [1.8, 2.2]. */
  function LeverageActual(f: Features): real
  {
    LeverageBottom + f.leverage * LeverageRange
  }

  // The conditions of the chain, in order.

  predicate Rule1(f: Features) { f.coverage > 0.65 && f.volRatio < 0.9 }
  predicate Rule2(f: Features) { f.coverage < 0.48 || f.volRatio > 0.95 }
  predicate Rule3(f: Features) { f.leverageSlope > 0.12 || f.volSlope > 0.12 }
  predicate Rule4(f: Features) { f.leverageSlope < -0.12 || f.volSlope < -0.12 }
  predicate Rule5(f: Features)
  {
    GapAbs(f) < 0.02 && CalmDelta(f) < 0.03 && Abs(f.volRatio - f.volMean) < 0.03
  }
  predicate Rule6(f: Features) { LeverageActual(f) < LeverageBottom + 0.1 && f.coverage >= 0.52 }
  predicate Rule7(f: Features) { LeverageActual(f) > LeverageTop - 0.1 || f.coverage <= 0.42 }
  predicate Rule8(f: Features) { IncreasePressure(f) > 0.4 && DecreasePressure(f) < 0.2 }
  predicate Rule9(f: Features) { DecreasePressure(f) > 0.3 && IncreasePressure(f) < 0.25 }

  /** None of rules 1 to 9 applies: the chain reaches its fallback. */
  predicate Fallback(f: Features)
  {
    !Rule1(f) && !Rule2(f) && !Rule3(f) && !Rule4(f) && !Rule5(f)
    && !Rule6(f) && !Rule7(f) && !Rule8(f) && !Rule9(f)
  }

  /** Both trend slopes are flat enough for the fallback to keep the
      previous action. */
  predicate SlopesFlat(f: Features)
  {
    Abs(f.leverageSlope) < 0.05 && Abs(f.volSlope) < 0.05
  }

  /** The first-match-wins chain. The action is one of 1, 2, 3, or else
      the previous action handed back unchanged. */
  function Chain(f: Features, last: int): (a: int)
    ensures a != last ==> a in {1, 2, 3}
  {
    if Rule1(f) then 2
    else if Rule2(f) then 3
    else if Rule3(f) then 3
    else if Rule4(f) then 2
    else if Rule5(f) then 1
    else if Rule6(f) then 2
    else if Rule7(f) then 3
    else if Rule8(f) then 2
    else if Rule9(f) then 3
    else if SlopesFlat(f) then last
    else if last in {2, 3} then 1
    else 1
  }

  /** The decision of `_decide_action` for a ten-element observation and
      the previous action. */
  function Decide(obs: seq<Float>, last: int): (a: int)
    requires |obs| == ObsDim
    ensures last in {1, 2, 3} ==> a in {1, 2, 3}
  {
    Chain(Sanitise(obs), last)
  }

  /** Rule 1 wins over everything after it, whatever the other fields and
      the previous action are. */
  lemma CoverageWins(obs: seq<Float>, last: int)
    requires |obs| == ObsDim
    requires Clamp01(obs[1]) > 0.65 && Clamp01(obs[4]) < 0.9
    ensures Decide(obs, last) == 2
  {
  }

  /** When rule 1 does not fire, weak coverage or high volatility yields 3
      whatever follows in the chain. */
  lemma WeakCoverageOrVolatileYields3(obs: seq<Float>, last: int)
    requires |obs| == ObsDim
    requires !(Clamp01(obs[1]) > 0.65 && Clamp01(obs[4]) < 0.9)
    requires Clamp01(obs[1]) < 0.48 || Clamp01(obs[4]) > 0.95
    ensures Decide(obs, last) == 3
  {
  }

  /** An observation of all 0.5 is held by rule 5: the slopes re-centre to
      0 and the leverage gap, calm delta and volatility difference are 0. */
  lemma NeutralObservationHolds(last: int)
    ensures Decide(seq(ObsDim, _ => Finite(0.5)), last) == 1
  {
    var obs := seq(ObsDim, _ => Finite(0.5));
    var f := Sanitise(obs);
    assert f == Features(0.5, 0.5, 0.5, 0.0, 0.5, 0.5, 0.0, 0.5, 0.5, 0.0);
    assert Rule5(f);
  }

  /** The fallback keeps the previous action when both slopes are flat and
      answers 1 otherwise: the test `last in {2, 3}` changes nothing. */
  lemma Hysteresis(f: Features, last: int)
    requires Fallback(f)
    ensures SlopesFlat(f) ==> Chain(f, last) == last
    ensures !SlopesFlat(f) ==> Chain(f, last) == 1
  {
  }

  /** The previous action matters only in the hysteresis branch: two
      decisions that differ only in it agree unless the fallback is reached
      with flat slopes, and then each echoes its own previous action. */
  lemma MemoryOnlyInHysteresis(f: Features, last1: int, last2: int)
    requires Chain(f, last1) != Chain(f, last2)
    ensures Fallback(f) && SlopesFlat(f)
    ensures Chain(f, last1) == last1 && Chain(f, last2) == last2
  {
  }

  /** The `coverage <= 0.42` half of rule 7 can never fire: rule 2 has
      already answered every coverage below 0.48. */
  lemma Rule7CoverageTestIsDead(f: Features)
    requires !Rule2(f)
    ensures Rule7(f) <==> LeverageActual(f) > LeverageTop - 0.1
  {
  }

  /** A fallback observation keeps the previous action of every kind, and
      the same observation with a tilted leverage slope answers 1. */
  lemma HysteresisExample()
    ensures Decide(HysteresisObservation(0.5), 1) == 1
    ensures Decide(HysteresisObservation(0.5), 2) == 2
    ensures Decide(HysteresisObservation(0.5), 3) == 3
    ensures Decide(HysteresisObservation(0.55), 2) == 1
    ensures Decide(HysteresisObservation(0.55), 3) == 1
  {
    var flat := Sanitise(HysteresisObservation(0.5));
    assert flat == Features(0.5, 0.55, 0.6, 0.0, 0.5, 0.5, 0.0, 0.5, 0.5, 0.0);
    assert Fallback(flat) && SlopesFlat(flat);
    var tilted := Sanitise(HysteresisObservation(0.55));
    assert tilted == Features(0.5, 0.55, 0.6, 0.1, 0.5, 0.5, 0.0, 0.5, 0.5, 0.0);
    assert Fallback(tilted) && !SlopesFlat(tilted);
  }

  /** Mid-range leverage, coverage 0.55, leverage mean 0.6 and the given
      leverage slope: every rule before the fallback fails. */
  function HysteresisObservation(leverageSlope: real): (obs: seq<Float>)
    ensures |obs| == ObsDim
  {
    [Finite(0.5), Finite(0.55), Finite(0.6), Finite(leverageSlope), Finite(0.5),
     Finite(0.5), Finite(0.5), Finite(0.5), Finite(0.5), Finite(0.5)]
  }
}
