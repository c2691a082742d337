/** The crash detector's decisions: the sensitivity table, the three rules
    that flag a crash, and the prioritised rules that name its type.

    Every magnitude the source compares is a square root of a sum of
    squares; for a non-negative bound b, `sqrt(s) > b` holds exactly when
    `s > b * b`, so the rules here compare the sums of squares. */
module CrashRules {

  /** The three thresholds of one sensitivity level: impact in m/s^2, jerk
      in m/s^3, and the sudden-stop window in milliseconds. */
  datatype Thresholds = Thresholds(impact: nat, jerk: nat, duration: nat)

  /** The sensitivity table; lower levels are meant to be more sensitive. */
  function SensitivityThresholds(level: nat): (t: Thresholds)
    requires 1 <= level <= 5
    ensures 5 <= t.impact <= 20
    ensures t.jerk == 10 * (level + 1) && t.duration == 50 * (level + 1)
  {
    if level == 1 then Thresholds(5, 20, 100)
    else if level == 2 then Thresholds(8, 30, 150)
    else if level == 3 then Thresholds(12, 40, 200)
    else if level == 4 then Thresholds(15, 50, 250)
    else Thresholds(20, 60, 300)
  }

  /** An acceleration reading in m/s^2, gravity included. */
  datatype Vector = Vector(x: real, y: real, z: real)

  /** A reading with the time it was taken, in milliseconds. */
  datatype Sample = Sample(accel: Vector, timestamp: int)

  /** The state the detector starts from: no motion, at time 0. */
  const Rest: Sample := Sample(Vector(0.0, 0.0, 0.0), 0)

  function MagnitudeSq(v: Vector): real {
    v.x * v.x + v.y * v.y + v.z * v.z
  }

  function LateralSq(v: Vector): real {
    v.x * v.x + v.y * v.y
  }

  function RealAbs(v: real): real {
    if v < 0.0 then -v else v
  }

  function Max(a: real, b: real): real {
    if a < b then b else a
  }

  /** `|current - previous| / (timeDiff / 1000)`, the rate of change of one
      axis per second. */
  function Jerk(current: real, previous: real, timeDiff: int): real
    requires timeDiff > 0
  {
    RealAbs(current - previous) / (timeDiff as real / 1000.0)
  }

  /** `Math.max(jerkX, jerkY, jerkZ)`. */
  function MaxJerk(current: Vector, previous: Vector, timeDiff: int): real
    requires timeDiff > 0
  {
    Max(Max(Jerk(current.x, previous.x, timeDiff), Jerk(current.y, previous.y, timeDiff)),
        Jerk(current.z, previous.z, timeDiff))
  }

  /** Rule 1: the magnitude exceeds the impact threshold. */
  predicate ImpactRule(t: Thresholds, current: Vector) {
    MagnitudeSq(current) > (t.impact * t.impact) as real
  }

  /** Rule 2: after a stamped sample and with time having passed, the
      fastest-changing axis exceeds the jerk threshold. */
  predicate JerkRule(t: Thresholds, last: Sample, current: Vector, timestamp: int) {
    last.timestamp > 0 && timestamp - last.timestamp > 0 &&
    MaxJerk(current, last.accel, timestamp - last.timestamp) > t.jerk as real
  }

  /** Rule 3: the previous magnitude was above 5, the current one is below
      2, and less time than the window has passed. */
  predicate SuddenStopRule(t: Thresholds, last: Sample, current: Vector, timestamp: int) {
    MagnitudeSq(last.accel) > 25.0 && MagnitudeSq(current) < 4.0 &&
    timestamp - last.timestamp < t.duration
  }

  /** `detectCrash`: the three rules tried in turn, the first that holds
      returning true. */
  function DetectCrash(t: Thresholds, last: Sample, current: Vector, timestamp: int): (crash: bool)
    ensures crash <==> ImpactRule(t, current) || JerkRule(t, last, current, timestamp) ||
                       SuddenStopRule(t, last, current, timestamp)
  {
    if MagnitudeSq(current) > (t.impact * t.impact) as real then true
    else if last.timestamp > 0 && timestamp - last.timestamp > 0 &&
            MaxJerk(current, last.accel, timestamp - last.timestamp) > t.jerk as real then true
    else MagnitudeSq(last.accel) > 25.0 && MagnitudeSq(current) < 4.0 &&
         timestamp - last.timestamp < t.duration
  }

  datatype CrashType = Impact | SuddenStop | Rollover

  datatype Classification = Classification(kind: CrashType, confidence: real)

  /** `determineCrashType`: the first rule that holds names the type. */
  function DetermineCrashType(current: Vector, last: Vector): (r: Classification)
    ensures r == Classification(Impact, 0.8) <==> MagnitudeSq(current) > 144.0
    ensures r == Classification(Rollover, 0.7) <==>
            MagnitudeSq(current) <= 144.0 && LateralSq(current) > 64.0 && RealAbs(current.z) < 5.0
    ensures r == Classification(SuddenStop, 0.6) <==>
            MagnitudeSq(current) <= 144.0 && !(LateralSq(current) > 64.0 && RealAbs(current.z) < 5.0) &&
            MagnitudeSq(last) > 36.0 && MagnitudeSq(current) < 9.0
    ensures r == Classification(Impact, 0.5) <==>
            MagnitudeSq(current) <= 144.0 && !(LateralSq(current) > 64.0 && RealAbs(current.z) < 5.0) &&
            !(MagnitudeSq(last) > 36.0 && MagnitudeSq(current) < 9.0)
  {
    if MagnitudeSq(current) > 144.0 then Classification(Impact, 0.8)
    else if LateralSq(current) > 64.0 && RealAbs(current.z) < 5.0 then Classification(Rollover, 0.7)
    else if MagnitudeSq(last) > 36.0 && MagnitudeSq(current) < 9.0 then Classification(SuddenStop, 0.6)
    else Classification(Impact, 0.5)
  }

  // ---- properties ----

  /** Each threshold grows strictly from one level to the next. */
  lemma ThresholdsIncrease(a: nat, b: nat)
    requires 1 <= a < b <= 5
    ensures SensitivityThresholds(a).impact < SensitivityThresholds(b).impact
    ensures SensitivityThresholds(a).jerk < SensitivityThresholds(b).jerk
    ensures SensitivityThresholds(a).duration < SensitivityThresholds(b).duration
  {
  }

  /** A reading over the impact threshold is a crash whatever came before. */
  lemma ImpactAlwaysDetected(t: Thresholds, last: Sample, current: Vector, timestamp: int)
    requires MagnitudeSq(current) > (t.impact * t.impact) as real
    ensures DetectCrash(t, last, current, timestamp)
  {
  }

  /** Right after a reset only the impact rule can fire: the jerk rule needs
      a stamped sample and the sudden-stop rule a previous magnitude above 5. */
  lemma AfterReset(t: Thresholds, current: Vector, timestamp: int)
    ensures DetectCrash(t, Rest, current, timestamp) <==> ImpactRule(t, current)
  {
  }

  /** The jerk rule without division: some axis changed by more than
      jerk * timeDiff / 1000. */
  lemma JerkRuleExact(t: Thresholds, last: Sample, current: Vector, timestamp: int)
    ensures JerkRule(t, last, current, timestamp) <==>
            last.timestamp > 0 && timestamp - last.timestamp > 0 &&
            (|| 1000.0 * RealAbs(current.x - last.accel.x) > (t.jerk * (timestamp - last.timestamp)) as real
             || 1000.0 * RealAbs(current.y - last.accel.y) > (t.jerk * (timestamp - last.timestamp)) as real
             || 1000.0 * RealAbs(current.z - last.accel.z) > (t.jerk * (timestamp - last.timestamp)) as real)
  {
    var d := timestamp - last.timestamp;
    if d > 0 {
      JerkExact(current.x, last.accel.x, d, t.jerk);
      JerkExact(current.y, last.accel.y, d, t.jerk);
      JerkExact(current.z, last.accel.z, d, t.jerk);
    }
  }

  lemma JerkExact(current: real, previous: real, timeDiff: int, bound: nat)
    requires timeDiff > 0
    ensures Jerk(current, previous, timeDiff) > bound as real <==>
            1000.0 * RealAbs(current - previous) > (bound * timeDiff) as real
  {
    var s := timeDiff as real / 1000.0;
    var a := RealAbs(current - previous);
    assert a / s * s == a;
    assert (bound * timeDiff) as real == bound as real * timeDiff as real;
    assert a / s > bound as real <==> a > bound as real * s;
  }

  /** A lower level flags every impact and every jerk that a higher level
      flags. */
  lemma LowerLevelCatchesImpactAndJerk(a: nat, b: nat, last: Sample, current: Vector, timestamp: int)
    requires 1 <= a <= b <= 5
    ensures ImpactRule(SensitivityThresholds(b), current) ==> ImpactRule(SensitivityThresholds(a), current)
    ensures JerkRule(SensitivityThresholds(b), last, current, timestamp) ==>
            JerkRule(SensitivityThresholds(a), last, current, timestamp)
  {
    var ta, tb := SensitivityThresholds(a), SensitivityThresholds(b);
    if a < b {
      ThresholdsIncrease(a, b);
    }
    assert ta.impact * ta.impact <= tb.impact * tb.impact;
  }

  /** The sudden-stop window runs the other way: it is widest at the least
      sensitive level. A stop from 6 m/s^2 to 1.9 m/s^2 in 250 ms is a crash
      at level 5 and not at level 1. */
  lemma SuddenStopWindowWidens()
    ensures var last, current := Sample(Vector(6.0, 0.0, 0.0), 1000), Vector(1.9, 0.0, 0.0);
      && DetectCrash(SensitivityThresholds(5), last, current, 1250)
      && !DetectCrash(SensitivityThresholds(1), last, current, 1250)
  {
    var last, current := Sample(Vector(6.0, 0.0, 0.0), 1000), Vector(1.9, 0.0, 0.0);
    JerkRuleExact(SensitivityThresholds(1), last, current, 1250);
  }

  /** From level 3 up, an impact-rule crash is always typed an impact with
      confidence 0.8, as the impact threshold is then at least 12. */
  lemma ImpactRuleTypedImpact(level: nat, last: Vector, current: Vector)
    requires 3 <= level <= 5 && ImpactRule(SensitivityThresholds(level), current)
    ensures DetermineCrashType(current, last) == Classification(Impact, 0.8)
  {
  }

  /** A sudden stop from a previous magnitude above 6 is typed a sudden
      stop with confidence 0.6. */
  lemma DeepStopTypedSuddenStop(t: Thresholds, last: Sample, current: Vector, timestamp: int)
    requires SuddenStopRule(t, last, current, timestamp) && MagnitudeSq(last.accel) > 36.0
    ensures DetermineCrashType(current, last.accel) == Classification(SuddenStop, 0.6)
  {
    assert current.z * current.z >= 0.0;
  }

  /** The detector's and the classifier's sudden-stop rules disagree: a stop
      from a previous magnitude between 5 and 6 is flagged as a crash but
      typed an impact with confidence 0.5. */
  lemma ShallowStopTypedImpact(t: Thresholds, last: Sample, current: Vector, timestamp: int)
    requires SuddenStopRule(t, last, current, timestamp) && MagnitudeSq(last.accel) <= 36.0
    ensures DetectCrash(t, last, current, timestamp)
    ensures DetermineCrashType(current, last.accel) == Classification(Impact, 0.5)
  {
    assert current.z * current.z >= 0.0;
  }

  /** Such stops exist: from 5.5 m/s^2 to rest within 50 ms is a crash at
      level 2, typed an impact with confidence 0.5. */
  lemma ShallowStopExample()
    ensures var last, current := Sample(Vector(5.5, 0.0, 0.0), 1000), Vector(0.0, 0.0, 0.0);
      && DetectCrash(SensitivityThresholds(2), last, current, 1050)
      && DetermineCrashType(current, last.accel) == Classification(Impact, 0.5)
  {
    var t, last, current := SensitivityThresholds(2), Sample(Vector(5.5, 0.0, 0.0), 1000), Vector(0.0, 0.0, 0.0);
    MagnitudeOnX(last.accel);
    MagnitudeOnX(current);
    ShallowStopTypedImpact(t, last, current, 1050);
  }

  lemma MagnitudeOnX(v: Vector)
    requires v.y == 0.0 && v.z == 0.0
    ensures MagnitudeSq(v) == v.x * v.x
  {
  }

  /** The confidence tells the type apart: 0.7 only for rollovers, 0.6 only
      for sudden stops, 0.8 and 0.5 only for impacts. */
  lemma ConfidenceNamesType(current: Vector, last: Vector)
    ensures var r := DetermineCrashType(current, last);
      && (r.kind == Rollover <==> r.confidence == 0.7)
      && (r.kind == SuddenStop <==> r.confidence == 0.6)
      && (r.kind == Impact <==> r.confidence == 0.8 || r.confidence == 0.5)
  {
  }
}
