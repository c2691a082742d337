/** The crash monitor's state machine: the event log and the motion handler
    that feeds readings to the detector and logs what it flags. */
module CrashMonitor {
  import opened Wrappers
  import opened CrashRules
  import opened Sequences

  /** The log keeps the 15 most recent events, newest first. */
  const MaxEvents: nat := 15

  /** One logged crash: the reading that triggered it and its type. */
  datatype CrashEvent = CrashEvent(acceleration: Vector, kind: CrashType, confidence: real)

  /** `[newEvent, ...events.slice(0, 14)]`: the new event first, then the
      newest 14 of the old ones. */
  function Logged(events: seq<CrashEvent>, e: CrashEvent): (r: seq<CrashEvent>)
    ensures |r| == if |events| < MaxEvents then |events| + 1 else MaxEvents
    ensures r[0] == e && r[1..] <= events
  {
    [e] + Take(events, MaxEvents - 1)
  }

  /** `parsedEvents.slice(0, 15)`: a saved log is cut to its first 15
      events. */
  function Loaded(saved: seq<CrashEvent>): (r: seq<CrashEvent>)
    ensures r <= saved
    ensures |r| == if |saved| < MaxEvents then |saved| else MaxEvents
    ensures |saved| <= MaxEvents ==> r == saved
  {
    Take(saved, MaxEvents)
  }

  /** The elements of s, last first. */
  function Reversed<T>(s: seq<T>): (r: seq<T>)
    ensures |r| == |s|
  {
    if |s| == 0 then [] else [s[|s| - 1]] + Reversed(s[..|s| - 1])
  }

  /** The log after events es are logged one after another. */
  function LogAll(events: seq<CrashEvent>, es: seq<CrashEvent>): seq<CrashEvent>
  {
    if |es| == 0 then events else Logged(LogAll(events, es[..|es| - 1]), es[|es| - 1])
  }

  /** The log always holds the 15 most recent events, newest first: after
      es are logged to a log of at most 15, it is the first 15 of es in
      reverse followed by the events before them. */
  lemma {:induction false} LogAllKeepsNewest(events: seq<CrashEvent>, es: seq<CrashEvent>)
    requires |events| <= MaxEvents
    ensures LogAll(events, es) == Take(Reversed(es) + events, MaxEvents)
  {
    if |es| > 0 {
      var e, init := es[|es| - 1], es[..|es| - 1];
      LogAllKeepsNewest(events, init);
      LoggedKeepsNewest(LogAll(events, init), e, Reversed(init) + events);
      ReversedSnoc(es, events);
    }
  }

  /** Reversing puts the last element first. */
  lemma ReversedSnoc<T>(s: seq<T>, tail: seq<T>)
    requires |s| > 0
    ensures Reversed(s) + tail == [s[|s| - 1]] + (Reversed(s[..|s| - 1]) + tail)
  {
    var x, r := s[|s| - 1], Reversed(s[..|s| - 1]);
    assert Reversed(s) == [x] + r;
    ConsAppend(x, r, tail);
  }

  lemma ConsAppend<T>(x: T, s: seq<T>, tail: seq<T>)
    ensures ([x] + s) + tail == [x] + (s + tail)
  {
  }

  /** One event logged to the newest 15 of rest gives the newest 15 of the
      event followed by rest. */
  lemma LoggedKeepsNewest(log: seq<CrashEvent>, e: CrashEvent, rest: seq<CrashEvent>)
    requires log == Take(rest, MaxEvents)
    ensures Logged(log, e) == Take([e] + rest, MaxEvents)
  {
    TakeTake(rest, MaxEvents, MaxEvents - 1);
    TakeCons(e, rest, MaxEvents - 1);
  }

  /** `accelerationIncludingGravity`: an axis may be missing (null) or NaN,
      which None stands for here. */
  datatype Reading = Reading(x: Option<real>, y: Option<real>, z: Option<real>)

  /** `value || 0`: a missing or NaN axis, and 0 itself, read as 0. */
  function OrZero(v: Option<real>): (r: real)
    ensures v.Some? ==> r == v.value
    ensures v.None? ==> r == 0.0
  {
    match v
    case None => 0.0
    case Some(value) => value
  }

  /** The reading as the detector sees it. */
  function Accel(reading: Reading): Vector {
    Vector(OrZero(reading.x), OrZero(reading.y), OrZero(reading.z))
  }

  /** A reading with every axis missing is seen as the detector at rest: it
      never trips the impact rule, it stops suddenly exactly when the last
      sample's magnitude exceeded 5 inside the window, and straight after a
      reset it is never a crash. */
  lemma MissingAxesAtRest(t: Thresholds, last: Sample, timestamp: int)
    ensures Accel(Reading(None, None, None)) == Rest.accel
    ensures !ImpactRule(t, Accel(Reading(None, None, None)))
    ensures SuddenStopRule(t, last, Accel(Reading(None, None, None)), timestamp) <==>
            MagnitudeSq(last.accel) > 25.0 && timestamp - last.timestamp < t.duration
    ensures !DetectCrash(t, Rest, Accel(Reading(None, None, None)), timestamp)
  {
    var v := Accel(Reading(None, None, None));
    assert v == Rest.accel;
    RestNoImpact(t);
    assert MagnitudeSq(v) == 0.0;
    assert !JerkRule(t, Rest, v, timestamp);
  }

  /** The rest vector has magnitude 0 and so never exceeds an impact threshold. */
  lemma RestNoImpact(t: Thresholds)
    ensures !ImpactRule(t, Rest.accel)
  {
    assert MagnitudeSq(Rest.accel) == 0.0;
    SquareNonNegative(t.impact);
  }

  lemma {:induction false} SquareNonNegative(n: nat)
    ensures n * n >= 0
  {
    if n > 0 {
      SquareNonNegative(n - 1);
      assert n * n == (n - 1) * (n - 1) + 2 * n - 1;
    }
  }

  /** The crash-detection page's state. */
  class Monitor {
    var isMonitoring: bool
    var crashDetected: bool
    var events: seq<CrashEvent>
    var sensitivity: nat
    var lastAcceleration: Sample
    var acceleration: Vector

    /** The sensitivity is one of the five levels and the log holds at most
        15 events. */
    ghost predicate Valid()
      reads this
    {
      1 <= sensitivity <= 5 && |events| <= MaxEvents
    }

    /** The initial state: idle, level 2, an empty log, and the detector at
        rest. */
    constructor ()
      ensures Valid()
      ensures !isMonitoring && !crashDetected && events == [] && sensitivity == 2
      ensures lastAcceleration == Rest && acceleration == Rest.accel
    {
      isMonitoring := false;
      crashDetected := false;
      events := [];
      sensitivity := 2;
      lastAcceleration := Rest;
      acceleration := Rest.accel;
    }

    /** `loadEvents`: a saved log, if there is one, replaces the current log,
        cut to 15 events. None stands for no saved log and for one that
        does not parse. */
    method LoadEvents(saved: Option<seq<CrashEvent>>)
      requires Valid()
      modifies this
      ensures Valid()
      ensures events == if saved.Some? then Loaded(saved.value) else old(events)
      ensures isMonitoring == old(isMonitoring) && crashDetected == old(crashDetected)
      ensures sensitivity == old(sensitivity) && lastAcceleration == old(lastAcceleration)
      ensures acceleration == old(acceleration)
    {
      if saved.Some? {
        events := Loaded(saved.value);
      }
    }

    /** `logCrashEvent`: the crash is typed from the current and the
        previous reading and put at the head of the log. */
    method LogCrashEvent(current: Vector, last: Vector)
      requires Valid()
      modifies this
      ensures Valid()
      ensures var c := DetermineCrashType(current, last);
        events == Logged(old(events), CrashEvent(current, c.kind, c.confidence))
      ensures isMonitoring == old(isMonitoring) && crashDetected == old(crashDetected)
      ensures sensitivity == old(sensitivity) && lastAcceleration == old(lastAcceleration)
      ensures acceleration == old(acceleration)
    {
      var c := DetermineCrashType(current, last);
      events := Logged(events, CrashEvent(current, c.kind, c.confidence));
    }

    /** `clearEvents`: the log is emptied. */
    method ClearEvents()
      requires Valid()
      modifies this
      ensures Valid()
      ensures events == []
      ensures isMonitoring == old(isMonitoring) && crashDetected == old(crashDetected)
      ensures sensitivity == old(sensitivity) && lastAcceleration == old(lastAcceleration)
      ensures acceleration == old(acceleration)
    {
      events := [];
    }

    /** A sensitivity button: the level becomes the one pressed. */
    method SetSensitivity(level: nat)
      requires Valid() && 1 <= level <= 5
      modifies this
      ensures Valid()
      ensures sensitivity == level
      ensures isMonitoring == old(isMonitoring) && crashDetected == old(crashDetected)
      ensures events == old(events) && lastAcceleration == old(lastAcceleration)
      ensures acceleration == old(acceleration)
    {
      sensitivity := level;
    }

    /** `startMonitoring`: with sensor access granted, monitoring starts with
        the alert cleared and the detector at rest; without it nothing
        changes. */
    method StartMonitoring(permitted: bool)
      requires Valid()
      modifies this
      ensures Valid()
      ensures !permitted ==>
        && isMonitoring == old(isMonitoring) && crashDetected == old(crashDetected)
        && lastAcceleration == old(lastAcceleration)
      ensures permitted ==> isMonitoring && !crashDetected && lastAcceleration == Rest
      ensures events == old(events) && sensitivity == old(sensitivity)
      ensures acceleration == old(acceleration)
    {
      if permitted {
        isMonitoring := true;
        crashDetected := false;
        lastAcceleration := Rest;
      }
    }

    /** `stopMonitoring`: monitoring stops and the alert is cleared; the last
        sample is kept. */
    method StopMonitoring()
      requires Valid()
      modifies this
      ensures Valid()
      ensures !isMonitoring && !crashDetected
      ensures events == old(events) && sensitivity == old(sensitivity)
      ensures lastAcceleration == old(lastAcceleration) && acceleration == old(acceleration)
    {
      isMonitoring := false;
      crashDetected := false;
    }

    /** The alert's timer running out: the alert is cleared. */
    method CrashAlertExpired()
      requires Valid()
      modifies this
      ensures Valid()
      ensures !crashDetected
      ensures isMonitoring == old(isMonitoring) && events == old(events)
      ensures sensitivity == old(sensitivity) && lastAcceleration == old(lastAcceleration)
      ensures acceleration == old(acceleration)
    {
      crashDetected := false;
    }

    /** `handleMotionEvent`, attached only while monitoring. A reading is
        shown, and checked against the last sample; a crash is logged only
        when none is being alerted already, and the alert is raised. The
        reading then becomes the last sample, stamped `now`. */
    method HandleMotion(reading: Option<Reading>, now: int)
      requires Valid()
      modifies this
      ensures Valid()
      ensures isMonitoring == old(isMonitoring) && sensitivity == old(sensitivity)
      ensures !old(isMonitoring) || reading.None? ==>
        && crashDetected == old(crashDetected) && events == old(events)
        && lastAcceleration == old(lastAcceleration) && acceleration == old(acceleration)
      ensures old(isMonitoring) && reading.Some? ==>
        var current := Accel(reading.value);
        var crash := DetectCrash(SensitivityThresholds(sensitivity), old(lastAcceleration), current, now);
        var c := DetermineCrashType(current, old(lastAcceleration).accel);
        && acceleration == current
        && lastAcceleration == Sample(current, now)
        && crashDetected == (old(crashDetected) || crash)
        && events == (if crash && !old(crashDetected)
                      then Logged(old(events), CrashEvent(current, c.kind, c.confidence))
                      else old(events))
    {
      if !isMonitoring || reading.None? {
        return;
      }
      var currentThresholds := SensitivityThresholds(sensitivity);
      var current := Accel(reading.value);
      var previous := lastAcceleration;
      var crash := DetectCrash(currentThresholds, previous, current, now);
      acceleration := current;
      if crash && !crashDetected {
        LogCrashEvent(current, previous.accel);
        crashDetected := true;
      }
      lastAcceleration := Sample(current, now);
    }
  }
}
