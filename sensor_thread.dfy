/**
 * A sensor polling session (sensor/thread.py, with the SensorType enum of
 * sensor/types.py): auto-detection of the attached sensor, the `_running`
 * flag, and the body of the polling loop.
 */
module SensorThreads {
  import opened Wrappers

  /** `SensorType`. */
  datatype SensorType = Ultrasonic | Touch | Light | Sound | Color

  /** The fixed order in which detection tries the candidate sensors. */
  const ProbeOrder: seq<SensorType> := [Ultrasonic, Touch, Light, Sound, Color]

  /**
   * What constructing a sensor and taking a sample does: a value, an
   * `I2CError`, or any other exception.
   */
  datatype Outcome = Ok(value: int) | I2CErr | OtherErr

  /**
   * Whether the `except` around probing candidate `t` swallows outcome `o`:
   * the Ultrasonic probe catches only `I2CError`, the others catch every exception.
   */
  predicate Absorbed(t: SensorType, o: Outcome)
  {
    if t == Ultrasonic then o == I2CErr else !o.Ok?
  }

  /**
   * A successful probe is never swallowed; the Ultrasonic probe swallows only
   * `I2CError`, every other probe swallows any exception.
   */
  lemma AbsorbedCases(t: SensorType, o: Outcome)
    ensures Absorbed(t, o) ==> !o.Ok?
    ensures t == Ultrasonic ==> (Absorbed(t, o) <==> o == I2CErr)
    ensures t != Ultrasonic ==> (Absorbed(t, o) <==> o == I2CErr || o == OtherErr)
  {
  }

  /** The result of detection: a sensor type, `(None, None)`, or an exception that escapes. */
  datatype Detection = Found(kind: SensorType) | NoSensor | Escaped

  /** A detection result together with the candidates probed, in the order probed. */
  datatype Probing = Probing(result: Detection, tried: seq<SensorType>)

  /**
   * `__detect_sensor` from the i-th candidate on, where `probe(t)` is the
   * outcome of constructing candidate `t` and taking its first sample.
   */
  function DetectFrom(probe: SensorType -> Outcome, i: nat): (r: Probing)
    requires i <= |ProbeOrder|
    decreases |ProbeOrder| - i
    ensures |r.tried| <= |ProbeOrder| - i && r.tried == ProbeOrder[i..i + |r.tried|]
    ensures forall k | 0 <= k < |r.tried| - 1 :: Absorbed(r.tried[k], probe(r.tried[k]))
    ensures r.result.Found? ==>
      r.tried != [] && r.tried[|r.tried| - 1] == r.result.kind && probe(r.result.kind).Ok?
    ensures r.result.Escaped? ==>
      r.tried != [] && r.tried[|r.tried| - 1] == Ultrasonic && probe(Ultrasonic) == OtherErr
    ensures r.result.NoSensor? <==>
      r.tried == ProbeOrder[i..] && forall k | 0 <= k < |r.tried| :: Absorbed(r.tried[k], probe(r.tried[k]))
  {
    if i == |ProbeOrder| then Probing(NoSensor, [])
    else
      var t := ProbeOrder[i];
      var o := probe(t);
      if o.Ok? then Probing(Found(t), [t])
      else if Absorbed(t, o) then
        var rest := DetectFrom(probe, i + 1);
        Probing(rest.result, [t] + rest.tried)
      else Probing(Escaped, [t])
  }

  function Detect(probe: SensorType -> Outcome): (r: Probing)
  {
    DetectFrom(probe, 0)
  }

  /**
   * When candidate j is the first one from i on whose probe succeeds, detection
   * returns it, having probed exactly the candidates i..j.
   */
  lemma {:induction false} DetectFromFirstSuccess(probe: SensorType -> Outcome, i: nat, j: nat)
    requires i <= j < |ProbeOrder|
    requires probe(ProbeOrder[j]).Ok?
    requires forall k | i <= k < j :: Absorbed(ProbeOrder[k], probe(ProbeOrder[k]))
    ensures DetectFrom(probe, i) == Probing(Found(ProbeOrder[j]), ProbeOrder[i..j + 1])
    decreases j - i
  {
    if i < j {
      DetectFromFirstSuccess(probe, i + 1, j);
      assert ProbeOrder[i..j + 1] == [ProbeOrder[i]] + ProbeOrder[i + 1..j + 1];
    }
  }

  /**
   * Detection finds type t exactly when t's probe succeeds and the probes of
   * every earlier candidate were swallowed; then no later candidate is probed.
   */
  lemma DetectFindsFirstSuccess(probe: SensorType -> Outcome, j: nat)
    requires j < |ProbeOrder|
    ensures Detect(probe).result == Found(ProbeOrder[j]) <==>
      probe(ProbeOrder[j]).Ok? && forall k | 0 <= k < j :: Absorbed(ProbeOrder[k], probe(ProbeOrder[k]))
    ensures Detect(probe).result == Found(ProbeOrder[j]) ==> Detect(probe).tried == ProbeOrder[..j + 1]
  {
    var r := Detect(probe);
    if probe(ProbeOrder[j]).Ok? && forall k | 0 <= k < j :: Absorbed(ProbeOrder[k], probe(ProbeOrder[k])) {
      DetectFromFirstSuccess(probe, 0, j);
    }
    if r.result == Found(ProbeOrder[j]) {
      var n := |r.tried|;
      assert r.tried == ProbeOrder[..n];
      assert ProbeOrder[n - 1] == ProbeOrder[j];
      assert n - 1 == j;
      forall k | 0 <= k < j
        ensures Absorbed(ProbeOrder[k], probe(ProbeOrder[k]))
      {
        assert r.tried[k] == ProbeOrder[k];
      }
    }
  }

  /** If every candidate's probe is swallowed, all five are probed and detection gives `(None, None)`. */
  lemma DetectAllFail(probe: SensorType -> Outcome)
    requires forall k | 0 <= k < |ProbeOrder| :: Absorbed(ProbeOrder[k], probe(ProbeOrder[k]))
    ensures Detect(probe) == Probing(NoSensor, ProbeOrder)
  {
    assert ProbeOrder[0..] == ProbeOrder;
  }

  /**
   * Any exception other than `I2CError` from the Ultrasonic probe escapes
   * detection before another candidate is tried, and this is the only way
   * an exception escapes.
   */
  lemma DetectEscapes(probe: SensorType -> Outcome)
    ensures Detect(probe).result.Escaped? <==> probe(Ultrasonic) == OtherErr
    ensures Detect(probe).result.Escaped? ==> Detect(probe).tried == [Ultrasonic]
  {
  }

  /**
   * With Ultrasonic not answering over I2C and both Touch and Light answering,
   * Touch is chosen and neither Sound nor Color is probed.
   */
  lemma DetectPrefersEarlier(probe: SensorType -> Outcome)
    requires probe(Ultrasonic) == I2CErr && probe(Touch).Ok? && probe(Light).Ok?
    ensures Detect(probe) == Probing(Found(Touch), [Ultrasonic, Touch])
  {
    DetectFromFirstSuccess(probe, 0, 1);
  }

  /** One pass of the polling loop: the sample, and whether `stop` was called during the sleep. */
  datatype Tick = Tick(sample: Outcome, stopRequested: bool)

  /** What one iteration emits: the sample on success, -1 on any exception. */
  function Reading(o: Outcome): (r: int)
    ensures o.Ok? ==> r == o.value
    ensures !o.Ok? ==> r == -1
  {
    if o.Ok? then o.value else -1
  }

  /** The readings emitted for the given passes, one per pass, in order. */
  function ReadingsOf(ticks: seq<Tick>): (r: seq<int>)
  {
    seq(|ticks|, k requires 0 <= k < |ticks| => Reading(ticks[k].sample))
  }

  /** The passes the loop makes: up to and including the first one during which `stop` was called. */
  function UntilStop(ticks: seq<Tick>): (r: seq<Tick>)
    ensures r <= ticks
    ensures forall k | 0 <= k < |r| - 1 :: !r[k].stopRequested
    ensures r == ticks || (r != [] && r[|r| - 1].stopRequested)
  {
    if ticks == [] then []
    else if ticks[0].stopRequested then [ticks[0]]
    else [ticks[0]] + UntilStop(ticks[1..])
  }

  /** What a running session emits over the given passes. */
  function Emitted(ticks: seq<Tick>): (r: seq<int>)
  {
    ReadingsOf(UntilStop(ticks))
  }

  /** Without a stop, the loop makes every pass: a failed read never ends it. */
  lemma {:induction false} UntilStopWithoutStop(ticks: seq<Tick>)
    requires forall k | 0 <= k < |ticks| :: !ticks[k].stopRequested
    ensures UntilStop(ticks) == ticks
  {
    if ticks != [] {
      UntilStopWithoutStop(ticks[1..]);
    }
  }

  /** The pass during which `stop` is first called is the last one. */
  lemma {:induction false} UntilStopAt(ticks: seq<Tick>, i: nat)
    requires i < |ticks| && ticks[i].stopRequested
    requires forall k | 0 <= k < i :: !ticks[k].stopRequested
    ensures UntilStop(ticks) == ticks[..i + 1]
  {
    if i > 0 {
      UntilStopAt(ticks[1..], i - 1);
      assert ticks[..i + 1] == [ticks[0]] + ticks[1..][..i];
    }
  }

  /**
   * Sample-failure resilience: with no stop, every pass emits, each failed
   * read as -1 and each good read as its value.
   */
  lemma EveryPassEmits(ticks: seq<Tick>)
    requires forall k | 0 <= k < |ticks| :: !ticks[k].stopRequested
    ensures |Emitted(ticks)| == |ticks|
    ensures forall k | 0 <= k < |ticks| ::
      Emitted(ticks)[k] == if ticks[k].sample.Ok? then ticks[k].sample.value else -1
  {
    UntilStopWithoutStop(ticks);
  }

  /** Once `stop` has been called, nothing more is emitted. */
  lemma NothingAfterStop(ticks: seq<Tick>, i: nat)
    requires i < |ticks| && ticks[i].stopRequested
    ensures |Emitted(ticks)| <= i + 1
  {
  }

  /** `SensorThread`: the detected sensor, the `_running` flag, and whether `start` was called. */
  class SensorThread {
    var sensorType: Option<SensorType>
    var running: bool
    var started: bool

    /** The part of `__init__` after detection: running exactly when a sensor was found. */
    constructor (kind: Option<SensorType>)
      ensures sensorType == kind && running == kind.Some? && !started
    {
      sensorType := kind;
      running := kind.Some?;
      started := false;
    }

    /**
     * `SensorThread(brick, port)`: detection, then the running flag. None
     * when an exception escapes detection, and so the constructor.
     */
    static method Create(probe: SensorType -> Outcome) returns (r: Option<SensorThread>)
      ensures r.None? <==> Detect(probe).result.Escaped?
      ensures r.Some? ==> fresh(r.value) && !r.value.started
      ensures r.Some? ==> (r.value.running <==> Detect(probe).result.Found?)
      ensures r.Some? && Detect(probe).result.Found? ==> r.value.sensorType == Some(Detect(probe).result.kind)
      ensures r.Some? && Detect(probe).result.NoSensor? ==> r.value.sensorType == None
    {
      var d := Detect(probe).result;
      match d {
        case Found(t) =>
          var thread := new SensorThread(Some(t));
          r := Some(thread);
        case NoSensor =>
          var thread := new SensorThread(None);
          r := Some(thread);
        case Escaped =>
          r := None;
      }
    }

    /** `stop`: clears the flag; calling it again changes nothing. */
    method Stop()
      modifies this`running
      ensures !running
    {
      running := false;
    }

    /** `QThread.start`, which runs `run` on a worker thread; only the fact that it was called is kept. */
    method Start()
      modifies this`started
      ensures started
    {
      started := true;
    }

    /**
     * `run`: while `_running`, take a sample, emit it or -1, sleep; `ticks`
     * says what each sample gives and whether `stop` is called during the sleep.
     */
    method Run(ticks: seq<Tick>) returns (emitted: seq<int>)
      modifies this`running
      ensures emitted == if old(running) then Emitted(ticks) else []
      ensures running == (old(running) && forall k | 0 <= k < |ticks| :: !ticks[k].stopRequested)
    {
      ghost var wasRunning := running;
      emitted := [];
      var i := 0;
      while running && i < |ticks|
        invariant 0 <= i <= |ticks|
        invariant !wasRunning ==> i == 0 && !running && emitted == []
        invariant wasRunning ==> emitted == ReadingsOf(ticks[..i])
        invariant forall k | 0 <= k < i - 1 :: !ticks[k].stopRequested
        invariant running <==> wasRunning && forall k | 0 <= k < i :: !ticks[k].stopRequested
        invariant wasRunning && !running ==> i > 0 && ticks[i - 1].stopRequested
      {
        emitted := emitted + [Reading(ticks[i].sample)];
        if ticks[i].stopRequested {
          Stop();
        }
        i := i + 1;
      }
      if wasRunning {
        if running {
          UntilStopWithoutStop(ticks);
          assert ticks[..i] == ticks;
        } else {
          UntilStopAt(ticks, i - 1);
        }
      }
    }
  }
}
