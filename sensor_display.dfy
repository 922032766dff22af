/**
 * The per-port sensor panel (sensor/display.py): the sensor-type selection
 * table, and the stop / create / start lifecycle of the port's polling session.
 */
module SensorDisplays {
  import opened Wrappers
  import opened SensorThreads

  /** A selection entry: its name, the sensor class it instantiates (None for "None") and its unit text. */
  datatype Entry = Entry(name: string, kind: Option<SensorType>, unit: string)

  /** The selection entries, in the order they are added. */
  const Entries: seq<Entry> := [
    Entry("None", None, ""),
    Entry("Ultrasonic", Some(Ultrasonic), "cm"),
    Entry("Touch", Some(Touch), ""),
    Entry("Light", Some(Light), "lu"),
    Entry("Color", Some(Color), "rgb"),
    Entry("Sound", Some(Sound), "db")
  ]

  /** Only the first entry selects no sensor. */
  lemma OnlyFirstEntrySelectsNothing()
    ensures forall j | 0 <= j < |Entries| :: Entries[j].kind.None? <==> j == 0
  {
  }

  /** The entry that selects sensor type t: there is exactly one. */
  function EntryOf(t: SensorType): (i: nat)
    ensures i < |Entries| && Entries[i].kind == Some(t)
    ensures forall j | 0 <= j < |Entries| && Entries[j].kind == Some(t) :: j == i
  {
    match t
    case Ultrasonic => 1
    case Touch => 2
    case Light => 3
    case Color => 4
    case Sound => 5
  }

  /** The units shown for each sensor type. */
  lemma UnitsOfTypes()
    ensures Entries[EntryOf(Ultrasonic)].unit == "cm" && Entries[EntryOf(Touch)].unit == ""
    ensures Entries[EntryOf(Light)].unit == "lu" && Entries[EntryOf(Color)].unit == "rgb"
    ensures Entries[EntryOf(Sound)].unit == "db"
  {
  }

  /** What one `createThread` call comes to. */
  datatype Creation =
    | NothingSelected                            // the "None" entry: no new session
    | InstantiationFailed                        // the sensor constructor raised
    | NewSession(kind: SensorType, unit: string) // a polling session on the new sensor
    | Raised                                     // an exception escapes createThread

  /** The required and optional keyword parameters of `SensorThread.__init__`. */
  const ThreadRequired: set<string> := {"brick", "port"}
  const ThreadOptional: set<string> := {"parent"}

  /** Python binds a call by keywords when every keyword is a parameter and every required parameter is given. */
  predicate BindsKeywords(keywords: set<string>)
  {
    keywords <= ThreadRequired + ThreadOptional && ThreadRequired <= keywords
  }

  /**
   * `createThread` as written: after a successful instantiation it calls
   * `SensorThread(sensor=..., parent=...)`, which the constructor's parameter
   * list cannot bind, so a `TypeError` escapes.
   */
  function CreateOutcomeAsWritten(e: Entry, instantiates: bool): (r: Creation)
    ensures r.NothingSelected? <==> e.kind.None?
    ensures r.InstantiationFailed? <==> e.kind.Some? && !instantiates
    ensures e.kind.Some? && instantiates ==> (r.NewSession? <==> BindsKeywords({"sensor", "parent"}))
  {
    if e.kind.None? then NothingSelected
    else if !instantiates then InstantiationFailed
    else if BindsKeywords({"sensor", "parent"}) then NewSession(e.kind.value, e.unit)
    else Raised
  }

  /** As written, no selection and no instantiation result ever yields a polling session. */
  lemma AsWrittenNeverPolls(e: Entry, instantiates: bool)
    ensures !CreateOutcomeAsWritten(e, instantiates).NewSession?
    ensures e.kind.Some? && instantiates ==> CreateOutcomeAsWritten(e, instantiates) == Raised
  {
    assert "sensor" in {"sensor", "parent"};
    assert "sensor" !in ThreadRequired + ThreadOptional by {
      assert "sensor" != "brick" && "sensor" != "port" && "sensor" != "parent" by {
        assert "sensor"[0] != "brick"[0] && "sensor"[0] != "port"[0] && "sensor"[0] != "parent"[0];
      }
    }
  }

  /** `createThread` as evidently intended: a session on the instantiated sensor, with the entry's unit. */
  function CreateOutcome(e: Entry, instantiates: bool): (o: Creation)
    ensures o.NothingSelected? <==> e.kind.None?
    ensures o.InstantiationFailed? <==> e.kind.Some? && !instantiates
    ensures o.NewSession? <==> e.kind.Some? && instantiates
    ensures o.NewSession? ==> o.kind == e.kind.value && o.unit == e.unit
  {
    if e.kind.None? then NothingSelected
    else if !instantiates then InstantiationFailed
    else NewSession(e.kind.value, e.unit)
  }

  /** Selecting Ultrasonic with a working sensor: as written an exception, as intended a session showing "cm". */
  lemma UltrasonicSelectionDiffers()
    ensures CreateOutcomeAsWritten(Entries[1], true) == Raised
    ensures CreateOutcome(Entries[1], true) == NewSession(Ultrasonic, "cm")
  {
    AsWrittenNeverPolls(Entries[1], true);
  }

  /** `SensorDisplay`: one port's panel and its polling session. */
  class SensorDisplay {
    /** The selection's current index. */
    var selected: nat
    /** `polling_thread`; never set back to None once a session exists. */
    var pollingThread: Option<SensorThread>
    /** The reading and unit texts. */
    var reading: string
    var unit: string
    /** Every session this panel created, oldest first. */
    ghost var sessions: seq<SensorThread>

    ghost function Threads(): set<SensorThread>
      reads this
    {
      set s | s in sessions
    }

    ghost function Current(): set<SensorThread>
      reads this
    {
      if pollingThread.Some? then {pollingThread.value} else {}
    }

    /** `polling_thread` is the most recent session, and sessions are distinct objects. */
    ghost predicate Valid()
      reads this
    {
      selected < |Entries| &&
      (pollingThread.None? <==> sessions == []) &&
      (pollingThread.Some? ==> pollingThread.value == sessions[|sessions| - 1]) &&
      (forall i, j | 0 <= i < j < |sessions| :: sessions[i] != sessions[j])
    }

    /** At most one session of the port runs: every session but the most recent is stopped. */
    ghost predicate SinglePoller()
      reads this, Threads()
    {
      forall i | 0 <= i < |sessions| - 1 :: !sessions[i].running
    }

    /** No session of the port runs. */
    ghost predicate Quiescent()
      reads this, Threads()
    {
      forall i | 0 <= i < |sessions| :: !sessions[i].running
    }

    /**
     * `__init__`: no session, empty texts, the "None" entry selected; its
     * `createThread` clears the unit and its `startThread` does nothing.
     */
    constructor ()
      ensures Valid() && SinglePoller() && Quiescent()
      ensures selected == 0 && pollingThread.None? && sessions == []
      ensures reading == "" && unit == ""
    {
      selected := 0;
      pollingThread := None;
      reading := "";
      unit := "";
      sessions := [];
    }

    /**
     * `createThread`, with `instantiates` telling whether the selected sensor
     * class could be constructed; `SensorThread` is taken as accepting that sensor.
     */
    method CreateThread(instantiates: bool)
      requires Valid()
      modifies this
      ensures Valid()
      ensures selected == old(selected)
      ensures CreateOutcome(Entries[selected], instantiates).NothingSelected? ==>
        unit == "" && reading == old(reading) && pollingThread == old(pollingThread) && sessions == old(sessions)
      ensures CreateOutcome(Entries[selected], instantiates).InstantiationFailed? ==>
        reading == "Error" && unit == "" && pollingThread == old(pollingThread) && sessions == old(sessions)
      ensures CreateOutcome(Entries[selected], instantiates).NewSession? ==>
        unit == Entries[selected].unit && reading == old(reading) &&
        pollingThread.Some? && fresh(pollingThread.value) && sessions == old(sessions) + [pollingThread.value] &&
        pollingThread.value.sensorType == Entries[selected].kind &&
        pollingThread.value.running && !pollingThread.value.started
      ensures old(Quiescent()) ==> SinglePoller()
      ensures sessions == old(sessions) ==> (SinglePoller() <==> old(SinglePoller()))
    {
      var entry := Entries[selected];
      if entry.kind.None? {
        unit := "";
        return;
      }
      if !instantiates {
        reading := "Error";
        unit := "";
        return;
      }
      var thread := new SensorThread(entry.kind);
      pollingThread := Some(thread);
      sessions := sessions + [thread];
      unit := entry.unit;
    }

    /**
     * `stopAndDestroyThread`: the signal disconnect always fails and is
     * swallowed; the current session, if any, is stopped but stays in place.
     */
    method StopAndDestroyThread()
      requires Valid()
      modifies Current()
      ensures Valid()
      ensures pollingThread.Some? ==> !pollingThread.value.running && pollingThread.value.started == old(pollingThread.value.started)
      ensures pollingThread.Some? ==> pollingThread.value.sensorType == old(pollingThread.value.sensorType)
      ensures old(SinglePoller()) ==> Quiescent()
    {
      if pollingThread.Some? {
        pollingThread.value.Stop();
      }
    }

    /**
     * `startThread`, with `startRaises` telling whether `start` raised, in
     * which case the session is stopped again. Only ever reached while no
     * other session of the port runs.
     */
    method StartThread(startRaises: bool)
      requires Valid() && SinglePoller()
      modifies Current()
      ensures Valid() && SinglePoller()
      ensures pollingThread.Some? && !startRaises ==>
        pollingThread.value.started && pollingThread.value.running == old(pollingThread.value.running)
      ensures pollingThread.Some? && startRaises ==>
        !pollingThread.value.running && pollingThread.value.started == old(pollingThread.value.started)
      ensures pollingThread.Some? ==> pollingThread.value.sensorType == old(pollingThread.value.sensorType)
    {
      if pollingThread.Some? {
        if startRaises {
          StopAndDestroyThread();
          return;
        }
        pollingThread.value.Start();
      }
    }

    /**
     * `recreate`: stop, then create, then start. Every session that existed
     * before is stopped, and at most the newly created one runs. When no new
     * session is created, the old stopped one is started again.
     */
    method Recreate(instantiates: bool, startRaises: bool)
      requires Valid() && SinglePoller()
      modifies this, Current()
      ensures Valid() && SinglePoller()
      ensures selected == old(selected)
      ensures forall s | s in old(sessions) :: !s.running && s.sensorType == old(s.sensorType)
      ensures CreateOutcome(Entries[selected], instantiates).NothingSelected? ==>
        unit == "" && reading == old(reading) && pollingThread == old(pollingThread) && sessions == old(sessions) && Quiescent()
      ensures CreateOutcome(Entries[selected], instantiates).InstantiationFailed? ==>
        reading == "Error" && unit == "" && pollingThread == old(pollingThread) && sessions == old(sessions) && Quiescent()
      ensures CreateOutcome(Entries[selected], instantiates).NewSession? ==>
        unit == Entries[selected].unit && reading == old(reading) && pollingThread.Some? && fresh(pollingThread.value) &&
        sessions == old(sessions) + [pollingThread.value] &&
        pollingThread.value.sensorType == Entries[selected].kind &&
        pollingThread.value.started == !startRaises && pollingThread.value.running == !startRaises &&
        (forall s | s in old(sessions) :: s.started == old(s.started))
      ensures !CreateOutcome(Entries[selected], instantiates).NewSession? && old(pollingThread).Some? ==>
        pollingThread == old(pollingThread) && pollingThread.Some? &&
        pollingThread.value.started == (old(pollingThread.value.started) || !startRaises)
    {
      StopAndDestroyThread();
      CreateThread(instantiates);
      StartThread(startRaises);
    }

    /** `changeSensor`: a new selection goes through `recreate`, as the restart button does. */
    method ChangeSensor(index: nat, instantiates: bool, startRaises: bool)
      requires Valid() && SinglePoller()
      requires index < |Entries|
      modifies this, Current()
      ensures Valid() && SinglePoller()
      ensures selected == index
      ensures forall s | s in old(sessions) :: !s.running && s.sensorType == old(s.sensorType)
      ensures CreateOutcome(Entries[index], instantiates).NothingSelected? ==>
        unit == "" && reading == old(reading) && pollingThread == old(pollingThread) && sessions == old(sessions) && Quiescent()
      ensures CreateOutcome(Entries[index], instantiates).InstantiationFailed? ==>
        reading == "Error" && unit == "" && pollingThread == old(pollingThread) && sessions == old(sessions) && Quiescent()
      ensures CreateOutcome(Entries[index], instantiates).NewSession? ==>
        unit == Entries[index].unit && reading == old(reading) && pollingThread.Some? && fresh(pollingThread.value) &&
        sessions == old(sessions) + [pollingThread.value] &&
        pollingThread.value.sensorType == Entries[index].kind &&
        pollingThread.value.started == !startRaises && pollingThread.value.running == !startRaises &&
        (forall s | s in old(sessions) :: s.started == old(s.started))
      ensures !CreateOutcome(Entries[index], instantiates).NewSession? && old(pollingThread).Some? ==>
        pollingThread == old(pollingThread) && pollingThread.Some? &&
        pollingThread.value.started == (old(pollingThread.value.started) || !startRaises)
    {
      selected := index;
      Recreate(instantiates, startRaises);
    }
  }
}
