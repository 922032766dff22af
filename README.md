# NXT robot control core, modelled in Dafny

This project models the device-control core of a small desktop controller for a
LEGO NXT robot. The core has two halves that share no state:

- **Driving.** `Power` is a motor power validated to lie in [-100, 100], and a
  `MotorAction` pairs a motor port with a power. A `MotorsController` holds two
  axis configurations, the go actions and the turn actions. It turns "forward",
  "backward", "idle" and "brake" on an axis into one motor command per action.
  `Controls` keeps the set of held arrow keys. After every arrow-key press or
  release it evaluates two 2x2 decision tables: Up/Down for the go axis and
  Left/Right for the turn axis.
- **Sensing.** Each of the four sensor ports has a `SensorDisplay` panel. The
  panel owns at most one polling session, a `SensorThread`. A session emits
  one reading per loop pass: the sample, or -1 when the read failed. It runs
  until its `_running` flag is cleared. Changing the selection, or pressing
  restart, stops the old session, creates a new one and starts it.
- **Detection.** `SensorThread(brick, port)` detects the attached sensor by
  probing five candidate types in a fixed order. The panel never calls it that
  way. In `createThread` the panel instantiates the selected sensor class itself.

The motors are an abstract command log: `Run(port, power)`, `Idle(port)` and
`Brake(port)`, where every run is regulated. Hardware outcomes are inputs:

- A probe or a sample is an `Outcome`: a value, an `I2CError` or any other exception.
- Whether a sensor class can be constructed is a boolean parameter.
- Whether `QThread.start` raises is a boolean parameter.
- Each polling-loop pass is a `Tick`: the sample's outcome, and whether `stop`
  was called during that pass's sleep.

Modules, one per source file:

- `MotorTypes`: motor/types.py
- `MotorController`: motor/motor.py
- `FormControls`: form/controls.py
- `SensorThreads`: sensor/thread.py, with the enum of sensor/types.py
- `SensorDisplays`: sensor/display.py

`Wrappers` holds `Option` and `Result`.

In these places the code's behaviour is worth noting, and the model follows the code:

- Every key change re-issues commands for both axes, not only the axis the key belongs to.
- The Ultrasonic probe swallows only `I2CError`. Any other exception it raises
  escapes detection, so not every probe failure is absorbed.
- `stop` only clears the flag. There is no join and no bounded wait.
- Choosing a sensor type in the panel does not create a session in the code as written (see "## Findings").

The panel's invariant is `SensorDisplay.SinglePoller`: every session the panel
ever created, except the most recent one, is stopped. `StartThread` needs this
invariant before it runs, and `Recreate` keeps it. So a session is started only
when every other session of that port has its `_running` flag cleared, which is
the stop-before-start order. This is a statement about the flags. It does not
say that the old worker thread has already left its loop (see "## Left out").

`CreateThread` does not stop the previous session. Its only callers, the
constructor and `recreate`, either have no session or have just stopped it.

## Model

| member | source | states |
|---|---|---|
| MotorTypes.MakePower | motor/types.py:16-21 | Non-int values (bools count as ints) fail with TypeError. Ints outside [-100, 100] fail with ValueError. Every other int gives a Power equal to it. |
| MotorTypes.PowerBoundaries | motor/types.py:13-20 | -100 and 100 are accepted; -101 and 101 are rejected with ValueError |
| MotorTypes.NegatedPowerIsValid | motor/types.py:13-14 | the range is symmetric: the negation of a valid power is accepted unchanged |
| MotorController.CommandFor | motor/motor.py:71-81 | The command for one action is on that action's port. A run is issued exactly when running, with the action's power, negated when inverting. An idle is issued for idling, a brake for braking. |
| MotorController.Commands | motor/motor.py:71-81 | performing a list issues exactly one command per action |
| MotorController.CommandsAt | motor/motor.py:68-81 | the i-th command is for the i-th action's port; a run uses that action's power, negated when inverted |
| MotorController.CommandsTouchOnly | motor/motor.py:56-81 | every command issued for a list names a port that appears in the list |
| MotorController.BackwardsNegatesForward | motor/motor.py:44-48 | going backwards issues the same runs on the same ports as going forwards, with every power negated |
| MotorController.MotorsController.constructor | motor/motor.py:20-36 | the controller owns motors for ports A, B and C; both axis lists and the command log start empty |
| MotorController.MotorsController.SetGoActions | motor/motor.py:38-39 | replaces the go actions; the turn actions and the log are unchanged |
| MotorController.MotorsController.SetTurnActions | motor/motor.py:41-42 | replaces the turn actions; the go actions and the log are unchanged |
| MotorController.MotorsController.GoForward | motor/motor.py:44-45 | appends one non-inverted run per go action, in list order |
| MotorController.MotorsController.GoBackwards | motor/motor.py:47-48 | appends one inverted run per go action, in list order |
| MotorController.MotorsController.GoIdle | motor/motor.py:50-51 | appends one idle per go action, in order |
| MotorController.MotorsController.GoBrake | motor/motor.py:53-54 | appends one brake per go action, in order |
| MotorController.MotorsController.TurnLeft | motor/motor.py:56-57 | appends one non-inverted run per turn action |
| MotorController.MotorsController.TurnRight | motor/motor.py:59-60 | appends one inverted run per turn action |
| MotorController.MotorsController.TurnIdle | motor/motor.py:62-63 | appends one idle per turn action |
| MotorController.MotorsController.TurnBrake | motor/motor.py:65-66 | appends one brake per turn action |
| MotorController.MotorsController.PerformActions | motor/motor.py:68-73 | the loop appends one regulated run per action, in list order, with power negated when inverting, and changes nothing else |
| MotorController.MotorsController.PerformIdle | motor/motor.py:75-77 | the loop appends one idle per action, in list order |
| MotorController.MotorsController.PerformBrake | motor/motor.py:79-81 | the loop appends one brake per action, in list order |
| FormControls.HeldKeysStayArrows | form/controls.py:73-91 | presses and releases keep the held keys a subset of the four arrow keys |
| FormControls.Pressed | form/controls.py:73-80 | A key ends up held exactly when it is an arrow key or was already held. No other key changes. |
| FormControls.Released | form/controls.py:83-90 | A key stays held only when it is not an arrow key and was already held. Discarding a key that is not held is fine, and no other key changes. |
| FormControls.PressReleaseIdempotent | form/controls.py:80-90 | Pressing a held key, releasing a key that is not held, or repeating either, leaves the held keys as they are. |
| FormControls.AxisTable | form/controls.py:94-112 | both keys held means brake, primary key only means forward, secondary key only means reverse, neither means idle; each row in both directions |
| FormControls.UpdateCommandsShape | form/controls.py:93-112 | One update issues one command per go action (the go table's choice), then one per turn action (the turn table's choice). Both depend only on the held keys. |
| FormControls.UpdateCommandsTable | form/controls.py:93-112 | All four rows of both tables, as the commands one update sends for each action. Both keys held gives a brake, the primary key alone a run at the action's power, the secondary key alone a run at the negated power, and neither an idle. |
| FormControls.BothGoKeysBrake | form/controls.py:94-96 | With Up and Down both held, the update brakes every go motor, whatever the turn keys are. |
| FormControls.Controls.constructor | form/controls.py:19-35 | no key is held; the go axis is [(A, -100)], the turn axis is [(B, 25)], and nothing has been sent |
| FormControls.Controls.KeyPressed | form/controls.py:73-81 | An arrow key is added and both tables are then evaluated. Any other key changes nothing and sends nothing. |
| FormControls.Controls.KeyReleased | form/controls.py:83-91 | An arrow key is discarded, even if it was not held, and both tables are then evaluated. Any other key is ignored. |
| FormControls.Controls.KeysUpdated | form/controls.py:93-112 | appends exactly the go-axis commands and then the turn-axis commands for the current held keys |
| FormControls.Controls.UpdateGoAxis | form/controls.py:94-102 | appends the go table's commands for the held keys |
| FormControls.Controls.UpdateTurnAxis | form/controls.py:104-112 | appends the turn table's commands for the held keys |
| SensorThreads.AbsorbedCases | sensor/thread.py:47-85 | A successful probe is never swallowed. The Ultrasonic probe swallows only an I2C error. Every other probe swallows any exception. |
| SensorThreads.DetectFrom | sensor/thread.py:45-87 | Candidates are probed in order, and a later one only after every earlier probe was swallowed. A result is the last candidate probed and its probe succeeded. An escape comes only from an Ultrasonic non-I2C error. "No sensor" means all candidates were probed and all were swallowed. |
| SensorThreads.DetectFromFirstSuccess | sensor/thread.py:47-85 | The first candidate that succeeds is returned, and exactly the candidates up to it are probed. |
| SensorThreads.DetectFindsFirstSuccess | sensor/thread.py:47-85 | Type t is detected exactly when its probe succeeds and every earlier probe was swallowed. Then the candidates after it are not probed. |
| SensorThreads.DetectAllFail | sensor/thread.py:45-87 | if every probe is swallowed, all five candidates are probed and the result is "no sensor" |
| SensorThreads.DetectEscapes | sensor/thread.py:47-53 | an exception escapes detection exactly when the Ultrasonic probe raises something other than an I2C error, and then nothing else is probed |
| SensorThreads.DetectPrefersEarlier | sensor/thread.py:47-67 | With Ultrasonic failing over I2C and both Touch and Light working, Touch is chosen. Sound and Color are never probed. |
| SensorThreads.Reading | sensor/thread.py:35-39 | a pass emits the sample's value when reading succeeded and -1 when it raised |
| SensorThreads.UntilStop | sensor/thread.py:33-43 | The loop's passes are a prefix of the given passes. No pass before the last had a stop request. The loop ends early only at a stop request. |
| SensorThreads.UntilStopWithoutStop | sensor/thread.py:34-40 | without a stop request the loop makes every pass; a failed read never ends it |
| SensorThreads.UntilStopAt | sensor/thread.py:34-43 | the pass during which stop is first called is the last pass |
| SensorThreads.EveryPassEmits | sensor/thread.py:33-40 | Without a stop request, every pass emits exactly one reading: the sample, or -1 for a failed read. |
| SensorThreads.NothingAfterStop | sensor/thread.py:34-43 | nothing is emitted after the pass in which stop was called |
| SensorThreads.SensorThread.constructor | sensor/thread.py:26-31 | the running flag is set exactly when a sensor was detected |
| SensorThreads.SensorThread.Create | sensor/thread.py:20-31 | Construction fails exactly when an exception escapes detection. Otherwise the session runs exactly when a sensor type was found, and it records that type. |
| SensorThreads.SensorThread.Stop | sensor/thread.py:42-43 | clears the running flag and nothing else; repeating it changes nothing |
| SensorThreads.SensorThread.Start | sensor/display.py:122-125 | records that the thread was started |
| SensorThreads.SensorThread.Run | sensor/thread.py:33-40 | A running session emits one reading per pass until the pass in which stop was called. A stopped session emits nothing. The flag ends cleared exactly when a stop was requested or it was already clear. |
| SensorDisplays.OnlyFirstEntrySelectsNothing | sensor/display.py:50-57 | only the first entry, "None", selects no sensor class |
| SensorDisplays.EntryOf | sensor/display.py:50-57 | every sensor type has exactly one selection entry |
| SensorDisplays.UnitsOfTypes | sensor/display.py:50-57 | Ultrasonic shows "cm", Touch "", Light "lu", Color "rgb" and Sound "db" |
| SensorDisplays.CreateOutcomeAsWritten | sensor/display.py:90-112 | `createThread` as written. "None" selects nothing, and a failed instantiation is an error. After a successful instantiation, a session comes about only if `SensorThread.__init__` (sensor/thread.py:20-22) can bind the keywords `sensor` and `parent` (`BindsKeywords`). |
| SensorDisplays.AsWrittenNeverPolls | sensor/display.py:98-109 | As written, creating a session never succeeds. A working sensor class leads to an exception, because the constructor cannot bind the `sensor` keyword. |
| SensorDisplays.CreateOutcome | sensor/display.py:90-112 | "None" selects nothing; a failed instantiation is an error; otherwise a session on the selected type with the entry's unit |
| SensorDisplays.UltrasonicSelectionDiffers | sensor/display.py:109-112 | for Ultrasonic with a working sensor, the code as written raises, while the intended behaviour is a session showing "cm" |
| SensorDisplays.SensorDisplay.constructor | sensor/display.py:27-37 | the panel starts with "None" selected, no session, and empty reading and unit texts |
| SensorDisplays.SensorDisplay.CreateThread | sensor/display.py:90-112 | "None": unit cleared, no new session. Failed instantiation: reading "Error", unit cleared, no new session. Otherwise: a fresh running session of the selected type becomes the current one, and the unit shows the entry's unit. |
| SensorDisplays.SensorDisplay.StopAndDestroyThread | sensor/display.py:114-120 | Stops the current session if there is one, and keeps the reference to it. Afterwards no session of the port runs. |
| SensorDisplays.SensorDisplay.StartThread | sensor/display.py:122-129 | Starts the current session, if there is one. If start raises, it stops the session instead. It is only reached when no other session runs. |
| SensorDisplays.SensorDisplay.Recreate | sensor/display.py:131-134 | Stop, then create, then start. Every earlier session ends stopped and keeps its sensor type, and at most the new one runs. On success the reading text is unchanged and no earlier session is started again. With "None" or a failed instantiation, the old stopped session stays current and `start` is called on it again, unless start raises. |
| SensorDisplays.SensorDisplay.ChangeSensor | sensor/display.py:81-85 | A new selection goes through the same recreate path as the restart button, with the same outcomes, including the reading kept on success, earlier sessions not started again when a new one is made, and the old stopped session started again on the other paths. |

## Left out

- Qt widgets, layouts, icons, tooltips, and the signal and slot wiring are UI plumbing. This includes the five on-screen buttons of form/controls.py:37-62.
- Delivering readings to the panel (`setValue` and the cross-thread signal) is left out. So is the reading signal's disconnect, which always fails and is swallowed.
- form/form.py is not part of this model: window setup, the application-wide key filter that drops auto-repeated keys, and the close handler that stops every panel's session.
- main.py (brick discovery over Bluetooth) and motor/__init__.py are not part of this model.
- The nxt transport is left out: motor `run`/`idle`/`brake`, sensor construction and `get_sample`. They are abstract commands or given outcomes.
- A motor call that raises is not modelled. In the code it would end the `for` loop and skip the remaining actions.
- `QThread` concurrency, the 0.5 s sleep, and interleavings are left out. The run loop is modelled over a given sequence of passes, and a stop arrives between the emit and the next flag check.
- `stop` does not wait for the worker thread. An old worker can still be inside `get_sample` or the sleep (sensor/thread.py:36-40) when `recreate` starts the new session. So for up to one pass, two threads can use the same port. `SinglePoller` is about the `_running` flags only, and the model does not capture this overlap between threads.
- The error messages printed when instantiation fails (sensor/display.py:102-104) or `start` raises (sensor/display.py:127) are console output and are left out.
- `setGoActions` and `setTurnActions` (motor/motor.py:39, 42) keep a reference to the caller's list, but the model's `seq` is a copy. The model does not capture that aliasing. No caller changes the list afterwards (form/controls.py:30-35).
- SensorThreads.SensorThread.Start: only records that `start` was called. Restarting a finished thread, or starting one that is still running, is up to Qt and not modelled.
- SensorDisplays.SensorDisplay.CreateThread: models the evidently intended construction of the session from the instantiated sensor, not the code as written, which raises (see "## Findings").

## Findings

| source | as written | input that shows it | evidently intended | confidence | as-written member | corrected member |
|---|---|---|---|---|---|---|
| sensor/display.py:109-110 | After a successful sensor instantiation, the session is built with the keyword `sensor` and a `parent`. `SensorThread.__init__` (sensor/thread.py:20-22) takes `brick` and `port`, so the call raises TypeError. No session is created, and the unit is never set. The next line also uses a `worker` attribute the thread does not have. | Select "Ultrasonic" with a working sensor: `CreateOutcomeAsWritten(Entries[1], true) == Raised` | Create a polling session on the instantiated sensor, and show the selected entry's unit | high; not executed | SensorDisplays.CreateOutcomeAsWritten, SensorDisplays.AsWrittenNeverPolls | SensorDisplays.CreateOutcome, SensorDisplays.SensorDisplay.CreateThread |
