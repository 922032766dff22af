/**
 * Keyboard driving (form/controls.py): the set of held arrow keys and the two
 * decision tables that turn it into commands for the go and turn axes.
 * Auto-repeated key events are dropped before they reach this component.
 */
module FormControls {
  import opened MotorTypes
  import opened MotorController

  /** A key code; only the four arrow keys are distinguished. */
  datatype Key = Up | Down | Left | Right | OtherKey(code: int)

  const ArrowKeys: set<Key> := {Up, Down, Left, Right}

  predicate IsArrow(k: Key)
  {
    !k.OtherKey?
  }

  /** The held-key set after `keyPressed(k)`: arrow keys are added, others ignored. */
  function Pressed(held: set<Key>, k: Key): (r: set<Key>)
    ensures k in r <==> IsArrow(k) || k in held
    ensures forall j | j != k :: j in r <==> j in held
  {
    if IsArrow(k) then held + {k} else held
  }

  /** The held-key set after `keyReleased(k)`: arrow keys are discarded, held or not. */
  function Released(held: set<Key>, k: Key): (r: set<Key>)
    ensures k in r <==> !IsArrow(k) && k in held
    ensures forall j | j != k :: j in r <==> j in held
  {
    if IsArrow(k) then held - {k} else held
  }

  /** Pressing or releasing keeps the held keys among the arrow keys. */
  lemma HeldKeysStayArrows(held: set<Key>, k: Key)
    requires held <= ArrowKeys
    ensures Pressed(held, k) <= ArrowKeys && Released(held, k) <= ArrowKeys
  {
  }

  /** A repeated press, or a repeated release, leaves the held keys as they are. */
  lemma PressReleaseIdempotent(held: set<Key>, k: Key)
    ensures Pressed(Pressed(held, k), k) == Pressed(held, k)
    ensures Released(Released(held, k), k) == Released(held, k)
    ensures k in held ==> Pressed(held, k) == held
    ensures k !in held ==> Released(held, k) == held
  {
  }

  /** What one axis is told to do. */
  datatype AxisCommand = AxisForward | AxisReverse | AxisIdle | AxisBrake

  /** The 2x2 decision table of one axis over its (primary, secondary) keys. */
  function AxisTable(primary: bool, secondary: bool): (c: AxisCommand)
    ensures c == AxisBrake <==> primary && secondary
    ensures c == AxisForward <==> primary && !secondary
    ensures c == AxisReverse <==> !primary && secondary
    ensures c == AxisIdle <==> !primary && !secondary
  {
    match (primary, secondary)
    case (true, true) => AxisBrake
    case (true, false) => AxisForward
    case (false, true) => AxisReverse
    case (false, false) => AxisIdle
  }

  /** The go axis is governed by Up (primary) and Down (secondary). */
  function GoCommand(held: set<Key>): (r: AxisCommand)
  {
    AxisTable(Up in held, Down in held)
  }

  /** The turn axis is governed by Left (primary) and Right (secondary). */
  function TurnCommand(held: set<Key>): (r: AxisCommand)
  {
    AxisTable(Left in held, Right in held)
  }

  /** How the controller carries out an axis command on that axis's actions. */
  function PerformOf(c: AxisCommand): (r: Perform)
  {
    match c
    case AxisForward => RunAs(false)
    case AxisReverse => RunAs(true)
    case AxisIdle => IdleAll
    case AxisBrake => BrakeAll
  }

  /** Everything one `keysUpdated` sends: the go axis's commands, then the turn axis's. */
  function UpdateCommands(goActions: seq<MotorAction>, turnActions: seq<MotorAction>, held: set<Key>): (r: seq<Command>)
  {
    Commands(goActions, PerformOf(GoCommand(held))) + Commands(turnActions, PerformOf(TurnCommand(held)))
  }

  /**
   * One `keysUpdated` issues one command per go action and then one per turn
   * action, each the table's choice for that axis applied to that action.
   */
  lemma UpdateCommandsShape(goActions: seq<MotorAction>, turnActions: seq<MotorAction>, held: set<Key>)
    ensures |UpdateCommands(goActions, turnActions, held)| == |goActions| + |turnActions|
    ensures forall i | 0 <= i < |goActions| ::
      UpdateCommands(goActions, turnActions, held)[i] == CommandFor(goActions[i], PerformOf(GoCommand(held)))
    ensures forall i | 0 <= i < |turnActions| ::
      UpdateCommands(goActions, turnActions, held)[|goActions| + i] == CommandFor(turnActions[i], PerformOf(TurnCommand(held)))
  {
    var go := PerformOf(GoCommand(held));
    var turn := PerformOf(TurnCommand(held));
    forall i | 0 <= i < |goActions|
      ensures UpdateCommands(goActions, turnActions, held)[i] == CommandFor(goActions[i], go)
    {
      CommandsAt(goActions, go, i);
    }
    forall i | 0 <= i < |turnActions|
      ensures UpdateCommands(goActions, turnActions, held)[|goActions| + i] == CommandFor(turnActions[i], turn)
    {
      CommandsAt(turnActions, turn, i);
    }
  }

  /**
   * Both decision tables, row by row, as the commands one update sends: for
   * each go action, Up and Down give brake, Up alone its own power, Down alone
   * the negated power, neither idle; likewise Left and Right for each turn action.
   */
  lemma UpdateCommandsTable(goActions: seq<MotorAction>, turnActions: seq<MotorAction>, held: set<Key>)
    ensures |UpdateCommands(goActions, turnActions, held)| == |goActions| + |turnActions|
    ensures forall i | 0 <= i < |goActions| ::
      UpdateCommands(goActions, turnActions, held)[i] ==
        var a := goActions[i];
        if Up in held && Down in held then Brake(a.motorPort)
        else if Up in held then Run(a.motorPort, a.power)
        else if Down in held then Run(a.motorPort, -a.power)
        else Idle(a.motorPort)
    ensures forall i | 0 <= i < |turnActions| ::
      UpdateCommands(goActions, turnActions, held)[|goActions| + i] ==
        var a := turnActions[i];
        if Left in held && Right in held then Brake(a.motorPort)
        else if Left in held then Run(a.motorPort, a.power)
        else if Right in held then Run(a.motorPort, -a.power)
        else Idle(a.motorPort)
  {
    UpdateCommandsShape(goActions, turnActions, held);
  }

  /** Up and Down held together brake the go axis whatever the turn keys are. */
  lemma BothGoKeysBrake(goActions: seq<MotorAction>, turnActions: seq<MotorAction>, held: set<Key>)
    requires Up in held && Down in held
    ensures |UpdateCommands(goActions, turnActions, held)| == |goActions| + |turnActions|
    ensures forall i | 0 <= i < |goActions| ::
      UpdateCommands(goActions, turnActions, held)[i] == Brake(goActions[i].motorPort)
  {
    UpdateCommandsShape(goActions, turnActions, held);
  }

  /** `Controls`: the held keys and the motors controller they drive. */
  class Controls {
    var heldKeys: set<Key>
    const controller: MotorsController

    ghost predicate Valid()
      reads this, controller
    {
      heldKeys <= ArrowKeys && controller.Valid()
    }

    /** `__init__` with `setupBrick`: go axis [(A, -100)], turn axis [(B, 25)], no key held. */
    constructor ()
      ensures Valid() && fresh(controller)
      ensures heldKeys == {}
      ensures controller.goActions == [MotorAction(A, -100)]
      ensures controller.turnActions == [MotorAction(B, 25)]
      ensures controller.log == []
    {
      heldKeys := {};
      var c := new MotorsController();
      controller := c;
      new;
      c.SetGoActions([MotorAction(A, MakePower(PyInt(-100)).value)]);
      c.SetTurnActions([MotorAction(B, MakePower(PyInt(25)).value)]);
    }

    method KeyPressed(k: Key)
      requires Valid()
      modifies this`heldKeys, controller`log
      ensures Valid()
      ensures heldKeys == Pressed(old(heldKeys), k)
      ensures controller.log == old(controller.log) +
        (if IsArrow(k) then UpdateCommands(controller.goActions, controller.turnActions, heldKeys) else [])
    {
      if IsArrow(k) {
        heldKeys := heldKeys + {k};
        KeysUpdated();
      }
    }

    method KeyReleased(k: Key)
      requires Valid()
      modifies this`heldKeys, controller`log
      ensures Valid()
      ensures heldKeys == Released(old(heldKeys), k)
      ensures controller.log == old(controller.log) +
        (if IsArrow(k) then UpdateCommands(controller.goActions, controller.turnActions, heldKeys) else [])
    {
      if IsArrow(k) {
        heldKeys := heldKeys - {k};
        KeysUpdated();
      }
    }

    /**
     * Evaluates the go table (Up, Down), then the turn table (Left, Right), on
     * the current held keys; each table issues one axis command.
     */
    method KeysUpdated()
      requires Valid()
      modifies controller`log
      ensures controller.log == old(controller.log) + UpdateCommands(controller.goActions, controller.turnActions, heldKeys)
    {
      UpdateGoAxis();
      ghost var afterGo := controller.log;
      UpdateTurnAxis();
      assert controller.log == afterGo + Commands(controller.turnActions, PerformOf(TurnCommand(heldKeys)));
    }

    /** The first table of `keysUpdated`. */
    method UpdateGoAxis()
      requires Valid()
      modifies controller`log
      ensures controller.log == old(controller.log) + Commands(controller.goActions, PerformOf(GoCommand(heldKeys)))
    {
      match GoCommand(heldKeys) {
        case AxisBrake => controller.GoBrake();
        case AxisForward => controller.GoForward();
        case AxisReverse => controller.GoBackwards();
        case AxisIdle => controller.GoIdle();
      }
    }

    /** The second table of `keysUpdated`. */
    method UpdateTurnAxis()
      requires Valid()
      modifies controller`log
      ensures controller.log == old(controller.log) + Commands(controller.turnActions, PerformOf(TurnCommand(heldKeys)))
    {
      match TurnCommand(heldKeys) {
        case AxisBrake => controller.TurnBrake();
        case AxisForward => controller.TurnLeft();
        case AxisReverse => controller.TurnRight();
        case AxisIdle => controller.TurnIdle();
      }
    }
  }
}
