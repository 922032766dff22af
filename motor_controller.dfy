/**
 * The motors controller (motor/motor.py): two axis configurations and the
 * commands it sends to the brick's motors, recorded as a command log.
 */
module MotorController {
  import opened MotorTypes

  /** One call on a motor: `run(power, regulated=True)`, `idle()` or `brake()`. */
  datatype Command = Run(port: MotorPort, power: Power) | Idle(port: MotorPort) | Brake(port: MotorPort)

  /** What one of performActions / performIdle / performBrake does to every action of a list. */
  datatype Perform = RunAs(invert: bool) | IdleAll | BrakeAll

  /** The command issued for one action; an inverted run negates the action's power. */
  function CommandFor(a: MotorAction, p: Perform): (r: Command)
    ensures r.port == a.motorPort
    ensures r.Run? <==> p.RunAs?
    ensures r.Idle? <==> p.IdleAll?
    ensures r.Brake? <==> p.BrakeAll?
    ensures p.RunAs? ==> r.power == if p.invert then -a.power else a.power
  {
    match p
    case RunAs(invert) => Run(a.motorPort, if invert then -a.power else a.power)
    case IdleAll => Idle(a.motorPort)
    case BrakeAll => Brake(a.motorPort)
  }

  /** The commands issued for a list of actions: one per action, in list order. */
  function Commands(actions: seq<MotorAction>, p: Perform): (r: seq<Command>)
    ensures |r| == |actions|
  {
    if actions == [] then []
    else Commands(actions[..|actions| - 1], p) + [CommandFor(actions[|actions| - 1], p)]
  }

  /** The i-th command is the one for the i-th action: same port, the action's own power. */
  lemma {:induction false} CommandsAt(actions: seq<MotorAction>, p: Perform, i: nat)
    requires i < |actions|
    ensures |Commands(actions, p)| == |actions|
    ensures Commands(actions, p)[i] == CommandFor(actions[i], p)
  {
    if i < |actions| - 1 {
      CommandsAt(actions[..|actions| - 1], p, i);
    }
  }

  /** Every command touches a port named in the action list, and only such ports. */
  lemma CommandsTouchOnly(actions: seq<MotorAction>, p: Perform)
    ensures forall c | c in Commands(actions, p) :: exists a :: a in actions && a.motorPort == c.port
  {
    forall c | c in Commands(actions, p)
      ensures exists a :: a in actions && a.motorPort == c.port
    {
      var i :| 0 <= i < |Commands(actions, p)| && Commands(actions, p)[i] == c;
      CommandsAt(actions, p, i);
      assert actions[i] in actions;
    }
  }

  /** Going backwards issues the same runs as going forwards, with every power negated. */
  lemma BackwardsNegatesForward(actions: seq<MotorAction>)
    ensures |Commands(actions, RunAs(true))| == |Commands(actions, RunAs(false))| == |actions|
    ensures forall i | 0 <= i < |actions| ::
      Commands(actions, RunAs(true))[i].Run? && Commands(actions, RunAs(false))[i].Run? &&
      Commands(actions, RunAs(true))[i].port == Commands(actions, RunAs(false))[i].port &&
      Commands(actions, RunAs(true))[i].power == -Commands(actions, RunAs(false))[i].power
  {
    forall i | 0 <= i < |actions|
      ensures Commands(actions, RunAs(true))[i] == Run(actions[i].motorPort, -actions[i].power)
      ensures Commands(actions, RunAs(false))[i] == Run(actions[i].motorPort, actions[i].power)
    {
      CommandsAt(actions, RunAs(true), i);
      CommandsAt(actions, RunAs(false), i);
    }
  }

  /** `MotorsController`: owns the motors on ports A, B and C and the two axis configurations. */
  class MotorsController {
    /** The ports `self.motors` holds a motor for. */
    const motors: set<MotorPort>
    var goActions: seq<MotorAction>
    var turnActions: seq<MotorAction>
    /** Every command sent to the motors so far, oldest first. */
    var log: seq<Command>

    /** Every port has a motor, so the lookup `self.motors[port]` never fails. */
    ghost predicate Valid()
      reads this
    {
      forall p: MotorPort :: p in motors
    }

    constructor ()
      ensures Valid() && motors == {A, B, C}
      ensures goActions == [] && turnActions == [] && log == []
    {
      motors := {A, B, C};
      goActions, turnActions, log := [], [], [];
      new;
      forall p: MotorPort
        ensures p in motors
      {
        match p
        case A =>
        case B =>
        case C =>
      }
    }

    method SetGoActions(actions: seq<MotorAction>)
      modifies this`goActions
      ensures goActions == actions
    {
      goActions := actions;
    }

    method SetTurnActions(actions: seq<MotorAction>)
      modifies this`turnActions
      ensures turnActions == actions
    {
      turnActions := actions;
    }

    method GoForward()
      requires Valid()
      modifies this`log
      ensures log == old(log) + Commands(goActions, RunAs(false))
    {
      PerformActions(goActions, false);
    }

    method GoBackwards()
      requires Valid()
      modifies this`log
      ensures log == old(log) + Commands(goActions, RunAs(true))
    {
      PerformActions(goActions, true);
    }

    method GoIdle()
      requires Valid()
      modifies this`log
      ensures log == old(log) + Commands(goActions, IdleAll)
    {
      PerformIdle(goActions);
    }

    method GoBrake()
      requires Valid()
      modifies this`log
      ensures log == old(log) + Commands(goActions, BrakeAll)
    {
      PerformBrake(goActions);
    }

    method TurnLeft()
      requires Valid()
      modifies this`log
      ensures log == old(log) + Commands(turnActions, RunAs(false))
    {
      PerformActions(turnActions, false);
    }

    method TurnRight()
      requires Valid()
      modifies this`log
      ensures log == old(log) + Commands(turnActions, RunAs(true))
    {
      PerformActions(turnActions, true);
    }

    method TurnIdle()
      requires Valid()
      modifies this`log
      ensures log == old(log) + Commands(turnActions, IdleAll)
    {
      PerformIdle(turnActions);
    }

    method TurnBrake()
      requires Valid()
      modifies this`log
      ensures log == old(log) + Commands(turnActions, BrakeAll)
    {
      PerformBrake(turnActions);
    }

    /** One regulated run per action, in list order, power negated when `invert`. */
    method PerformActions(actions: seq<MotorAction>, invert: bool)
      requires Valid()
      modifies this`log
      ensures log == old(log) + Commands(actions, RunAs(invert))
    {
      for i := 0 to |actions|
        invariant log == old(log) + Commands(actions[..i], RunAs(invert))
      {
        var action := actions[i];
        assert action.motorPort in motors;
        var power := if invert then -action.power else action.power;
        log := log + [Run(action.motorPort, power)];
        assert actions[..i + 1][..i] == actions[..i];
      }
      assert actions[..|actions|] == actions;
    }

    /** One idle per action, in list order. */
    method PerformIdle(actions: seq<MotorAction>)
      requires Valid()
      modifies this`log
      ensures log == old(log) + Commands(actions, IdleAll)
    {
      for i := 0 to |actions|
        invariant log == old(log) + Commands(actions[..i], IdleAll)
      {
        assert actions[i].motorPort in motors;
        log := log + [Idle(actions[i].motorPort)];
        assert actions[..i + 1][..i] == actions[..i];
      }
      assert actions[..|actions|] == actions;
    }

    /** One brake per action, in list order. */
    method PerformBrake(actions: seq<MotorAction>)
      requires Valid()
      modifies this`log
      ensures log == old(log) + Commands(actions, BrakeAll)
    {
      for i := 0 to |actions|
        invariant log == old(log) + Commands(actions[..i], BrakeAll)
      {
        assert actions[i].motorPort in motors;
        log := log + [Brake(actions[i].motorPort)];
        assert actions[..i + 1][..i] == actions[..i];
      }
      assert actions[..|actions|] == actions;
    }
  }
}
