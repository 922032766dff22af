/**
 * Motor power and motor actions (motor/types.py).
 */
module MotorTypes {
  import opened Wrappers

  /** The brick's motor ports (nxt.motor.Port). */
  datatype MotorPort = A | B | C

  /** Power.min_val and Power.max_val. */
  const MinPower: int := -100
  const MaxPower: int := 100

  /** A validated motor power: a signed duty cycle in [MinPower, MaxPower]. */
  type Power = x: int | MinPower <= x <= MaxPower

  /**
   * The dynamic value handed to `Power(value)`. Python's `bool` is a subclass
   * of `int`, so `isinstance(True, int)` holds and `Power(True)` is 1.
   */
  datatype PyValue = PyInt(i: int) | PyBool(b: bool) | PyOther

  /** The exceptions `Power.__new__` raises. */
  datatype PowerError = TypeError | ValueError

  /** The integer a value stands for when `isinstance(value, int)`, else None. */
  function AsInt(v: PyValue): (r: Option<int>)
  {
    match v
    case PyInt(i) => Some(i)
    case PyBool(b) => Some(if b then 1 else 0)
    case PyOther => None
  }

  /**
   * `Power(value)`: the type test comes first, then the inclusive range test.
   */
  function MakePower(v: PyValue): (r: Result<Power, PowerError>)
    ensures r.Success? <==> AsInt(v).Some? && MinPower <= AsInt(v).value <= MaxPower
    ensures r.Success? ==> r.value == AsInt(v).value
    ensures r == Failure(TypeError) <==> v.PyOther?
    ensures r == Failure(ValueError) <==> AsInt(v).Some? && !(MinPower <= AsInt(v).value <= MaxPower)
  {
    match AsInt(v)
    case None => Failure(TypeError)
    case Some(i) =>
      if MinPower <= i <= MaxPower then Success(i) else Failure(ValueError)
  }

  /** The boundary values are accepted, their neighbours outside are rejected. */
  lemma PowerBoundaries()
    ensures MakePower(PyInt(-100)) == Success(-100) && MakePower(PyInt(100)) == Success(100)
    ensures MakePower(PyInt(-101)) == Failure(ValueError) && MakePower(PyInt(101)) == Failure(ValueError)
  {
  }

  /** The range is symmetric: negating a valid power gives a valid power. */
  lemma NegatedPowerIsValid(p: Power)
    ensures MakePower(PyInt(-p)) == Success(-p)
  {
  }

  /** `MotorAction`: which motor runs, and at what power, for one direction of an axis. */
  datatype MotorAction = MotorAction(motorPort: MotorPort, power: Power)
}
