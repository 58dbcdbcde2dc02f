/**
  * How an agent turns a control input into a displacement: the policy's
  * decision for an autonomous agent, four pressed-or-not keys for a human.
  * Every move on an axis is one fixed step of `StepSize(dt)` units.
  */
module Steering {

  /** Movement speed in units per unit of time. */
  const Speed: real := 200.0

  /** The policy's answer: one signed component per axis; only signs matter. */
  datatype Decision = Decision(dx: real, dy: real)

  /**
    * The decision policy (a neural network in the game), seen
    * only through its interface: a sensor vector in, a decision out.
    */
  type Policy = seq<int> -> Decision

  /** The state of the arrow keys during one tick. */
  datatype Keys = Keys(left: bool, right: bool, up: bool, down: bool)

  /**
    * The step of one tick, `int(speed * dt)`: for non-negative `dt` the
    * truncation is the floor, the largest whole number not above speed * dt.
    */
  function StepSize(dt: real): (c: nat)
    requires dt >= 0.0
    ensures c as real <= Speed * dt < c as real + 1.0
  {
    (Speed * dt).Floor
  }

  /**
    * Movement along one axis driven by a decision component: its sign alone
    * chooses -c, 0 or +c, and an exact zero stays put.
    */
  function AxisStep(v: real, c: int): (r: int)
    ensures r == -c || r == 0 || r == c
    ensures v == 0.0 ==> r == 0
    ensures c > 0 ==> (r < 0 <==> v < 0.0) && (r > 0 <==> v > 0.0)
  {
    if v < 0.0 then -c
    else if v > 0.0 then c
    else 0
  }

  /** Scaling a decision component by a positive factor never changes the move. */
  lemma AxisStepIgnoresMagnitude(v: real, k: real, c: int)
    requires k > 0.0
    ensures AxisStep(k * v, c) == AxisStep(v, c)
  {
  }

  /**
    * Movement along one axis driven by two opposite keys: a pressed key moves
    * c units its way, and both pressed together cancel out.
    */
  function HumanAxis(negative: bool, positive: bool, c: int): (r: int)
    ensures r == -c || r == 0 || r == c
    ensures negative == positive ==> r == 0
    ensures c != 0 ==> (r == c <==> positive && !negative) && (r == -c <==> negative && !positive)
  {
    (if negative then -c else 0) + (if positive then c else 0)
  }

  /**
    * The displacement of one tick for either kind of agent: a human agent
    * follows the keys, an autonomous one the decision.
    */
  function Steer(humanControlled: bool, d: Decision, keys: Keys, c: int): (delta: (int, int))
    ensures (delta.0 == -c || delta.0 == 0 || delta.0 == c) && (delta.1 == -c || delta.1 == 0 || delta.1 == c)
    ensures humanControlled && keys.left == keys.right ==> delta.0 == 0
    ensures humanControlled && keys.up == keys.down ==> delta.1 == 0
    ensures !humanControlled && d.dx == 0.0 ==> delta.0 == 0
    ensures !humanControlled && d.dy == 0.0 ==> delta.1 == 0
  {
    if humanControlled then (HumanAxis(keys.left, keys.right, c), HumanAxis(keys.down, keys.up, c))
    else (AxisStep(d.dx, c), AxisStep(d.dy, c))
  }

  /**
    * The dispatch of a tick's displacement: for a positive step, a human
    * agent moves -c or +c on an axis exactly when only that direction's key
    * is pressed, and an autonomous agent moves on each axis with the sign of
    * its decision component.
    */
  lemma SteerFollowsControls(humanControlled: bool, d: Decision, keys: Keys, c: int)
    requires c > 0
    ensures var delta := Steer(humanControlled, d, keys, c);
      humanControlled ==>
        (delta.0 == -c <==> keys.left && !keys.right) && (delta.0 == c <==> keys.right && !keys.left) &&
        (delta.1 == -c <==> keys.down && !keys.up) && (delta.1 == c <==> keys.up && !keys.down)
    ensures var delta := Steer(humanControlled, d, keys, c);
      !humanControlled ==>
        (delta.0 < 0 <==> d.dx < 0.0) && (delta.0 > 0 <==> d.dx > 0.0) &&
        (delta.1 < 0 <==> d.dy < 0.0) && (delta.1 > 0 <==> d.dy > 0.0)
  {
  }
}
