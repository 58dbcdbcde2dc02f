/**
  * The agent: one car on the track, advanced one tick at a time.  Each tick
  * it runs its reward clock, refreshes its ray sensor, moves, checks whether
  * it died, and updates its fitness.
  */
module Agents {
  import opened Geometry
  import opened Sensors
  import opened Steering
  import opened Rewards

  /** An agent that goes this long without a gate reward starves. */
  const SurvivalTimeWithoutReward: real := 15.0
  /** What a collision death costs; starvation costs nothing. */
  const DeathPunishment: int := 100
  /** The reward clock runs this many times faster than the movement clock. */
  const ClockRate: real := 3.0
  const Spawn: Point := Point(50.0, 50.0)

  class PhysicalObject {
    const humanControlled: bool
    /** Size of the agent's bounding box. */
    const width: real
    const height: real
    /** The decision policy of an autonomous agent. */
    const decide: Policy

    var x: real
    var y: real
    var fitness: int
    /** Index of the gate the agent must take next. */
    var nextGate: nat
    var timeSinceReward: real
    var dead: bool
    var visible: bool
    /** The current sensor vector and the one before it. */
    var collisions: seq<int>
    var lastCollisions: seq<int>
    /** The cached decision, reused while the sensor vector is unchanged. */
    var lastDecisions: Decision
    /** How many times the policy has been consulted. */
    ghost var policyCalls: nat

    ghost predicate Valid()
      reads this
    {
      width > 0.0 && height > 0.0 &&
      IsFlagVector(collisions) && IsFlagVector(lastCollisions) &&
      nextGate < |RewardGates| &&
      visible == !dead
    }

    /** The cached decision is the policy's answer for the current sensor vector. */
    ghost predicate CacheCoherent()
      reads this
    {
      !humanControlled ==> lastDecisions == decide(collisions)
    }

    function Position(): Point
      reads this
    {
      Point(x, y)
    }

    function RewardProgress(): Progress
      reads this
    {
      Progress(fitness, nextGate, timeSinceReward)
    }

    /** A new agent at (x0, y0) with a clear sensor vector and no fitness yet. */
    constructor (humanControlled: bool, decide: Policy, x0: real, y0: real, width: real, height: real)
      requires width > 0.0 && height > 0.0
      ensures Valid() && CacheCoherent()
      ensures this.humanControlled == humanControlled && this.decide == decide
      ensures this.width == width && this.height == height
      ensures x == x0 && y == y0
      ensures fitness == 0 && nextGate == 0 && timeSinceReward == 0.0
      ensures !dead && visible
      ensures collisions == NoObstacles && lastCollisions == collisions
      ensures lastDecisions == decide(NoObstacles) && policyCalls == 1
    {
      this.humanControlled := humanControlled;
      this.decide := decide;
      this.width := width;
      this.height := height;
      x, y := x0, y0;
      visible := true;
      fitness := 0;
      collisions := NoObstacles;
      lastCollisions := collisions;
      lastDecisions := decide(NoObstacles);
      policyCalls := 1;
      timeSinceReward := 0.0;
      dead := false;
      nextGate := 0;
    }

    /**
      * Makes the agent ready for a new run, whether it is alive or dead: back
      * at the spawn point, alive and visible, with no fitness, no reward
      * progress, a clear sensor vector and a fresh decision for it.
      */
    method Reset()
      requires Valid()
      modifies this
      ensures Valid() && CacheCoherent()
      ensures !dead && visible
      ensures timeSinceReward == 0.0 && fitness == 0 && nextGate == 0
      ensures Position() == Spawn
      ensures collisions == NoObstacles && lastCollisions == collisions
      ensures lastDecisions == decide(NoObstacles) && policyCalls == old(policyCalls) + 1
    {
      dead := false;
      timeSinceReward := 0.0;
      fitness := 0;
      nextGate := 0;
      x := 50.0;
      y := 50.0;
      collisions := NoObstacles;
      lastCollisions := collisions;
      lastDecisions := decide(collisions);
      policyCalls := policyCalls + 1;
      visible := true;
    }

    /**
      * The fitness update of one tick at the current position, as the reward
      * track defines it; the position and everything else stay as they were.
      */
    method UpdateFitness()
      requires nextGate < |RewardGates|
      modifies this`fitness, this`nextGate, this`timeSinceReward
      ensures RewardProgress() == RewardStep(old(RewardProgress()), Position())
    {
      var gate := RewardGates[nextGate];
      fitness := fitness + AliveReward;
      if InGate(gate, Position()) {
        fitness := fitness + GateReward;
        timeSinceReward := 0.0;
        if nextGate == |RewardGates| - 1 {
          nextGate := 0;
          fitness := fitness + LapReward;
        } else {
          nextGate := nextGate + 1;
        }
      }
    }

    /** Moves c units along each axis whose keys say so. */
    method MoveHuman(c: int, keys: Keys)
      modifies this`x, this`y
      ensures x == old(x) + HumanAxis(keys.left, keys.right, c) as real
      ensures y == old(y) + HumanAxis(keys.down, keys.up, c) as real
    {
      if keys.left {
        x := x - c as real;
      }
      if keys.right {
        x := x + c as real;
      }
      if keys.up {
        y := y + c as real;
      }
      if keys.down {
        y := y - c as real;
      }
    }

    /**
      * Moves c units along each axis as the decision says.  The policy is
      * consulted, and its answer cached, only when the sensor vector differs
      * from the previous one; otherwise the cached decision is used.  If the
      * cache held the answer for the previous vector, the decision used is the
      * policy's answer for the current one either way.
      */
    method MoveAi(c: int)
      modifies this`x, this`y, this`lastDecisions, this`policyCalls
      ensures old(collisions == lastCollisions) ==>
        lastDecisions == old(lastDecisions) && policyCalls == old(policyCalls)
      ensures old(collisions != lastCollisions) ==>
        lastDecisions == decide(collisions) && policyCalls == old(policyCalls) + 1
      ensures old(lastDecisions) == decide(lastCollisions) ==> lastDecisions == decide(collisions)
      ensures x == old(x) + AxisStep(lastDecisions.dx, c) as real
      ensures y == old(y) + AxisStep(lastDecisions.dy, c) as real
    {
      var decisions: Decision;
      if collisions == lastCollisions {
        decisions := lastDecisions;
      } else {
        decisions := decide(collisions);
        policyCalls := policyCalls + 1;
        lastDecisions := decisions;
      }

      if decisions.dx < 0.0 {
        x := x - c as real;
      } else if decisions.dx > 0.0 {
        x := x + c as real;
      }

      if decisions.dy < 0.0 {
        y := y - c as real;
      } else if decisions.dy > 0.0 {
        y := y + c as real;
      }
    }

    /** Moves by the keys or by the policy, depending on who controls the agent. */
    method Move(c: int, keys: Keys)
      modifies this`x, this`y, this`lastDecisions, this`policyCalls
      ensures humanControlled ==> lastDecisions == old(lastDecisions) && policyCalls == old(policyCalls)
      ensures !humanControlled && old(collisions == lastCollisions) ==>
        lastDecisions == old(lastDecisions) && policyCalls == old(policyCalls)
      ensures !humanControlled && old(collisions != lastCollisions) ==>
        lastDecisions == decide(collisions) && policyCalls == old(policyCalls) + 1
      ensures !humanControlled && old(lastDecisions) == decide(lastCollisions) ==>
        lastDecisions == decide(collisions)
      ensures Position() == Point(old(x) + Steer(humanControlled, lastDecisions, keys, c).0 as real,
                                  old(y) + Steer(humanControlled, lastDecisions, keys, c).1 as real)
    {
      if humanControlled {
        MoveHuman(c, keys);
      } else {
        MoveAi(c);
      }
    }

    /** True exactly when some corner of the bounding box collides. */
    method IsDead() returns (hit: bool)
      ensures hit == CornersCollide(Position(), width, height)
    {
      var corners := Corners(Position(), width, height);
      for i := 0 to |corners|
        invariant forall j :: 0 <= j < i ==> !IsPointColliding(corners[j])
      {
        if IsPointColliding(corners[i]) {
          return true;
        }
      }
      return false;
    }

    /**
      * Refreshes the sensor vector from the current position; the vector it
      * replaces becomes the previous one.
      */
    method UpdateRaypointCollisions()
      requires Valid()
      modifies this`collisions, this`lastCollisions
      ensures Valid()
      ensures lastCollisions == old(collisions)
      ensures collisions == Sense(Position(), width, height)
    {
      var rays := RayPoints(Position(), width / 2.0, height / 2.0);
      var colliding: seq<int> := [];
      for i := 0 to |rays|
        invariant |colliding| == i
        invariant forall j :: 0 <= j < i ==>
          colliding[j] == if IsPointColliding(rays[j]) then 1 else 0
      {
        colliding := colliding + [if IsPointColliding(rays[i]) then 1 else 0];
      }
      lastCollisions := collisions;
      collisions := colliding;
    }

    /**
      * One tick of `dt` time units.  A dead agent does nothing.  A live one
      * advances its reward clock by three times `dt`, senses from where it
      * stands, moves one step of StepSize(dt) by the keys or by the policy's
      * answer for the new sensor vector, and then dies if a corner of its box
      * collides (losing DeathPunishment) or, failing that, if its reward clock
      * has reached SurvivalTimeWithoutReward (losing nothing).  The fitness
      * update at the new position runs on every live tick, the tick of death
      * included.
      */
    method Update(dt: real, keys: Keys)
      requires Valid() && CacheCoherent() && dt >= 0.0
      modifies this
      ensures Valid() && CacheCoherent()
      ensures old(dead) ==> unchanged(this)
      ensures !old(dead) ==> lastCollisions == old(collisions)
      ensures !old(dead) ==> collisions == Sense(old(Position()), width, height)
      ensures !old(dead) ==>
        var delta := Steer(humanControlled, decide(collisions), keys, StepSize(dt));
        Position() == Point(old(x) + delta.0 as real, old(y) + delta.1 as real)
      ensures !old(dead) ==>
        policyCalls == old(policyCalls) + (if humanControlled || collisions == lastCollisions then 0 else 1)
      ensures humanControlled ==> lastDecisions == old(lastDecisions)
      ensures !old(dead) ==>
        dead == (CornersCollide(Position(), width, height) ||
                 old(timeSinceReward) + dt * ClockRate >= SurvivalTimeWithoutReward)
      ensures !old(dead) ==>
        var penalty := if CornersCollide(Position(), width, height) then DeathPunishment else 0;
        RewardProgress() ==
          RewardStep(Progress(old(fitness) - penalty, old(nextGate), old(timeSinceReward) + dt * ClockRate),
                     Position())
    {
      if dead {
        return;
      }

      timeSinceReward := timeSinceReward + dt * ClockRate;

      UpdateRaypointCollisions();

      Move(StepSize(dt), keys);

      var collided := IsDead();
      if collided {
        dead := true;
        fitness := fitness - DeathPunishment;
        visible := false;
      } else if timeSinceReward >= SurvivalTimeWithoutReward {
        dead := true;
        visible := false;
      }
      ghost var penalty := if collided then DeathPunishment else 0;
      assert RewardProgress() ==
        Progress(old(fitness) - penalty, old(nextGate), old(timeSinceReward) + dt * ClockRate);

      UpdateFitness();
    }
  }
}
