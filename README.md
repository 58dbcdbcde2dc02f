# Per-tick agent kernel of a track-driving simulation

This project models the simulation kernel of one agent (`PhysicalObject`) in a
small evolutionary-learning game. An agent drives around a square ring-shaped
track inside an 800 x 800 window. Each tick it does five things:

1. It advances its reward clock.
2. It reads eight proximity flags around its bounding box (the ray sensor).
3. It moves one fixed step per axis, following either the arrow keys or a
   decision policy. The policy is consulted only when the sensor vector has
   changed.
4. It dies if a corner of its box touches the wall or the window edge
   (penalised), or if it has gone too long without a reward (not penalised).
5. It updates its fitness against an ordered list of sixteen reward gates,
   earning a bonus for each completed lap.

The modules follow the parts of the kernel:

- `Geometry` (geometry.dfy): the point-collision test. It is checked
  against an independent description of the track as four open corridors.
- `Sensors` (sensors.dfy): the eight ray points, the sensor vector and the
  four box corners.
- `Steering` (steering.dfy): the step size, sign-driven movement, and
  key-driven movement in which opposite keys cancel.
- `Rewards` (rewards.dfy): the gate table and the one-step reward state
  machine. It also proves what happens over a whole path: gates are taken
  strictly in order, and fitness is accounted exactly.
- `Agents` (physical_object.dfy): the `PhysicalObject` class. Its fields
  are the ones the source updates in place, and each method states the new
  state. A ghost counter `policyCalls` records how often the policy is
  consulted, so the decision cache's guarantee can be stated as "not
  called". The predicate `CacheCoherent()` holds between ticks: the cached
  decision is the policy's answer for the current sensor vector. It follows
  that the cache never changes where an autonomous agent goes.

Two behaviours of the code that the model keeps:

- The fitness update runs on every live tick, including the tick on which
  the agent dies (physicalobject.py:157-167). A collision-death tick can
  therefore still earn a gate reward.
- The ray order is the one the code computes: left, top-left, top,
  top-right, right, bottom-right, bottom, bottom-left.
- The death check tests only the four corners (physicalobject.py:189-201),
  although its docstring (lines 185-188) also mentions starvation.
  Starvation is decided in `Update`, as the code does.

## Model

| member | source | states |
|---|---|---|
| `Geometry.IsPointColliding` | physicalobject.py:174-183 | a point collides exactly when it is off the track, i.e. in none of the four open corridors along the window's sides; bounds are inclusive, so x = 0 collides and (50, 50) does not |
| `Sensors.RayPoints` | physicalobject.py:209-224 | the eight sensing points, derived one from another, are the agent's position moved `hw + sight` / `hh + sight` in the compass directions left, top-left, top, top-right, right, bottom-right, bottom, bottom-left, in that order |
| `Sensors.Flags` | physicalobject.py:226-229 | one flag per point, 1 exactly when the point collides and 0 exactly when it does not |
| `Sensors.Sense` | physicalobject.py:208-229 | the sensor vector has eight 0/1 flags, and flag i is 1 exactly when the sensing point in direction i is off the track |
| `Sensors.Corners` | physicalobject.py:190-195 | the corners, derived one from another, are (x−w/2, y+h/2), (x+w/2, y+h/2), (x+w/2, y−h/2), (x−w/2, y−h/2) in that order |
| `Sensors.TouchingWindowIsDeadly` | physicalobject.py:189-201 | a box reaching or crossing any window edge is dead by collision |
| `Sensors.SpawnIsSafeIffBoxFitsCorridor` | physicalobject.py:189-201 | at the spawn point (50, 50) an agent is alive by the corner test exactly when its box is narrower and lower than 100 |
| `Steering.StepSize` | physicalobject.py:116 | the step `int(speed * dt)` is the whole number c with c ≤ 200·dt < c + 1 |
| `Steering.AxisStep` | physicalobject.py:125-136 | a decision component moves its axis by exactly one of −c, 0, +c; zero stays put; for c > 0 the move has the component's sign |
| `Steering.AxisStepIgnoresMagnitude` | physicalobject.py:125-136 | scaling a decision component by any positive factor leaves the move unchanged |
| `Steering.HumanAxis` | physicalobject.py:97-110 | two opposite keys move their axis by exactly one of −c, 0, +c; both pressed (or neither) cancel to 0; +c exactly when only the positive key is pressed |
| `Steering.Steer` | physicalobject.py:141-145 | each axis of a tick's displacement is −c, 0 or +c; for a human agent an axis whose two keys are both pressed or both released does not move; for an autonomous agent an axis whose decision component is zero does not move |
| `Steering.SteerFollowsControls` | physicalobject.py:141-145 | for a positive step, a human agent moves −c (or +c) on an axis exactly when only that direction's key is pressed, and an autonomous agent moves on each axis exactly with the sign of its decision component |
| `Rewards.GatesLieOnTrack` | physicalobject.py:37-58 | there are sixteen gates and each gate's centre lies on the drivable track |
| `Rewards.RewardStep` | physicalobject.py:78-92 | the alive reward is always paid; inside the expected gate the gate reward is added, the reward clock restarts and the expected gate advances modulo 16, with the lap reward on the last gate; anywhere else, inside another gate or not, nothing else changes; the gate index stays below 16 |
| `Rewards.GatesAreTakenInOrder` | physicalobject.py:78-92 | along any path the gates taken are next_gate, next_gate+1, … modulo 16, with no skipping |
| `Rewards.NextGateFollowsLastTaken` | physicalobject.py:78-92 | after any path the expected gate is next_gate plus the number of gates taken, modulo 16: the one after the last gate taken |
| `Rewards.FitnessAccounting` | physicalobject.py:78-92 | along any path the fitness gained is alive_reward per update + gate_reward per gate taken + lap_reward per lap completed |
| `Rewards.SkippingAGateEarnsNothing` | physicalobject.py:36-41 | an agent that took gate 0 and then stands in gate 2 has earned one gate reward only and still expects gate 1 |
| `Agents.PhysicalObject.constructor` | physicalobject.py:7-36 | a new agent is alive and visible with zero fitness, gate 0 expected, a clear sensor vector equal to the previous one, and the policy's decision for it cached |
| `Agents.PhysicalObject.Reset` | physicalobject.py:61-71 | whether alive or dead, the agent is afterwards alive, visible, at (50, 50), with zero fitness, gate 0 expected, a zero reward clock, eight zero flags equal to the previous vector, and one more policy call caching its answer |
| `Agents.PhysicalObject.UpdateFitness` | physicalobject.py:78-92 | fitness, gate index and reward clock become the reward step at the current position, and nothing else changes |
| `Agents.PhysicalObject.MoveHuman` | physicalobject.py:97-110 | x and y each change by −c, 0 or +c as the keys say, opposite keys cancelling, and nothing else changes |
| `Agents.PhysicalObject.MoveAi` | physicalobject.py:115-138 | with an unchanged sensor vector the cached decision is kept and the policy is not called; otherwise the policy is called once and its answer cached; the move follows the signs of the decision used; a cache valid for the previous vector is valid for the current one afterwards |
| `Agents.PhysicalObject.Move` | physicalobject.py:141-145 | a human agent moves by the keys and never consults the policy; an autonomous one moves as MoveAi says |
| `Agents.PhysicalObject.IsDead` | physicalobject.py:189-201 | true exactly when some corner of the bounding box collides; changes nothing |
| `Agents.PhysicalObject.UpdateRaypointCollisions` | physicalobject.py:208-233 | the previous sensor vector becomes the old current one, and the current one becomes the eight flags sensed at the current position |
| `Agents.PhysicalObject.Update` | physicalobject.py:147-167 | a dead agent is left unchanged; a live one senses from its old position, moves by the keys or by the policy's answer for the new sensor vector (calling the policy only if that vector changed), dies on a corner collision with exactly death_punishment lost, or else on starvation (clock + 3·dt ≥ 15) with nothing lost, and then takes the reward step at its new position; the class invariants and the cache's coherence are kept |

## Left out

- Drawing and the sprite base class are not modelled. The box's width and height, which the source takes from the sprite image, are positive constructor parameters, and `visible` is a plain flag.
- Keyboard polling is not modelled: the four arrow-key states of a tick are a `Keys` value passed to `Update` and `MoveHuman`.
- The neural-network policy (`brain.py`) is not part of this model. It is a `Policy` function value fixed at construction, so it is deterministic. The model relies on this: `CacheCoherent()` holds only because the same sensor vector always yields the same decision.
- Floating-point arithmetic is not modelled. Coordinates and the reward clock are exact reals, and `int(speed * dt)` is the exact floor of 200·dt (for dt ≥ 0 truncation and floor agree). IEEE rounding is not captured.
- Agents.PhysicalObject.constructor: in the source, constructing a human-controlled agent raises, because `self.brain` is read at line 31 (and again in `reset`, line 70) but is created only for autonomous agents (lines 11-14). The model gives every agent a policy. A human agent stores it, never consults it in `Move`, and consults it only in the constructor and `Reset`, as the source attempts to.
- A full box-overlap test is not modelled, because the source has none. The death test checks only the four corners, as the source does. A box more than 600 units wide or tall (the inner wall's side) can therefore straddle the inner wall without any corner touching it; a 700 x 90 box centred at (400, 735) is one.
