/**
  * The reward track: sixteen rectangular gates that must be entered in order.
  * Entering the expected gate earns a reward and makes the following gate the
  * expected one; entering the last gate also completes a lap.
  */
module Rewards {
  import opened Geometry

  const AliveReward: int := 0
  const GateReward: int := 100
  const LapReward: int := 10000

  /** A closed rectangle [xLo, xHi] x [yLo, yHi]. */
  datatype Gate = Gate(xLo: int, xHi: int, yLo: int, yHi: int)

  /**
    * The gates in the order they must be taken: up the left corridor, right
    * along the top, down the right corridor and left along the bottom.
    */
  const RewardGates: seq<Gate> := [
    Gate(0, 100, 100, 110),
    Gate(0, 100, 200, 210),
    Gate(0, 100, 400, 410),
    Gate(0, 100, 700, 710),

    Gate(100, 110, 700, 800),
    Gate(200, 210, 700, 800),
    Gate(400, 410, 700, 800),
    Gate(700, 710, 700, 800),

    Gate(700, 800, 690, 700),
    Gate(700, 800, 390, 400),
    Gate(700, 800, 190, 200),
    Gate(700, 800, 90, 100),

    Gate(690, 700, 0, 100),
    Gate(390, 400, 0, 100),
    Gate(190, 200, 0, 100),
    Gate(90, 100, 0, 100)
  ]

  const GateCount: nat := 16

  predicate InGate(g: Gate, p: Point)
  {
    g.xLo as real <= p.x <= g.xHi as real && g.yLo as real <= p.y <= g.yHi as real
  }

  function Centre(g: Gate): Point
  {
    Point((g.xLo + g.xHi) as real / 2.0, (g.yLo + g.yHi) as real / 2.0)
  }

  /** Every gate can be reached: its centre lies on the drivable track. */
  lemma GatesLieOnTrack()
    ensures |RewardGates| == GateCount
    ensures forall k :: 0 <= k < |RewardGates| ==> OnTrack(Centre(RewardGates[k]))
  {
  }

  /** The part of an agent's state that the reward track reads and writes. */
  datatype Progress = Progress(fitness: int, nextGate: nat, timeSinceReward: real)

  /**
    * One fitness update at position `pos`.  The alive reward is always paid.
    * Only the expected gate `nextGate` is tested: inside it the agent earns the
    * gate reward, its reward clock restarts and the next gate (modulo the gate
    * count) becomes expected; taking the last gate also earns the lap reward.
    * Anywhere else only the alive reward changes anything.
    */
  function RewardStep(p: Progress, pos: Point): (q: Progress)
    requires p.nextGate < |RewardGates|
    ensures q.nextGate < |RewardGates|
    ensures InGate(RewardGates[p.nextGate], pos) ==>
      q.nextGate == (p.nextGate + 1) % GateCount &&
      q.timeSinceReward == 0.0 &&
      q.fitness == p.fitness + AliveReward + GateReward +
                   (if p.nextGate == GateCount - 1 then LapReward else 0)
    ensures !InGate(RewardGates[p.nextGate], pos) ==>
      q == p.(fitness := p.fitness + AliveReward)
  {
    var fitness := p.fitness + AliveReward;
    if InGate(RewardGates[p.nextGate], pos) then
      if p.nextGate == |RewardGates| - 1 then
        Progress(fitness + GateReward + LapReward, 0, 0.0)
      else
        Progress(fitness + GateReward, p.nextGate + 1, 0.0)
    else
      p.(fitness := fitness)
  }

  /** The progress after a fitness update at each position of `path` in turn. */
  function Run(p: Progress, path: seq<Point>): Progress
    requires p.nextGate < |RewardGates|
    decreases |path|
  {
    if path == [] then p else Run(RewardStep(p, path[0]), path[1..])
  }

  /** The indices of the gates taken along `path`, in the order taken. */
  function Captured(p: Progress, path: seq<Point>): seq<nat>
    requires p.nextGate < |RewardGates|
    decreases |path|
  {
    if path == [] then []
    else
      (if InGate(RewardGates[p.nextGate], path[0]) then [p.nextGate] else []) +
      Captured(RewardStep(p, path[0]), path[1..])
  }

  lemma StepPastGate(n: nat, k: nat)
    requires n < GateCount
    ensures ((n + 1) % GateCount + k) % GateCount == (n + 1 + k) % GateCount
    ensures (if n == GateCount - 1 then 1 else 0) + ((n + 1) % GateCount + k) / GateCount
            == (n + 1 + k) / GateCount
  {
  }

  lemma TakenGateLeadsOrder(n: nat, m: nat, rest: seq<nat>)
    requires n < GateCount && m == (n + 1) % GateCount
    requires forall i :: 0 <= i < |rest| ==> rest[i] == (m + i) % GateCount
    ensures forall i :: 0 <= i < |[n] + rest| ==> ([n] + rest)[i] == (n + i) % GateCount
  {
  }

  /**
    * Along any path the gates are taken strictly in order, starting with the
    * expected one and wrapping after the last.
    */
  lemma {:induction false} GatesAreTakenInOrder(p: Progress, path: seq<Point>)
    requires p.nextGate < |RewardGates|
    ensures forall i :: 0 <= i < |Captured(p, path)| ==>
      Captured(p, path)[i] == (p.nextGate + i) % GateCount
    decreases |path|
  {
    if path != [] {
      var n := p.nextGate;
      var q := RewardStep(p, path[0]);
      var rest := Captured(q, path[1..]);
      GatesAreTakenInOrder(q, path[1..]);
      if InGate(RewardGates[n], path[0]) {
        TakenGateLeadsOrder(n, q.nextGate, rest);
        assert Captured(p, path) == [n] + rest;
      } else {
        assert Captured(p, path) == rest;
      }
    }
  }

  /** After any path the expected gate is the one after the last gate taken. */
  lemma {:induction false} NextGateFollowsLastTaken(p: Progress, path: seq<Point>)
    requires p.nextGate < |RewardGates|
    ensures Run(p, path).nextGate == (p.nextGate + |Captured(p, path)|) % GateCount
    decreases |path|
  {
    if path != [] {
      var n := p.nextGate;
      var q := RewardStep(p, path[0]);
      var rest := Captured(q, path[1..]);
      NextGateFollowsLastTaken(q, path[1..]);
      assert Run(p, path) == Run(q, path[1..]);
      if InGate(RewardGates[n], path[0]) {
        assert |Captured(p, path)| == 1 + |rest|;
        StepPastGate(n, |rest|);
      } else {
        assert Captured(p, path) == rest;
      }
    }
  }

  /**
    * Along any path the fitness gained is the alive reward per update, the
    * gate reward per gate taken and the lap reward per completed lap, a lap
    * being completed each time the gates taken pass the last gate.
    */
  lemma {:induction false} FitnessAccounting(p: Progress, path: seq<Point>)
    requires p.nextGate < |RewardGates|
    ensures var caps := Captured(p, path);
      Run(p, path).fitness == p.fitness + AliveReward * |path| + GateReward * |caps| +
                              LapReward * ((p.nextGate + |caps|) / GateCount)
    decreases |path|
  {
    if path == [] {
      assert p.nextGate / GateCount == 0;
    } else {
      var n := p.nextGate;
      var q := RewardStep(p, path[0]);
      var rest := Captured(q, path[1..]);
      FitnessAccounting(q, path[1..]);
      assert Run(p, path) == Run(q, path[1..]);
      if InGate(RewardGates[n], path[0]) {
        assert Captured(p, path) == [n] + rest;
        StepPastGate(n, |rest|);
      } else {
        assert Captured(p, path) == rest;
      }
    }
  }

  /**
    * No skipping: an agent that took gate 0 and then stands at the centre of
    * gate 2 has earned only the first gate reward, and still expects gate 1.
    */
  lemma SkippingAGateEarnsNothing(t: real)
    ensures var p := Run(Progress(0, 0, t), [Centre(RewardGates[0]), Centre(RewardGates[2])]);
      p.fitness == GateReward && p.nextGate == 1
  {
    var p0 := Progress(0, 0, t);
    var p1 := RewardStep(p0, Centre(RewardGates[0]));
    assert InGate(RewardGates[0], Centre(RewardGates[0]));
    assert !InGate(RewardGates[1], Centre(RewardGates[2]));
    assert Run(p1, [Centre(RewardGates[2])]) == RewardStep(p1, Centre(RewardGates[2]));
  }
}
