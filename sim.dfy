/** The traffic simulator (SUMO, reached through TraCI) as the control scripts see it.
    The simulator is deterministic: every reading is a function of the number of steps
    simulated since the last (re)load and of the phase commands issued since then. Those
    functions form the `Scenario`; they stand for the network file, the demand and SUMO itself. */
module Sim {

  type LaneId = string
  type VehId = string

  /** Non-negative quantities: seconds of waiting, mean speeds. */
  type NonNeg = r: real | r >= 0.0

  /** What TraCI reports about one lane after the last simulation step:
      halting vehicles, accumulated waiting time, vehicles on the lane, mean speed. */
  datatype LaneReading = LaneReading(halting: nat, waiting: NonNeg, vehicles: nat, meanSpeed: NonNeg)

  /** A phase command `setPhase(tls, phase)` issued after `at` simulation steps. */
  datatype Command = PhaseSet(at: nat, phase: nat)

  /** Vehicle-level report of one step: vehicles present with their current waiting time,
      vehicles that departed and that arrived in this step, and the simulation clock. */
  datatype VehicleReport = VehicleReport(
    present: seq<(VehId, real)>,
    departed: seq<VehId>,
    arrived: seq<VehId>,
    clock: real)

  datatype Scenario = Scenario(
    lightCount: nat,                                  // |trafficlight.getIDList()|
    phaseCount: nat,                                  // phases of the first light's program
    controlled: seq<LaneId>,                          // getControlledLanes of the first light
    lane: (LaneId, nat, seq<Command>) -> LaneReading, // lane queries
    phase: (nat, seq<Command>) -> nat,                // trafficlight.getPhase
    traffic: (nat, seq<Command>) -> VehicleReport)    // vehicle / simulation queries
  {
    /** What every script relies on when it reads `getIDList()[0]` and computes `% phases`. */
    predicate Usable() {
      lightCount > 0 && phaseCount > 0
    }
  }

  /** The readings of the given lanes, in the given order, at a point of a run. */
  function LaneReadings(s: Scenario, ls: seq<LaneId>, time: nat, commands: seq<Command>): (rs: seq<LaneReading>)
    ensures |rs| == |ls|
    ensures forall i :: 0 <= i < |ls| ==> rs[i] == s.lane(ls[i], time, commands)
  {
    if ls == [] then [] else [s.lane(ls[0], time, commands)] + LaneReadings(s, ls[1..], time, commands)
  }

  /** The commands of a run that were issued before step `t` was simulated: the ones in
      effect when the readings after step `t` are taken. */
  function IssuedBefore(cs: seq<Command>, t: nat): seq<Command> {
    if cs == [] then []
    else IssuedBefore(cs[..|cs| - 1], t) + (if cs[|cs| - 1].at < t then [cs[|cs| - 1]] else [])
  }

  /** Every command already issued is in effect. */
  lemma {:induction false} IssuedBeforeAll(cs: seq<Command>, t: nat)
    requires forall i :: 0 <= i < |cs| ==> cs[i].at < t
    ensures IssuedBefore(cs, t) == cs
  {
    if cs != [] {
      IssuedBeforeAll(cs[..|cs| - 1], t);
      assert cs[..|cs| - 1] + [cs[|cs| - 1]] == cs;
    }
  }

  /** No command is in effect at the start of a run. */
  lemma {:induction false} IssuedBeforeStart(cs: seq<Command>)
    ensures IssuedBefore(cs, 0) == []
  {
    if cs != [] {
      IssuedBeforeStart(cs[..|cs| - 1]);
    }
  }

  /** A command issued at or after step `t` does not change what was in effect at `t`. */
  lemma IssuedBeforeIgnoresLater(cs: seq<Command>, c: Command, t: nat)
    requires t <= c.at
    ensures IssuedBefore(cs + [c], t) == IssuedBefore(cs, t)
  {
    assert (cs + [c])[..|cs|] == cs;
  }

  /** Lane readings recorded during a run that has reached step `time` with commands `cs`:
      `obs[i]` is what `lanes` read right after step `ends[i]`; no command is ahead of the clock. */
  ghost predicate Observed(s: Scenario, lanes: seq<LaneId>, time: nat, cs: seq<Command>,
                           ends: seq<nat>, obs: seq<seq<LaneReading>>)
  {
    && |ends| == |obs|
    && (forall i :: 0 <= i < |cs| ==> cs[i].at <= time)
    && (forall i :: 0 <= i < |ends| ==> ends[i] <= time)
    && (forall i :: 0 <= i < |obs| ==> obs[i] == LaneReadings(s, lanes, ends[i], IssuedBefore(cs, ends[i])))
  }

  /** A command issued now leaves every earlier recording as it was. */
  lemma ObservedAfterCommand(s: Scenario, lanes: seq<LaneId>, time: nat, cs: seq<Command>,
                             ends: seq<nat>, obs: seq<seq<LaneReading>>, p: nat)
    requires Observed(s, lanes, time, cs, ends, obs)
    ensures Observed(s, lanes, time, cs + [PhaseSet(time, p)], ends, obs)
  {
    forall t: nat | t <= time
      ensures IssuedBefore(cs + [PhaseSet(time, p)], t) == IssuedBefore(cs, t)
    {
      IssuedBeforeIgnoresLater(cs, PhaseSet(time, p), t);
    }
  }

  /** Recording the readings now, once every command issued so far is in effect. */
  lemma ObservedNow(s: Scenario, lanes: seq<LaneId>, time: nat, cs: seq<Command>,
                    ends: seq<nat>, obs: seq<seq<LaneReading>>)
    requires Observed(s, lanes, time, cs, ends, obs)
    requires forall i :: 0 <= i < |cs| ==> cs[i].at < time
    ensures Observed(s, lanes, time, cs, ends + [time], obs + [LaneReadings(s, lanes, time, cs)])
  {
    IssuedBeforeAll(cs, time);
  }

  class Sumo {
    const scenario: Scenario
    var time: nat
    var commands: seq<Command>

    /** traci.start / traci.init: a fresh simulation at step 0. */
    constructor Start(s: Scenario)
      ensures scenario == s && time == 0 && commands == []
    {
      scenario := s;
      time := 0;
      commands := [];
    }

    /** traci.load: the same scenario from its beginning. */
    method Load()
      modifies this
      ensures time == 0 && commands == []
    {
      time := 0;
      commands := [];
    }

    /** traci.simulationStep. */
    method Step()
      modifies this
      ensures time == old(time) + 1 && commands == old(commands)
    {
      time := time + 1;
    }

    /** trafficlight.setPhase; SUMO refuses an index outside the program. */
    method SetPhase(p: nat)
      requires p < scenario.phaseCount
      modifies this
      ensures time == old(time) && commands == old(commands) + [PhaseSet(old(time), p)]
    {
      commands := commands + [PhaseSet(time, p)];
    }

    function Reading(l: LaneId): LaneReading
      reads this
    {
      scenario.lane(l, time, commands)
    }

    function Readings(ls: seq<LaneId>): (rs: seq<LaneReading>)
      reads this
      ensures |rs| == |ls|
      ensures forall i :: 0 <= i < |ls| ==> rs[i] == Reading(ls[i])
    {
      LaneReadings(scenario, ls, time, commands)
    }

    function Phase(): nat
      reads this
    {
      scenario.phase(time, commands)
    }

    function Traffic(): VehicleReport
      reads this
    {
      scenario.traffic(time, commands)
    }
  }
}
