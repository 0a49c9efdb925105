/** eval_rl.py: the saved policy run greedily for one 2000-step episode, adding up the lanes'
    waiting time and vehicle count after every simulated step. Nothing is remembered or learned. */
module Evaluation {
  import opened Sim
  import opened Seqs
  import opened StateEncoding
  import opened Agent
  import opened Schedule

  /** Total waiting on `lanes` right after step `t` of a run whose phase commands are `cs`. */
  ghost function WaitAt(sc: Scenario, lanes: seq<LaneId>, t: nat, cs: seq<Command>): real {
    TotalWaiting(LaneReadings(sc, lanes, t, IssuedBefore(cs, t)))
  }

  /** Vehicles on `lanes` right after step `t` of a run whose phase commands are `cs`. */
  ghost function VehiclesAt(sc: Scenario, lanes: seq<LaneId>, t: nat, cs: seq<Command>): nat {
    TotalVehicles(LaneReadings(sc, lanes, t, IssuedBefore(cs, t)))
  }

  /** One measurement per simulated step of the first `time` steps, each the one the simulator
      gives after that step when the run's phase commands are `cs`; no command is ahead of the clock. */
  ghost predicate Measured(sc: Scenario, lanes: seq<LaneId>, time: nat, cs: seq<Command>,
                           waits: seq<real>, flows: seq<nat>)
  {
    && |waits| == time && |flows| == time
    && (forall i :: 0 <= i < |cs| ==> cs[i].at <= time)
    && (forall t :: 0 <= t < |waits| ==> waits[t] == WaitAt(sc, lanes, t + 1, cs))
    && (forall t :: 0 <= t < |flows| ==> flows[t] == VehiclesAt(sc, lanes, t + 1, cs))
  }

  /** Measuring once more after a step extends the measurements. */
  lemma MeasuredAfterStep(sc: Scenario, lanes: seq<LaneId>, time: nat, cs: seq<Command>,
                          waits: seq<real>, flows: seq<nat>)
    requires Measured(sc, lanes, time, cs, waits, flows)
    ensures var rs := LaneReadings(sc, lanes, time + 1, cs);
      Measured(sc, lanes, time + 1, cs, waits + [TotalWaiting(rs)], flows + [TotalVehicles(rs)])
  {
    IssuedBeforeAll(cs, time + 1);
  }

  /** One more measurement adds itself to each running sum. */
  lemma SumsAppend(waits: seq<real>, w: real, flows: seq<nat>, f: nat)
    ensures SumReals(waits + [w]) == SumReals(waits) + w
    ensures SumNats(flows + [f]) == SumNats(flows) + f
  {
    assert (waits + [w])[..|waits|] == waits;
    assert (flows + [f])[..|flows|] == flows;
  }

  /** Issuing a phase command now leaves the measurements taken so far as they were. */
  lemma MeasuredAfterCommand(sc: Scenario, lanes: seq<LaneId>, time: nat, cs: seq<Command>,
                             waits: seq<real>, flows: seq<nat>, p: nat)
    requires Measured(sc, lanes, time, cs, waits, flows)
    ensures Measured(sc, lanes, time, cs + [PhaseSet(time, p)], waits, flows)
  {
    forall t: nat | t <= time
      ensures IssuedBefore(cs + [PhaseSet(time, p)], t) == IssuedBefore(cs, t)
    {
      IssuedBeforeIgnoresLater(cs, PhaseSet(time, p), t);
    }
  }

  /** One `simulationStep()` followed by the two per-step measurements. */
  method StepMeasuring(sim: Sumo, lanes: seq<LaneId>, totalWait: real, throughput: nat,
                       ghost waits: seq<real>, ghost flows: seq<nat>)
    returns (newWait: real, newThroughput: nat, ghost newWaits: seq<real>, ghost newFlows: seq<nat>)
    requires Measured(sim.scenario, lanes, sim.time, sim.commands, waits, flows)
    requires totalWait == SumReals(waits) && throughput == SumNats(flows)
    modifies sim
    ensures sim.time == old(sim.time) + 1 && sim.commands == old(sim.commands)
    ensures Measured(sim.scenario, lanes, sim.time, sim.commands, newWaits, newFlows)
    ensures newWait == SumReals(newWaits) && newThroughput == SumNats(newFlows)
  {
    MeasuredAfterStep(sim.scenario, lanes, sim.time, sim.commands, waits, flows);
    sim.Step();
    var rs := sim.Readings(lanes);
    newWait := totalWait + TotalWaiting(rs);
    newThroughput := throughput + TotalVehicles(rs);
    newWaits := waits + [TotalWaiting(rs)];
    newFlows := flows + [TotalVehicles(rs)];
    SumsAppend(waits, TotalWaiting(rs), flows, TotalVehicles(rs));
  }

  /** The hold loop of eval_rl.py, which measures after every step it takes. */
  method HoldMeasuring(sim: Sumo, lanes: seq<LaneId>, green: nat, simStep: nat,
                       totalWait: real, throughput: nat, ghost waits: seq<real>, ghost flows: seq<nat>)
    returns (newStep: nat, newWait: real, newThroughput: nat,
             ghost newWaits: seq<real>, ghost newFlows: seq<nat>)
    requires simStep == sim.time <= MaxSteps
    requires Measured(sim.scenario, lanes, simStep, sim.commands, waits, flows)
    requires totalWait == SumReals(waits) && throughput == SumNats(flows)
    modifies sim
    ensures newStep == sim.time == simStep + Held(green, simStep, MaxSteps)
    ensures sim.commands == old(sim.commands)
    ensures Measured(sim.scenario, lanes, newStep, sim.commands, newWaits, newFlows)
    ensures newWait == SumReals(newWaits) && newThroughput == SumNats(newFlows)
  {
    newStep, newWait, newThroughput, newWaits, newFlows := simStep, totalWait, throughput, waits, flows;
    var i := 0;
    while i < green
      invariant 0 <= i <= green
      invariant newStep == sim.time == simStep + Min(i, MaxSteps - simStep)
      invariant sim.commands == old(sim.commands)
      invariant Measured(sim.scenario, lanes, newStep, sim.commands, newWaits, newFlows)
      invariant newWait == SumReals(newWaits) && newThroughput == SumNats(newFlows)
    {
      if newStep >= MaxSteps {
        break;
      }
      newWait, newThroughput, newWaits, newFlows :=
        StepMeasuring(sim, lanes, newWait, newThroughput, newWaits, newFlows);
      newStep := newStep + 1;
      i := i + 1;
    }
  }

  /** One greedy decision: observe, act, cycle the phase and hold while measuring. */
  method GreedyDecision(sim: Sumo, agent: DQNAgent, lanes: seq<LaneId>, simStep: nat,
                        totalWait: real, throughput: nat, ghost waits: seq<real>, ghost flows: seq<nat>)
    returns (state: seq<real>, action: nat, newStep: nat, newWait: real, newThroughput: nat,
             ghost newWaits: seq<real>, ghost newFlows: seq<nat>)
    requires sim.scenario.Usable() && simStep == sim.time < MaxSteps
    requires agent.Valid() && agent.stateSize == 3 * |lanes| && agent.actionSize == |Actions|
    requires agent.epsilon == 0.0
    requires Measured(sim.scenario, lanes, simStep, sim.commands, waits, flows)
    requires totalWait == SumReals(waits) && throughput == SumNats(flows)
    modifies sim
    ensures state == Encoded(old(sim.Readings(lanes)))
    ensures |agent.forward(agent.live, state)| > 0 && action == ArgMax(agent.forward(agent.live, state))
    ensures sim.commands == old(sim.commands)
      + [PhaseSet(simStep, NextPhase(old(sim.Phase()), sim.scenario.phaseCount))]
    ensures action < |Actions| && newStep == sim.time == simStep + Held(GreenTime(action), simStep, MaxSteps)
    ensures Measured(sim.scenario, lanes, newStep, sim.commands, newWaits, newFlows)
    ensures newWait == SumReals(newWaits) && newThroughput == SumNats(newFlows)
  {
    state := EncodeLanes(sim, lanes);
    var draw: real :| 0.0 <= draw < 1.0;
    var pick: nat :| pick < |Actions|;
    action := agent.Act(state, draw, pick);
    var green := GreenTime(action);

    var current := sim.Phase();
    var next := NextPhase(current, sim.scenario.phaseCount);
    MeasuredAfterCommand(sim.scenario, lanes, simStep, sim.commands, waits, flows, next);
    sim.SetPhase(next);
    newStep, newWait, newThroughput, newWaits, newFlows :=
      HoldMeasuring(sim, lanes, green, simStep, totalWait, throughput, waits, flows);
  }

  /** The decision taken at step `at` of a run with commands `cs` acted on the encoded readings
      there and took, with a green of `green` steps, the action with the highest value under
      `forward` with the parameters `saved`. */
  ghost predicate GreedyAt(sc: Scenario, lanes: seq<LaneId>, cs: seq<Command>, at: nat, green: nat,
                           choice: (seq<real>, nat), forward: QNet, saved: Params)
  {
    && choice.0 == Encoded(LaneReadings(sc, lanes, at, IssuedBefore(cs, at)))
    && |forward(saved, choice.0)| > 0 && choice.1 == ArgMax(forward(saved, choice.0))
    && choice.1 < |Actions| && green == GreenTime(choice.1)
  }

  /** The decisions of an evaluation run that has reached step `time` with commands `cs`: each
      cycled the phase shown where it was taken, held the green of its action, and chose that
      action greedily on the encoded readings there. */
  ghost predicate Decided(sc: Scenario, lanes: seq<LaneId>, time: nat, cs: seq<Command>, ends: seq<nat>,
                          greens: seq<nat>, choices: seq<(seq<real>, nat)>, forward: QNet, saved: Params)
  {
    && Cycled(sc, time, cs, ends, greens)
    && Chosen(sc, lanes, cs, ends, greens, choices, forward, saved)
  }

  /** Choice i was the greedy one on the readings where decision i was taken. */
  ghost predicate Chosen(sc: Scenario, lanes: seq<LaneId>, cs: seq<Command>, ends: seq<nat>,
                         greens: seq<nat>, choices: seq<(seq<real>, nat)>, forward: QNet, saved: Params)
  {
    && |greens| == |ends| && |choices| == |ends|
    && forall i {:trigger choices[i]} :: 0 <= i < |choices| ==>
         GreedyAt(sc, lanes, cs, StepBefore(ends, i), greens[i], choices[i], forward, saved)
  }

  /** Decision i of the record survives a command issued at or after the step reached. */
  lemma GreedyKept(sc: Scenario, lanes: seq<LaneId>, time: nat, cs: seq<Command>, ends: seq<nat>,
                   greens: seq<nat>, choices: seq<(seq<real>, nat)>, forward: QNet, saved: Params,
                   c: Command, i: nat)
    requires Decided(sc, lanes, time, cs, ends, greens, choices, forward, saved)
    requires time <= c.at && i < |choices|
    ensures GreedyAt(sc, lanes, cs + [c], StepBefore(ends, i), greens[i], choices[i], forward, saved)
  {
    StepBeforeAtMost(sc, time, cs, ends, greens, i);
    IssuedBeforeIgnoresLater(cs, c, StepBefore(ends, i));
    assert GreedyAt(sc, lanes, cs, StepBefore(ends, i), greens[i], choices[i], forward, saved);
  }

  /** The choices recorded so far survive a command issued now and one more choice. */
  lemma ChosenStep(sc: Scenario, lanes: seq<LaneId>, time: nat, cs: seq<Command>, ends: seq<nat>,
                   greens: seq<nat>, choices: seq<(seq<real>, nat)>, forward: QNet, saved: Params,
                   c: Command, next: nat, green: nat, choice: (seq<real>, nat))
    requires Decided(sc, lanes, time, cs, ends, greens, choices, forward, saved)
    requires time <= c.at && GreedyAt(sc, lanes, cs + [c], time, green, choice, forward, saved)
    ensures Chosen(sc, lanes, cs + [c], ends + [next], greens + [green], choices + [choice], forward, saved)
  {
    var ends', greens', choices' := ends + [next], greens + [green], choices + [choice];
    forall i | 0 <= i < |choices'|
      ensures GreedyAt(sc, lanes, cs + [c], StepBefore(ends', i), greens'[i], choices'[i], forward, saved)
    {
      if i < |choices| {
        GreedyKept(sc, lanes, time, cs, ends, greens, choices, forward, saved, c, i);
        assert StepBefore(ends', i) == StepBefore(ends, i);
      } else {
        assert StepBefore(ends', i) == time;
      }
    }
  }

  /** A greedy decision on the readings now, cycling the phase shown now, keeps the record. */
  lemma DecidedStep(sc: Scenario, lanes: seq<LaneId>, time: nat, cs: seq<Command>, ends: seq<nat>,
                    greens: seq<nat>, choices: seq<(seq<real>, nat)>, forward: QNet, saved: Params,
                    state: seq<real>, action: nat)
    requires Decided(sc, lanes, time, cs, ends, greens, choices, forward, saved) && time < MaxSteps
    requires state == Encoded(LaneReadings(sc, lanes, time, cs))
    requires |forward(saved, state)| > 0 && action == ArgMax(forward(saved, state)) && action < |Actions|
    ensures var next := time + Held(GreenTime(action), time, MaxSteps);
      Decided(sc, lanes, next, cs + [PhaseSet(time, NextPhase(sc.phase(time, cs), sc.phaseCount))],
              ends + [next], greens + [GreenTime(action)], choices + [(state, action)], forward, saved)
  {
    var green := GreenTime(action);
    var next := time + Held(green, time, MaxSteps);
    var c := PhaseSet(time, NextPhase(sc.phase(time, cs), sc.phaseCount));
    CycledStep(sc, time, cs, ends, greens, green);
    CycledInEffect(sc, time, cs, ends, greens);
    IssuedBeforeIgnoresLater(cs, c, time);
    assert GreedyAt(sc, lanes, cs + [c], time, green, (state, action), forward, saved);
    ChosenStep(sc, lanes, time, cs, ends, greens, choices, forward, saved, c, next, green, (state, action));
  }

  /** One pass of the evaluation loop, keeping the measurements, the sums, the pacing and the
      record of decisions. */
  method RecordedDecision(sim: Sumo, agent: DQNAgent, lanes: seq<LaneId>, simStep: nat,
                          totalWait: real, throughput: nat, ghost waits: seq<real>, ghost flows: seq<nat>,
                          ghost ends: seq<nat>, ghost greens: seq<nat>, ghost choices: seq<(seq<real>, nat)>)
    returns (newStep: nat, newWait: real, newThroughput: nat, ghost newWaits: seq<real>,
             ghost newFlows: seq<nat>, ghost newEnds: seq<nat>, ghost newGreens: seq<nat>,
             ghost newChoices: seq<(seq<real>, nat)>)
    requires sim.scenario.Usable() && simStep == sim.time < MaxSteps && Paced(|choices|, simStep)
    requires agent.Valid() && agent.stateSize == 3 * |lanes| && agent.actionSize == |Actions|
    requires agent.epsilon == 0.0
    requires Measured(sim.scenario, lanes, simStep, sim.commands, waits, flows)
    requires totalWait == SumReals(waits) && throughput == SumNats(flows)
    requires Decided(sim.scenario, lanes, simStep, sim.commands, ends, greens, choices, agent.forward, agent.live)
    modifies sim
    ensures simStep < newStep == sim.time && Paced(|newChoices|, newStep) && |newChoices| == |choices| + 1
    ensures Measured(sim.scenario, lanes, newStep, sim.commands, newWaits, newFlows)
    ensures newWait == SumReals(newWaits) && newThroughput == SumNats(newFlows)
    ensures Decided(sim.scenario, lanes, newStep, sim.commands, newEnds, newGreens, newChoices,
                    agent.forward, agent.live)
  {
    ghost var cs := sim.commands;
    var state, action;
    state, action, newStep, newWait, newThroughput, newWaits, newFlows :=
      GreedyDecision(sim, agent, lanes, simStep, totalWait, throughput, waits, flows);
    PacedStep(|choices|, simStep, GreenTime(action));
    DecidedStep(sim.scenario, lanes, simStep, cs, ends, greens, choices, agent.forward, agent.live, state, action);
    newEnds, newGreens, newChoices := ends + [newStep], greens + [GreenTime(action)], choices + [(state, action)];
  }

  /** The `while sim_step < 2000` loop of the evaluation script, with a greedy agent. */
  method EvaluateLoop(sim: Sumo, agent: DQNAgent, lanes: seq<LaneId>)
    returns (totalWait: real, throughput: nat, ghost waits: seq<real>, ghost flows: seq<nat>,
             ghost ends: seq<nat>, ghost greens: seq<nat>, ghost choices: seq<(seq<real>, nat)>)
    requires sim.scenario.Usable() && sim.time == 0 && sim.commands == []
    requires agent.Valid() && agent.stateSize == 3 * |lanes| && agent.actionSize == |Actions|
    requires agent.epsilon == 0.0
    modifies sim
    ensures sim.time == MaxSteps && Measured(sim.scenario, lanes, MaxSteps, sim.commands, waits, flows)
    ensures totalWait == SumReals(waits) && throughput == SumNats(flows)
    ensures 34 <= |choices| <= 200
    ensures Decided(sim.scenario, lanes, MaxSteps, sim.commands, ends, greens, choices, agent.forward, agent.live)
  {
    totalWait := 0.0;
    throughput := 0;
    waits, flows, ends, greens, choices := [], [], [], [], [];
    var simStep := 0;
    while simStep < MaxSteps
      invariant simStep == sim.time && Paced(|choices|, simStep)
      invariant Measured(sim.scenario, lanes, simStep, sim.commands, waits, flows)
      invariant totalWait == SumReals(waits) && throughput == SumNats(flows)
      invariant Decided(sim.scenario, lanes, simStep, sim.commands, ends, greens, choices, agent.forward, agent.live)
      decreases MaxSteps - simStep
    {
      simStep, totalWait, throughput, waits, flows, ends, greens, choices :=
        RecordedDecision(sim, agent, lanes, simStep, totalWait, throughput, waits, flows, ends, greens, choices);
    }
    PacedBounds(|choices|);
  }

  /** The evaluation script on a freshly started simulation. It returns the printed average
      waiting time and throughput, the agent it built, and as ghosts the controlled lanes,
      the per-step measurements, and for every decision the step its hold ended at, its green
      and its (state, action). */
  method Evaluate(sim: Sumo, forward: QNet, optimize: Optimizer, init: Params,
                  optimizerInit: OptimizerState, saved: Params)
    returns (avgWait: real, throughput: nat, agent: DQNAgent, ghost lanes: seq<LaneId>,
             ghost waits: seq<real>, ghost flows: seq<nat>,
             ghost ends: seq<nat>, ghost greens: seq<nat>, ghost choices: seq<(seq<real>, nat)>)
    requires sim.scenario.Usable() && sim.time == 0 && sim.commands == []
    requires Shaped(forward, |Actions|)
    modifies sim
    ensures fresh(agent) && agent.live == saved && agent.epsilon == 0.0
    ensures agent.memory == [] && agent.stepCount == 0 && agent.target == init
    ensures forall l :: l in lanes <==> l in sim.scenario.controlled
    ensures sim.time == MaxSteps && Measured(sim.scenario, lanes, MaxSteps, sim.commands, waits, flows)
    ensures avgWait == SumReals(waits) / (MaxSteps as real) && throughput == SumNats(flows)
    ensures 34 <= |choices| <= 200
    ensures Decided(sim.scenario, lanes, MaxSteps, sim.commands, ends, greens, choices, forward, saved)
  {
    var ls := DistinctLanes(sim.scenario.controlled);
    lanes := ls;
    agent := new DQNAgent(|ls| * 3, |Actions|, forward, optimize, init, optimizerInit);
    agent.Load(saved);
    agent.epsilon := 0.0;
    var totalWait;
    totalWait, throughput, waits, flows, ends, greens, choices := EvaluateLoop(sim, agent, ls);
    avgWait := totalWait / (MaxSteps as real);
  }
}
