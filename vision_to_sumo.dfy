/** control/vision_to_sumo.py: the trained policy drives a simulation it connects to, greedily,
    for 2000 steps, scoring every decision with the delta reward and reporting the total and
    the average reward per decision. A network without traffic lights ends the run at once. */
module VisionToSumo {
  import opened Sim
  import opened Seqs
  import opened StateEncoding
  import opened Rewards
  import opened Agent
  import opened Schedule
  import opened Training

  datatype Outcome =
    | NoTrafficLight
    | Completed(decisions: nat, totalReward: real, averageReward: real)

  /** Each decision's hold ended after the previous one's, at most 60 steps later. */
  ghost predicate Spaced(ends: seq<nat>) {
    forall i :: 0 < i < |ends| ==> ends[i - 1] < ends[i] <= ends[i - 1] + 60
  }

  /** The reward a run has summed when its totals went from `first` to `prev` and it counted the
      vehicles of each of `obs`. */
  ghost function Telescoped(first: Totals, prev: Totals, obs: seq<seq<LaneReading>>): real {
    0.4 * ((first.q - prev.q) as real) + 0.4 * (first.w - prev.w) + 0.2 * (ThroughputSum(obs) as real)
  }

  lemma SpacedAppend(ends: seq<nat>, time: nat, next: nat)
    requires Spaced(ends) && (|ends| > 0 ==> ends[|ends| - 1] == time)
    requires time < next <= time + 60
    ensures Spaced(ends + [next])
  {
    var ends' := ends + [next];
    forall i | 0 < i < |ends'|
      ensures ends'[i - 1] < ends'[i] <= ends'[i - 1] + 60
    {
      if i < |ends| {
        assert ends'[i - 1] == ends[i - 1] && ends'[i] == ends[i];
      }
    }
  }

  /** Adding a delta reward to the telescoped sum moves it on to the new totals and readings. */
  lemma TelescopedStep(first: Totals, prev: Totals, obs: seq<seq<LaneReading>>,
                       rs: seq<LaneReading>, reward: real, prev': Totals)
    requires (reward, prev') == DeltaReward(rs, prev)
    ensures prev' == CurrentTotals(rs)
    ensures Telescoped(first, prev, obs) + reward == Telescoped(first, prev', obs + [rs])
  {
    ThroughputSumAppend(obs, rs);
  }

  /** What the control loop keeps between decisions, at step `time` with commands `cs`: every
      finished decision's readings are recorded at the step its hold ended, `prev` holds the
      latest totals, and the summed reward telescopes to the change since `first` plus the
      summed throughput. */
  ghost predicate Tracking(sc: Scenario, lanes: seq<LaneId>, time: nat, cs: seq<Command>,
                           prev: Totals, totalReward: real,
                           first: Totals, ends: seq<nat>, obs: seq<seq<LaneReading>>)
  {
    && Observed(sc, lanes, time, cs, ends, obs)
    && (|ends| > 0 ==> ends[|ends| - 1] == time)
    && Spaced(ends)
    && prev == CurrentTotals(LaneReadings(sc, lanes, time, cs))
    && (|obs| > 0 ==> obs[|obs| - 1] == LaneReadings(sc, lanes, time, cs))
    && totalReward == Telescoped(first, prev, obs)
  }

  /** The reward added up while tracking is the sum of the delta rewards of the recorded
      readings, each scored against the totals of the one before, and `prev` holds the totals
      of the last of them. */
  lemma TrackedRewardTelescopes(sc: Scenario, lanes: seq<LaneId>, time: nat, cs: seq<Command>,
                                prev: Totals, totalReward: real,
                                first: Totals, ends: seq<nat>, obs: seq<seq<LaneReading>>)
    requires Tracking(sc, lanes, time, cs, prev, totalReward, first, ends, obs) && obs != []
    ensures prev == CurrentTotals(obs[|obs| - 1])
    ensures totalReward == SumReals(RewardRun(first, obs))
  {
    RewardRunTelescopes(first, obs);
  }

  /** A decision that cycles the phase to `p` at `time`, holds until `next` and scores the
      readings `rs` there keeps the tracking. */
  lemma TrackingAfterDecision(sc: Scenario, lanes: seq<LaneId>, time: nat, cs: seq<Command>,
                              prev: Totals, totalReward: real,
                              first: Totals, ends: seq<nat>, obs: seq<seq<LaneReading>>,
                              p: nat, next: nat, rs: seq<LaneReading>, reward: real, prev': Totals)
    requires Tracking(sc, lanes, time, cs, prev, totalReward, first, ends, obs)
    requires time < next <= time + 60
    requires rs == LaneReadings(sc, lanes, next, cs + [PhaseSet(time, p)])
    requires (reward, prev') == DeltaReward(rs, prev)
    ensures Tracking(sc, lanes, next, cs + [PhaseSet(time, p)], prev', totalReward + reward,
                     first, ends + [next], obs + [rs])
  {
    var cs' := cs + [PhaseSet(time, p)];
    var ends', obs' := ends + [next], obs + [rs];
    ObservedAfterCommand(sc, lanes, time, cs, ends, obs, p);
    ObservedNow(sc, lanes, next, cs', ends, obs);
    SpacedAppend(ends, time, next);
    TelescopedStep(first, prev, obs, rs, reward, prev');
    assert obs'[|obs'| - 1] == rs;
  }

  /** The greedy decisions of a run: decision `i` acted on `inputs[i]`, which are the starting
      readings for the first decision and then the readings the previous decision was scored on,
      and took the action with the highest value under `saved`. */
  ghost predicate ActedOn(sc: Scenario, lanes: seq<LaneId>, obs: seq<seq<LaneReading>>,
                          inputs: seq<seq<LaneReading>>, actions: seq<nat>, forward: QNet, saved: Params)
  {
    && |inputs| == |actions| == |obs|
    && (|inputs| > 0 ==> inputs[0] == LaneReadings(sc, lanes, 0, []))
    && (forall i :: 0 < i < |inputs| ==> inputs[i] == obs[i - 1])
    && (forall i :: 0 <= i < |actions| ==>
          |forward(saved, Encoded(inputs[i]))| > 0 && actions[i] == ArgMax(forward(saved, Encoded(inputs[i]))))
  }

  lemma ActedOnStep(sc: Scenario, lanes: seq<LaneId>, obs: seq<seq<LaneReading>>,
                    inputs: seq<seq<LaneReading>>, actions: seq<nat>, forward: QNet, saved: Params,
                    input: seq<LaneReading>, action: nat, scored: seq<LaneReading>)
    requires ActedOn(sc, lanes, obs, inputs, actions, forward, saved)
    requires input == if obs == [] then LaneReadings(sc, lanes, 0, []) else obs[|obs| - 1]
    requires |forward(saved, Encoded(input))| > 0 && action == ArgMax(forward(saved, Encoded(input)))
    ensures ActedOn(sc, lanes, obs + [scored], inputs + [input], actions + [action], forward, saved)
  {
    var inputs', actions', obs' := inputs + [input], actions + [action], obs + [scored];
    forall i | 0 < i < |inputs'|
      ensures inputs'[i] == obs'[i - 1]
    {
      if i < |inputs| {
        assert inputs'[i] == inputs[i];
      }
    }
    forall i | 0 <= i < |actions'|
      ensures |forward(saved, Encoded(inputs'[i]))| > 0
      ensures actions'[i] == ArgMax(forward(saved, Encoded(inputs'[i])))
    {
      if i < |actions| {
        assert actions'[i] == actions[i] && inputs'[i] == inputs[i];
      }
    }
  }

  /** A greedy decision taken where the last hold ended, holding until `next` and scored
      there, keeps both the tracking and the record of greedy actions. */
  lemma DecisionStep(sc: Scenario, lanes: seq<LaneId>, time: nat, cs: seq<Command>,
                     prev: Totals, totalReward: real, first: Totals, ends: seq<nat>,
                     obs: seq<seq<LaneReading>>, inputs: seq<seq<LaneReading>>, actions: seq<nat>,
                     forward: QNet, saved: Params, p: nat, action: nat, next: nat, reward: real, prev': Totals)
    requires Tracking(sc, lanes, time, cs, prev, totalReward, first, ends, obs)
    requires obs == [] ==> time == 0 && cs == []
    requires ActedOn(sc, lanes, obs, inputs, actions, forward, saved)
    requires time < next <= time + 60
    requires |forward(saved, Encoded(LaneReadings(sc, lanes, time, cs)))| > 0
    requires action == ArgMax(forward(saved, Encoded(LaneReadings(sc, lanes, time, cs))))
    requires (reward, prev') == DeltaReward(LaneReadings(sc, lanes, next, cs + [PhaseSet(time, p)]), prev)
    ensures var rs := LaneReadings(sc, lanes, next, cs + [PhaseSet(time, p)]);
      && Tracking(sc, lanes, next, cs + [PhaseSet(time, p)], prev', totalReward + reward,
                  first, ends + [next], obs + [rs])
      && ActedOn(sc, lanes, obs + [rs], inputs + [LaneReadings(sc, lanes, time, cs)], actions + [action],
                 forward, saved)
  {
    var rs := LaneReadings(sc, lanes, next, cs + [PhaseSet(time, p)]);
    var input := LaneReadings(sc, lanes, time, cs);
    assert input == if obs == [] then LaneReadings(sc, lanes, 0, []) else obs[|obs| - 1];
    TrackingAfterDecision(sc, lanes, time, cs, prev, totalReward, first, ends, obs,
                          p, next, rs, reward, prev');
    ActedOnStep(sc, lanes, obs, inputs, actions, forward, saved, input, action, rs);
  }

  /** The phase commands and holds of a run at step `time`: each decision set the phase after the
      one shown where it was taken and held, cut at the budget, the green of the action it chose. */
  ghost predicate Cycling(sc: Scenario, time: nat, cs: seq<Command>, ends: seq<nat>, greens: seq<nat>,
                          actions: seq<nat>)
  {
    && Cycled(sc, time, cs, ends, greens)
    && |actions| == |greens|
    && forall i {:trigger actions[i]} :: 0 <= i < |actions| ==>
         actions[i] < |Actions| && greens[i] == GreenTime(actions[i])
  }

  /** A decision that sets the phase after the one shown now and holds its action's green keeps
      the record of commands and holds. */
  lemma CyclingStep(sc: Scenario, time: nat, cs: seq<Command>, ends: seq<nat>, greens: seq<nat>,
                    actions: seq<nat>, action: nat, next: nat)
    requires Cycling(sc, time, cs, ends, greens, actions) && time < MaxSteps && action < |Actions|
    requires next == time + Held(GreenTime(action), time, MaxSteps)
    ensures Cycling(sc, next, cs + [PhaseSet(time, NextPhase(sc.phase(time, cs), sc.phaseCount))],
                    ends + [next], greens + [GreenTime(action)], actions + [action])
  {
    CycledStep(sc, time, cs, ends, greens, GreenTime(action));
    var greens', actions' := greens + [GreenTime(action)], actions + [action];
    forall i | 0 <= i < |actions'|
      ensures actions'[i] < |Actions| && greens'[i] == GreenTime(actions'[i])
    {
      if i < |actions| {
        assert greens'[i] == greens[i] && actions'[i] == actions[i];
      }
    }
  }

  /** What the control loop keeps between decisions, at step `time` with commands `cs`: the run
      is paced, `prev` and the reward total track the scored readings, every action was greedy on
      the readings where it was taken, and the commands and holds cycle the phase with the
      chosen greens. */
  ghost predicate Steered(sc: Scenario, lanes: seq<LaneId>, time: nat, cs: seq<Command>,
                          prev: Totals, totalReward: real, first: Totals, ends: seq<nat>,
                          obs: seq<seq<LaneReading>>, inputs: seq<seq<LaneReading>>, actions: seq<nat>,
                          greens: seq<nat>, forward: QNet, saved: Params)
  {
    && Paced(|obs|, time)
    && Tracking(sc, lanes, time, cs, prev, totalReward, first, ends, obs)
    && (obs == [] ==> time == 0 && cs == [])
    && ActedOn(sc, lanes, obs, inputs, actions, forward, saved)
    && Cycling(sc, time, cs, ends, greens, actions)
  }

  /** A greedy decision on the readings now that issues `c`, cycling the phase shown now, holds
      its action's green and is scored where the hold ends keeps the loop's state. */
  lemma SteeredStep(sc: Scenario, lanes: seq<LaneId>, time: nat, cs: seq<Command>,
                    prev: Totals, totalReward: real, first: Totals, ends: seq<nat>,
                    obs: seq<seq<LaneReading>>, inputs: seq<seq<LaneReading>>, actions: seq<nat>,
                    greens: seq<nat>, forward: QNet, saved: Params,
                    action: nat, c: Command, next: nat, reward: real, prev': Totals)
    requires Steered(sc, lanes, time, cs, prev, totalReward, first, ends, obs, inputs, actions, greens,
                     forward, saved)
    requires time < MaxSteps && action < |Actions|
    requires |forward(saved, Encoded(LaneReadings(sc, lanes, time, cs)))| > 0
    requires action == ArgMax(forward(saved, Encoded(LaneReadings(sc, lanes, time, cs))))
    requires c == PhaseSet(time, NextPhase(sc.phase(time, cs), sc.phaseCount))
    requires next == time + Held(GreenTime(action), time, MaxSteps)
    requires (reward, prev') == DeltaReward(LaneReadings(sc, lanes, next, cs + [c]), prev)
    ensures time < next
    ensures Steered(sc, lanes, next, cs + [c], prev', totalReward + reward, first, ends + [next],
                    obs + [LaneReadings(sc, lanes, next, cs + [c])], inputs + [LaneReadings(sc, lanes, time, cs)],
                    actions + [action], greens + [GreenTime(action)], forward, saved)
  {
    PacedStep(|obs|, time, GreenTime(action));
    DecisionStep(sc, lanes, time, cs, prev, totalReward, first, ends, obs, inputs, actions, forward, saved,
                 c.phase, action, next, reward, prev');
    CyclingStep(sc, time, cs, ends, greens, actions, action, next);
  }

  /** One pass of the control loop: decide greedily, hold, score and add the reward up. */
  method ScoredDecision(sim: Sumo, agent: DQNAgent, lanes: seq<LaneId>, saved: Params,
                        prev: Totals, totalReward: real, ghost first: Totals,
                        ghost ends: seq<nat>, ghost obs: seq<seq<LaneReading>>,
                        ghost inputs: seq<seq<LaneReading>>, ghost actions: seq<nat>, ghost greens: seq<nat>)
    returns (action: nat, newPrev: Totals, newTotal: real,
             ghost newEnds: seq<nat>, ghost newObs: seq<seq<LaneReading>>,
             ghost newInputs: seq<seq<LaneReading>>, ghost newActions: seq<nat>, ghost newGreens: seq<nat>)
    requires sim.scenario.Usable() && sim.time < MaxSteps
    requires agent.Valid() && agent.stateSize == 3 * |lanes| && agent.actionSize == |Actions|
    requires agent.epsilon == 0.0 && agent.live == saved
    requires Steered(sim.scenario, lanes, sim.time, sim.commands, prev, totalReward, first, ends, obs, inputs,
                     actions, greens, agent.forward, saved)
    modifies sim
    ensures action < |Actions| && sim.time == old(sim.time) + Held(GreenTime(action), old(sim.time), MaxSteps)
    ensures old(sim.time) < sim.time
    ensures sim.commands
      == old(sim.commands) + [PhaseSet(old(sim.time), NextPhase(old(sim.Phase()), sim.scenario.phaseCount))]
    ensures Steered(sim.scenario, lanes, sim.time, sim.commands, newPrev, newTotal, first, newEnds, newObs,
                    newInputs, newActions, newGreens, agent.forward, saved)
    ensures |newObs| == |obs| + 1
  {
    ghost var time, cs := sim.time, sim.commands;
    ghost var c := PhaseSet(time, NextPhase(sim.Phase(), sim.scenario.phaseCount));
    var state, reward, nextState, newStep;
    state, action, reward, nextState, newStep, newPrev := Decide(sim, agent, lanes, sim.time, prev);
    SteeredStep(sim.scenario, lanes, time, cs, prev, totalReward, first, ends, obs, inputs, actions, greens,
                agent.forward, saved, action, c, newStep, reward, newPrev);
    newEnds, newObs := ends + [newStep], obs + [LaneReadings(sim.scenario, lanes, newStep, cs + [c])];
    newTotal := totalReward + reward;
    newInputs, newActions := inputs + [LaneReadings(sim.scenario, lanes, time, cs)], actions + [action];
    newGreens := greens + [GreenTime(action)];
  }

  /** The `while sim_step < 2000` loop with a greedy agent holding `saved`. */
  method ControlLoop(sim: Sumo, agent: DQNAgent, lanes: seq<LaneId>, saved: Params)
    returns (decisionCount: nat, totalReward: real, prev: Totals, ghost first: Totals,
             ghost ends: seq<nat>, ghost obs: seq<seq<LaneReading>>,
             ghost inputs: seq<seq<LaneReading>>, ghost actions: seq<nat>, ghost greens: seq<nat>)
    requires sim.scenario.Usable() && sim.time == 0 && sim.commands == []
    requires agent.Valid() && agent.stateSize == 3 * |lanes| && agent.actionSize == |Actions|
    requires agent.epsilon == 0.0 && agent.live == saved
    modifies sim
    ensures first == CurrentTotals(LaneReadings(sim.scenario, lanes, 0, []))
    ensures sim.time == MaxSteps && decisionCount == |obs| && 34 <= |obs| <= 200
    ensures Tracking(sim.scenario, lanes, MaxSteps, sim.commands, prev, totalReward, first, ends, obs)
    ensures ActedOn(sim.scenario, lanes, obs, inputs, actions, agent.forward, saved)
    ensures Cycling(sim.scenario, MaxSteps, sim.commands, ends, greens, actions)
  {
    prev := CurrentTotals(sim.Readings(lanes));
    first := prev;
    ends, obs, inputs, actions, greens := [], [], [], [], [];
    var simStep := 0;
    decisionCount := 0;
    totalReward := 0.0;
    while simStep < MaxSteps
      invariant simStep == sim.time && decisionCount == |obs|
      invariant Steered(sim.scenario, lanes, simStep, sim.commands, prev, totalReward, first, ends, obs, inputs,
                        actions, greens, agent.forward, saved)
      decreases MaxSteps - simStep
    {
      var action;
      action, prev, totalReward, ends, obs, inputs, actions, greens :=
        ScoredDecision(sim, agent, lanes, saved, prev, totalReward, first, ends, obs, inputs, actions, greens);
      simStep := sim.time;
      decisionCount := decisionCount + 1;
    }
    PacedBounds(decisionCount);
  }

  /** `main()` once SUMO is reachable. As ghosts it returns the controlled lanes, the starting
      totals `prev_metrics` is seeded with, and for every decision the step its hold ended at,
      the readings its reward was computed from and the action the greedy policy took. */
  method Control(sim: Sumo, forward: QNet, optimize: Optimizer, init: Params,
                 optimizerInit: OptimizerState, saved: Params)
    returns (outcome: Outcome, ghost lanes: seq<LaneId>, ghost first: Totals, ghost last: Totals,
             ghost ends: seq<nat>, ghost obs: seq<seq<LaneReading>>,
             ghost inputs: seq<seq<LaneReading>>, ghost actions: seq<nat>, ghost greens: seq<nat>)
    requires sim.time == 0 && sim.commands == []
    requires sim.scenario.lightCount > 0 ==> sim.scenario.phaseCount > 0
    requires Shaped(forward, |Actions|)
    modifies sim
    ensures outcome.NoTrafficLight? <==> sim.scenario.lightCount == 0
    ensures outcome.NoTrafficLight? ==> sim.time == 0 && sim.commands == []
    ensures outcome.Completed? ==>
      && (forall l :: l in lanes <==> l in sim.scenario.controlled)
      && first == CurrentTotals(LaneReadings(sim.scenario, lanes, 0, []))
      && sim.time == MaxSteps
      && outcome.decisions == |obs| && 34 <= |obs| <= 200
      && Tracking(sim.scenario, lanes, MaxSteps, sim.commands, last, outcome.totalReward, first, ends, obs)
      && ActedOn(sim.scenario, lanes, obs, inputs, actions, forward, saved)
      && Cycling(sim.scenario, MaxSteps, sim.commands, ends, greens, actions)
      && outcome.totalReward == SumReals(RewardRun(first, obs))
      && outcome.averageReward == outcome.totalReward / (outcome.decisions as real)
  {
    if sim.scenario.lightCount == 0 {
      outcome, lanes, first, last, ends, obs, inputs, actions, greens :=
        NoTrafficLight, [], Totals(0, 0.0), Totals(0, 0.0), [], [], [], [], [];
      return;
    }
    var ls := DistinctLanes(sim.scenario.controlled);
    lanes := ls;
    var agent := new DQNAgent(|ls| * 3, |Actions|, forward, optimize, init, optimizerInit);
    agent.Load(saved);
    agent.epsilon := 0.0;

    var decisionCount, totalReward;
    decisionCount, totalReward, last, first, ends, obs, inputs, actions, greens := ControlLoop(sim, agent, ls, saved);
    TrackedRewardTelescopes(sim.scenario, ls, MaxSteps, sim.commands, last, totalReward, first, ends, obs);
    outcome := Completed(decisionCount, totalReward, totalReward / (decisionCount as real));
  }
}
