/** train_rl.py: 50 episodes of 2000 simulation steps; each decision picks a hold, cycles the
    phase, holds, scores the delta reward against the threaded `prev_metrics`, remembers the
    transition and replays once. */
module Training {
  import opened Sim
  import opened Seqs
  import opened StateEncoding
  import opened Rewards
  import opened Agent
  import opened Schedule

  const Episodes: nat := 50

  /** The agent's bookkeeping after `d` training decisions of a freshly built agent:
      each decision remembered once and replayed once. */
  ghost predicate TrainedFor(agent: DQNAgent, d: nat)
    reads agent
  {
    && |agent.memory| == Min(d, Capacity)
    && agent.stepCount == Max(0, d - (BatchSize - 1))
    && agent.epsilon == EpsilonAfter(agent.stepCount)
  }

  /** No learning step happens before 64 transitions have been remembered. */
  lemma NoLearningBeforeFullBatch(agent: DQNAgent, d: nat)
    requires TrainedFor(agent, d) && d < BatchSize
    ensures agent.stepCount == 0 && agent.epsilon == EpsilonStart
  {
  }

  /** `agent.remember(...)` then `agent.replay()`: one more training decision. */
  method RememberAndReplay(agent: DQNAgent, state: seq<real>, action: nat, reward: real,
                           nextState: seq<real>, ghost d: nat)
    requires agent.Valid() && TrainedFor(agent, d)
    requires |state| == agent.stateSize && |nextState| == agent.stateSize && action < agent.actionSize
    modifies agent
    ensures agent.Valid() && TrainedFor(agent, d + 1)
    ensures agent.memory == Appended(old(agent.memory), Transition(state, action, reward, nextState))
  {
    agent.Remember(state, action, reward, nextState);
    assert |agent.memory| == Min(d + 1, Capacity);
    var learned, positions, targets := agent.Replay();
    assert learned <==> d + 1 >= BatchSize;
  }

  /** The environment half of one decision (also the decision of control/vision_to_sumo.py): observe, act, cycle the phase, hold, score
      against `prev` and observe again. */
  method Decide(sim: Sumo, agent: DQNAgent, lanes: seq<LaneId>, simStep: nat, prev: Totals)
    returns (state: seq<real>, action: nat, reward: real, nextState: seq<real>,
             newStep: nat, newPrev: Totals)
    requires sim.scenario.Usable() && simStep == sim.time && simStep < MaxSteps
    requires agent.Valid() && agent.stateSize == 3 * |lanes| && agent.actionSize == |Actions|
    modifies sim
    ensures action < |Actions| && |state| == |nextState| == agent.stateSize
    ensures state == Encoded(old(sim.Readings(lanes))) && nextState == Encoded(sim.Readings(lanes))
    ensures agent.epsilon <= 0.0 ==> action == ArgMax(agent.forward(agent.live, state))
    ensures newStep == sim.time == simStep + Held(GreenTime(action), simStep, MaxSteps)
    ensures sim.commands == old(sim.commands)
      + [PhaseSet(simStep, NextPhase(old(sim.Phase()), sim.scenario.phaseCount))]
    ensures (reward, newPrev) == DeltaReward(sim.Readings(lanes), prev)
  {
    state := EncodeLanes(sim, lanes);
    var draw: real :| 0.0 <= draw < 1.0;
    var pick: nat :| pick < |Actions|;
    action := agent.Act(state, draw, pick);
    var green := GreenTime(action);

    var current := sim.Phase();
    sim.SetPhase(NextPhase(current, sim.scenario.phaseCount));
    newStep := HoldPhase(sim, green, simStep, MaxSteps);

    var scored := DeltaReward(sim.Readings(lanes), prev);
    reward, newPrev := scored.0, scored.1;
    nextState := EncodeLanes(sim, lanes);
  }

  /** The transition remembered for a decision that acted with `action` on the readings `from`
      and was scored on the readings `to` where its hold ended: the two encoded states, and the
      delta reward of `to` against the totals of `from`. */
  function Scored(from: seq<LaneReading>, action: nat, to: seq<LaneReading>): Transition {
    Transition(Encoded(from), action, DeltaReward(to, CurrentTotals(from)).0, Encoded(to))
  }

  /** `t` is the transition of the decision taken at `before` whose hold, of `green` steps,
      ended at `end`. */
  ghost predicate TransitionAt(sc: Scenario, lanes: seq<LaneId>, cs: seq<Command>, before: nat, end: nat,
                               green: nat, t: Transition)
  {
    && t.action < |Actions| && green == GreenTime(t.action)
    && t == Scored(LaneReadings(sc, lanes, before, IssuedBefore(cs, before)), t.action,
                   LaneReadings(sc, lanes, end, IssuedBefore(cs, end)))
  }

  /** Transition i is the one of decision i, which was taken where decision i - 1's hold ended. */
  ghost predicate Remembered(sc: Scenario, lanes: seq<LaneId>, cs: seq<Command>, ends: seq<nat>,
                             greens: seq<nat>, trans: seq<Transition>)
    requires |greens| == |ends|
  {
    && |trans| == |ends|
    && forall i {:trigger trans[i]} :: 0 <= i < |trans| ==>
         TransitionAt(sc, lanes, cs, StepBefore(ends, i), ends[i], greens[i], trans[i])
  }

  /** What an episode that has reached step `time` with commands `cs` remembered: each
      decision cycled the phase and held the green of its action, and transition i is decision
      i's. */
  ghost predicate Learned(sc: Scenario, lanes: seq<LaneId>, time: nat, cs: seq<Command>, ends: seq<nat>,
                          greens: seq<nat>, trans: seq<Transition>)
  {
    && Cycled(sc, time, cs, ends, greens)
    && Remembered(sc, lanes, cs, ends, greens, trans)
  }

  /** A command issued after a decision's hold ended leaves its transition as it was. */
  lemma TransitionKept(sc: Scenario, lanes: seq<LaneId>, cs: seq<Command>, before: nat, end: nat,
                       green: nat, t: Transition, d: Command)
    requires TransitionAt(sc, lanes, cs, before, end, green, t) && before <= d.at && end <= d.at
    ensures TransitionAt(sc, lanes, cs + [d], before, end, green, t)
  {
    IssuedBeforeIgnoresLater(cs, d, before);
    IssuedBeforeIgnoresLater(cs, d, end);
  }

  /** The transitions remembered so far survive a command issued now and one more transition. */
  lemma RememberedStep(sc: Scenario, lanes: seq<LaneId>, time: nat, cs: seq<Command>, ends: seq<nat>,
                       greens: seq<nat>, trans: seq<Transition>, c: Command, next: nat, green: nat, t: Transition)
    requires Cycled(sc, time, cs, ends, greens) && Remembered(sc, lanes, cs, ends, greens, trans)
    requires time <= c.at && TransitionAt(sc, lanes, cs + [c], time, next, green, t)
    ensures Remembered(sc, lanes, cs + [c], ends + [next], greens + [green], trans + [t])
  {
    var ends', greens', trans' := ends + [next], greens + [green], trans + [t];
    forall i | 0 <= i < |trans'|
      ensures TransitionAt(sc, lanes, cs + [c], StepBefore(ends', i), ends'[i], greens'[i], trans'[i])
    {
      if i < |trans| {
        StepBeforeAtMost(sc, time, cs, ends, greens, i);
        assert CycledAt(sc, time, cs, StepBefore(ends, i), ends[i], greens[i], cs[i]);
        assert TransitionAt(sc, lanes, cs, StepBefore(ends, i), ends[i], greens[i], trans[i]);
        TransitionKept(sc, lanes, cs, StepBefore(ends, i), ends[i], greens[i], trans[i], c);
        assert StepBefore(ends', i) == StepBefore(ends, i);
      } else {
        StepBeforeAtMost(sc, time, cs, ends, greens, i);
      }
    }
  }

  /** The decision taken now, cycling the phase shown now and scored where its hold ends,
      has the transition of the readings now and there. */
  lemma TransitionNow(sc: Scenario, lanes: seq<LaneId>, time: nat, cs: seq<Command>, ends: seq<nat>,
                      greens: seq<nat>, action: nat)
    requires Cycled(sc, time, cs, ends, greens) && time < MaxSteps && action < |Actions|
    ensures var next := time + Held(GreenTime(action), time, MaxSteps);
      var cs' := cs + [PhaseSet(time, NextPhase(sc.phase(time, cs), sc.phaseCount))];
      TransitionAt(sc, lanes, cs', time, next, GreenTime(action),
                   Scored(LaneReadings(sc, lanes, time, cs), action, LaneReadings(sc, lanes, next, cs')))
  {
    var green := GreenTime(action);
    var next := time + Held(green, time, MaxSteps);
    var c := PhaseSet(time, NextPhase(sc.phase(time, cs), sc.phaseCount));
    CycledStep(sc, time, cs, ends, greens, green);
    CycledInEffect(sc, time, cs, ends, greens);
    CycledInEffect(sc, next, cs + [c], ends + [next], greens + [green]);
    IssuedBeforeIgnoresLater(cs, c, time);
  }

  /** A decision on the readings now that issues `c`, cycling the phase shown now, and is
      scored where its hold ends at `next` extends what the episode remembered by its
      transition. */
  lemma LearnedStep(sc: Scenario, lanes: seq<LaneId>, time: nat, cs: seq<Command>, ends: seq<nat>,
                    greens: seq<nat>, trans: seq<Transition>, action: nat, c: Command, next: nat)
    requires Learned(sc, lanes, time, cs, ends, greens, trans) && time < MaxSteps && action < |Actions|
    requires c == PhaseSet(time, NextPhase(sc.phase(time, cs), sc.phaseCount))
    requires next == time + Held(GreenTime(action), time, MaxSteps)
    ensures Learned(sc, lanes, next, cs + [c], ends + [next], greens + [GreenTime(action)],
                    trans + [Scored(LaneReadings(sc, lanes, time, cs), action, LaneReadings(sc, lanes, next, cs + [c]))])
  {
    var green := GreenTime(action);
    var t := Scored(LaneReadings(sc, lanes, time, cs), action, LaneReadings(sc, lanes, next, cs + [c]));
    CycledStep(sc, time, cs, ends, greens, green);
    TransitionNow(sc, lanes, time, cs, ends, greens, action);
    RememberedStep(sc, lanes, time, cs, ends, greens, trans, c, next, green, t);
  }

  /** `prev_metrics` starts from the totals the reloaded simulation shows at step 0: the first
      transition of an episode is scored against them. */
  lemma FirstScoredAgainstStart(sc: Scenario, lanes: seq<LaneId>, time: nat, cs: seq<Command>,
                                ends: seq<nat>, greens: seq<nat>, trans: seq<Transition>)
    requires Learned(sc, lanes, time, cs, ends, greens, trans) && trans != []
    ensures trans[0].reward
      == DeltaReward(LaneReadings(sc, lanes, ends[0], IssuedBefore(cs, ends[0])),
                     CurrentTotals(LaneReadings(sc, lanes, 0, []))).0
  {
    assert TransitionAt(sc, lanes, cs, StepBefore(ends, 0), ends[0], greens[0], trans[0]);
    IssuedBeforeStart(cs);
  }

  /** One pass of the episode loop: decide, score, remember and replay. */
  method LearningDecision(sim: Sumo, agent: DQNAgent, lanes: seq<LaneId>, simStep: nat, prev: Totals,
                          ghost done: nat, ghost memory: seq<Transition>,
                          ghost ends: seq<nat>, ghost greens: seq<nat>, ghost trans: seq<Transition>)
    returns (newStep: nat, newPrev: Totals, ghost newEnds: seq<nat>, ghost newGreens: seq<nat>,
             ghost newTrans: seq<Transition>)
    requires sim.scenario.Usable() && simStep == sim.time < MaxSteps && Paced(|trans|, simStep)
    requires agent.Valid() && agent.stateSize == 3 * |lanes| && agent.actionSize == |Actions|
    requires TrainedFor(agent, done + |trans|)
    requires |memory| <= Capacity && agent.memory == RememberAll(memory, trans)
    requires prev == CurrentTotals(sim.Readings(lanes))
    requires Learned(sim.scenario, lanes, simStep, sim.commands, ends, greens, trans)
    modifies sim, agent
    ensures simStep < newStep == sim.time && Paced(|newTrans|, newStep) && |newTrans| == |trans| + 1
    ensures agent.Valid() && TrainedFor(agent, done + |newTrans|)
    ensures agent.memory == RememberAll(memory, newTrans)
    ensures newPrev == CurrentTotals(sim.Readings(lanes))
    ensures Learned(sim.scenario, lanes, newStep, sim.commands, newEnds, newGreens, newTrans)
  {
    ghost var cs := sim.commands;
    var state, action, reward, nextState;
    state, action, reward, nextState, newStep, newPrev := Decide(sim, agent, lanes, simStep, prev);
    PacedStep(|trans|, simStep, GreenTime(action));
    LearnedStep(sim.scenario, lanes, simStep, cs, ends, greens, trans, action,
                PhaseSet(simStep, NextPhase(sim.scenario.phase(simStep, cs), sim.scenario.phaseCount)), newStep);
    RememberAndReplay(agent, state, action, reward, nextState, done + |trans|);
    ghost var t := Transition(state, action, reward, nextState);
    newEnds, newGreens, newTrans := ends + [newStep], greens + [GreenTime(action)], trans + [t];
    assert newTrans[..|newTrans| - 1] == trans;
  }

  /** One episode: reload, reset `prev_metrics` from the actual starting totals, then decide
      until the 2000-step budget is used up. As ghosts it returns, for every decision, the step
      its hold ended at, its green and the transition it remembered. */
  method RunEpisode(sim: Sumo, agent: DQNAgent, lanes: seq<LaneId>, ghost done: nat)
    returns (ghost ends: seq<nat>, ghost greens: seq<nat>, ghost trans: seq<Transition>)
    requires sim.scenario.Usable()
    requires agent.Valid() && agent.stateSize == 3 * |lanes| && agent.actionSize == |Actions|
    requires TrainedFor(agent, done)
    modifies sim, agent
    ensures agent.Valid() && TrainedFor(agent, done + |trans|)
    ensures agent.memory == RememberAll(old(agent.memory), trans)
    ensures sim.time == MaxSteps
    ensures 34 <= |trans| <= 200
    ensures Learned(sim.scenario, lanes, MaxSteps, sim.commands, ends, greens, trans)
  {
    sim.Load();
    var prev := CurrentTotals(sim.Readings(lanes));
    var simStep := 0;
    ghost var memory := agent.memory;
    ends, greens, trans := [], [], [];
    while simStep < MaxSteps
      invariant agent.Valid() && TrainedFor(agent, done + |trans|)
      invariant agent.memory == RememberAll(memory, trans)
      invariant simStep == sim.time && Paced(|trans|, simStep)
      invariant prev == CurrentTotals(sim.Readings(lanes))
      invariant Learned(sim.scenario, lanes, simStep, sim.commands, ends, greens, trans)
      decreases MaxSteps - simStep
    {
      simStep, prev, ends, greens, trans :=
        LearningDecision(sim, agent, lanes, simStep, prev, done, memory, ends, greens, trans);
    }
    PacedBounds(|trans|);
  }

  /** One recorded episode: its phase commands, and for every decision the step its hold
      ended at, its green and the transition it remembered. */
  datatype Episode = Episode(commands: seq<Command>, ends: seq<nat>, greens: seq<nat>, transitions: seq<Transition>)

  /** The transitions of the episodes, in the order they were remembered. */
  function AllTransitions(runs: seq<Episode>): seq<Transition> {
    if runs == [] then [] else AllTransitions(runs[..|runs| - 1]) + runs[|runs| - 1].transitions
  }

  /** Every episode of a run of `scenario` on `lanes` went through the 2000-step budget in 34 to
      200 decisions, each recorded as what it remembered. */
  ghost predicate EpisodesLearned(scenario: Scenario, lanes: seq<LaneId>, runs: seq<Episode>) {
    forall e :: 0 <= e < |runs| ==>
      && 34 <= |runs[e].transitions| <= 200
      && Learned(scenario, lanes, MaxSteps, runs[e].commands, runs[e].ends, runs[e].greens, runs[e].transitions)
  }

  /** One more recorded episode extends the record and the transitions remembered. */
  lemma EpisodeRecorded(scenario: Scenario, lanes: seq<LaneId>, runs: seq<Episode>, run: Episode)
    requires EpisodesLearned(scenario, lanes, runs)
    requires 34 <= |run.transitions| <= 200
    requires Learned(scenario, lanes, MaxSteps, run.commands, run.ends, run.greens, run.transitions)
    ensures EpisodesLearned(scenario, lanes, runs + [run])
    ensures AllTransitions(runs + [run]) == AllTransitions(runs) + run.transitions
  {
    assert (runs + [run])[..|runs|] == runs;
  }

  /** One episode of the training loop, recorded: it keeps the agent's bookkeeping, leaves
      the newest transitions in memory, and never raises epsilon. */
  method RecordedEpisode(sim: Sumo, agent: DQNAgent, lanes: seq<LaneId>, ghost history: seq<Transition>)
    returns (ghost run: Episode)
    requires sim.scenario.Usable()
    requires agent.Valid() && agent.stateSize == 3 * |lanes| && agent.actionSize == |Actions|
    requires TrainedFor(agent, |history|) && agent.memory == Newest(history)
    modifies sim, agent
    ensures agent.Valid() && TrainedFor(agent, |history + run.transitions|)
    ensures agent.memory == Newest(history + run.transitions)
    ensures 34 <= |run.transitions| <= 200
    ensures Learned(sim.scenario, lanes, MaxSteps, run.commands, run.ends, run.greens, run.transitions)
    ensures EpsilonMin * EpsilonDecay <= agent.epsilon <= old(agent.epsilon)
  {
    ghost var stepsBefore := agent.stepCount;
    ghost var ends, greens, trans := RunEpisode(sim, agent, lanes, |history|);
    run := Episode(sim.commands, ends, greens, trans);
    NewestAfterRemembering(history, trans);
    EpsilonNonIncreasing(stepsBefore, agent.stepCount);
    EpsilonBounds(agent.stepCount);
  }

  /** The training script. It returns the agent whose live parameters `save` writes and the
      epsilon printed after each episode; as ghosts, the controlled lanes and the record of
      every episode. */
  method Train(scenario: Scenario, forward: QNet, optimize: Optimizer,
               init: Params, optimizerInit: OptimizerState)
    returns (agent: DQNAgent, epsilons: seq<real>, ghost lanes: seq<LaneId>, ghost runs: seq<Episode>)
    requires scenario.Usable() && Shaped(forward, |Actions|)
    ensures fresh(agent) && agent.Valid() && TrainedFor(agent, |AllTransitions(runs)|)
    ensures forall l :: l in lanes <==> l in scenario.controlled
    ensures |runs| == Episodes && |epsilons| == Episodes
    ensures EpisodesLearned(scenario, lanes, runs)
    ensures agent.memory == Newest(AllTransitions(runs))
    ensures forall e :: 0 <= e < Episodes ==> EpsilonMin * EpsilonDecay <= epsilons[e] <= EpsilonStart
    ensures forall e, f :: 0 <= e < f < Episodes ==> epsilons[f] <= epsilons[e]
  {
    var sim := new Sumo.Start(scenario);
    var ls := DistinctLanes(scenario.controlled);
    lanes := ls;
    agent := new DQNAgent(|ls| * 3, |Actions|, forward, optimize, init, optimizerInit);
    epsilons := [];
    runs := [];
    ghost var history: seq<Transition> := [];
    var ep := 0;
    while ep < Episodes
      invariant 0 <= ep <= Episodes
      invariant fresh(sim) && fresh(agent) && sim.scenario == scenario
      invariant agent.Valid() && agent.stateSize == 3 * |ls| && agent.actionSize == |Actions|
      invariant history == AllTransitions(runs)
      invariant TrainedFor(agent, |history|) && agent.memory == Newest(history)
      invariant |runs| == ep && |epsilons| == ep
      invariant EpisodesLearned(scenario, ls, runs)
      invariant agent.epsilon <= EpsilonStart
      invariant forall e :: 0 <= e < ep ==> EpsilonMin * EpsilonDecay <= epsilons[e] <= EpsilonStart
      invariant forall e :: 0 <= e < ep ==> agent.epsilon <= epsilons[e]
      invariant forall e, f :: 0 <= e < f < ep ==> epsilons[f] <= epsilons[e]
    {
      ghost var run := RecordedEpisode(sim, agent, ls, history);
      EpisodeRecorded(scenario, ls, runs, run);
      runs := runs + [run];
      history := history + run.transitions;
      epsilons := epsilons + [agent.epsilon];
      ep := ep + 1;
    }
  }
}
