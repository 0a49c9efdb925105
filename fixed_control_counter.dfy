/** control/fixed_control.py: the fixed-time baseline. A counter set to 30 at every phase switch
    and decremented after every simulated step switches the phase whenever it reaches zero; every
    step is measured on up to three SUMO lanes and logged, with the video count of the frame read
    in that iteration. */
module FixedControl {
  import opened Sim
  import opened Seqs
  import opened StateEncoding
  import opened Rewards
  import opened Schedule
  import opened ControlLog
  import opened HybridControl

  /** `FIXED_GREEN_DURATION`. */
  const FixedGreenDuration: nat := 30

  datatype FixedOutcome =
    | NoControlledLanes
    | Completed(decisions: nat, totalReward: real, averageReward: real)

  /** The phase switches issued before step `time`: switch j at step 30 j, each to the phase
      after the one the light showed then. */
  ghost predicate Switched(sc: Scenario, cs: seq<Command>, time: nat)
  {
    && sc.phaseCount > 0
    && 30 * |cs| - 30 < time <= 30 * |cs|
    && forall j :: 0 <= j < |cs| ==>
         && cs[j].at == 30 * j
         && cs[j].phase == NextPhase(sc.phase(30 * j, IssuedBefore(cs, 30 * j)), sc.phaseCount)
  }

  /** Log entry i, written after step i + 1: the step, the constant green, the phase shown, the
      SUMO lanes' halting total and cost then, and the video count of iteration i. */
  ghost predicate FixedEntry(sc: Scenario, lanes: seq<LaneId>, cs: seq<Command>, video: nat -> map<string, nat>,
                             i: nat, step: nat, green: nat, phase: nat, queue: nat, reward: real, videoCount: nat)
  {
    var rs := LaneReadings(sc, lanes, i + 1, IssuedBefore(cs, i + 1));
    && step == i + 1 && green == FixedGreenDuration
    && phase == sc.phase(i + 1, IssuedBefore(cs, i + 1))
    && queue == TotalHalting(rs)
    && reward == ControlReward(queue, TotalWaiting(rs))
    && videoCount == VideoCount(video(i))
  }

  ghost predicate FixedLogged(sc: Scenario, lanes: seq<LaneId>, cs: seq<Command>, video: nat -> map<string, nat>,
                              steps: seq<nat>, greens: seq<nat>, phases: seq<nat>, queues: seq<nat>,
                              rewards: seq<real>, videoCounts: seq<nat>)
  {
    && |greens| == |steps| && |phases| == |steps| && |queues| == |steps|
    && |rewards| == |steps| && |videoCounts| == |steps|
    && forall i {:trigger greens[i]} :: 0 <= i < |steps| ==>
         FixedEntry(sc, lanes, cs, video, i, steps[i], greens[i], phases[i], queues[i], rewards[i], videoCounts[i])
  }

  /** Every logged green is 30 and every logged reward is at most -0.7 times the logged queue. */
  lemma FixedLoggedBounds(sc: Scenario, lanes: seq<LaneId>, cs: seq<Command>, video: nat -> map<string, nat>,
                          steps: seq<nat>, greens: seq<nat>, phases: seq<nat>, queues: seq<nat>,
                          rewards: seq<real>, videoCounts: seq<nat>, i: nat)
    requires FixedLogged(sc, lanes, cs, video, steps, greens, phases, queues, rewards, videoCounts)
    requires i < |steps|
    ensures steps[i] == i + 1 && greens[i] == FixedGreenDuration
    ensures rewards[i] <= -0.7 * (queues[i] as real) && rewards[i] <= 0.0
  {
    assert FixedEntry(sc, lanes, cs, video, i, steps[i], greens[i], phases[i], queues[i], rewards[i], videoCounts[i]);
  }

  /** The counter is `(30 - step % 30) % 30` and the number of switches is `ceil(step / 30)`. */
  lemma CounterArithmetic(simStep: nat, decisions: nat)
    requires 30 * decisions - 30 < simStep <= 30 * decisions
    ensures 30 * decisions - simStep == (30 - simStep % 30) % 30
    ensures decisions == (simStep + 29) / 30
    ensures 30 * decisions - simStep < 30
  {
  }

  /** A switch issued now, at step `time`, leaves every logged entry as it was. */
  lemma FixedLoggedAfterCommand(sc: Scenario, lanes: seq<LaneId>, cs: seq<Command>, video: nat -> map<string, nat>,
                                steps: seq<nat>, greens: seq<nat>, phases: seq<nat>, queues: seq<nat>,
                                rewards: seq<real>, videoCounts: seq<nat>, p: nat)
    requires FixedLogged(sc, lanes, cs, video, steps, greens, phases, queues, rewards, videoCounts)
    ensures FixedLogged(sc, lanes, cs + [PhaseSet(|steps|, p)], video, steps, greens, phases, queues, rewards,
                        videoCounts)
  {
    forall i | 0 <= i < |steps|
      ensures FixedEntry(sc, lanes, cs + [PhaseSet(|steps|, p)], video, i, steps[i], greens[i], phases[i],
                         queues[i], rewards[i], videoCounts[i])
    {
      assert FixedEntry(sc, lanes, cs, video, i, steps[i], greens[i], phases[i], queues[i], rewards[i],
                        videoCounts[i]);
      IssuedBeforeIgnoresLater(cs, PhaseSet(|steps|, p), i + 1);
    }
  }

  /** The entry logged after one more step, once every issued command is in effect. */
  lemma FixedLoggedAfterStep(sc: Scenario, lanes: seq<LaneId>, cs: seq<Command>, video: nat -> map<string, nat>,
                             steps: seq<nat>, greens: seq<nat>, phases: seq<nat>, queues: seq<nat>,
                             rewards: seq<real>, videoCounts: seq<nat>)
    requires FixedLogged(sc, lanes, cs, video, steps, greens, phases, queues, rewards, videoCounts)
    requires forall j :: 0 <= j < |cs| ==> cs[j].at <= |steps|
    ensures var t := |steps| + 1;
      var rs := LaneReadings(sc, lanes, t, cs);
      FixedLogged(sc, lanes, cs, video, steps + [t], greens + [FixedGreenDuration], phases + [sc.phase(t, cs)],
                  queues + [TotalHalting(rs)], rewards + [ControlReward(TotalHalting(rs), TotalWaiting(rs))],
                  videoCounts + [VideoCount(video(|steps|))])
  {
    var t := |steps| + 1;
    var rs := LaneReadings(sc, lanes, t, cs);
    IssuedBeforeAll(cs, t);
    var steps', greens', phases' := steps + [t], greens + [FixedGreenDuration], phases + [sc.phase(t, cs)];
    var queues', rewards' := queues + [TotalHalting(rs)], rewards + [ControlReward(TotalHalting(rs), TotalWaiting(rs))];
    var videoCounts' := videoCounts + [VideoCount(video(|steps|))];
    forall i | 0 <= i < |steps'|
      ensures FixedEntry(sc, lanes, cs, video, i, steps'[i], greens'[i], phases'[i], queues'[i], rewards'[i],
                         videoCounts'[i])
    {
      if i < |steps| {
        assert FixedEntry(sc, lanes, cs, video, i, steps[i], greens[i], phases[i], queues[i], rewards[i],
                          videoCounts[i]);
        assert steps'[i] == steps[i] && greens'[i] == greens[i] && phases'[i] == phases[i];
        assert queues'[i] == queues[i] && rewards'[i] == rewards[i] && videoCounts'[i] == videoCounts[i];
      }
    }
  }

  /** A switch at a multiple of 30 extends the switch schedule. */
  lemma SwitchedAfterCommand(sc: Scenario, cs: seq<Command>, time: nat)
    requires Switched(sc, cs, time) && time == 30 * |cs|
    ensures Switched(sc, cs + [PhaseSet(time, NextPhase(sc.phase(time, cs), sc.phaseCount))], time + 1)
  {
    var c := PhaseSet(time, NextPhase(sc.phase(time, cs), sc.phaseCount));
    var cs' := cs + [c];
    IssuedBeforeAll(cs, time);
    IssuedBeforeIgnoresLater(cs, c, time);
    forall j | 0 <= j < |cs|
      ensures cs'[j].at == 30 * j
      ensures cs'[j].phase == NextPhase(sc.phase(30 * j, IssuedBefore(cs', 30 * j)), sc.phaseCount)
    {
      assert cs'[j] == cs[j];
      IssuedBeforeIgnoresLater(cs, c, 30 * j);
    }
  }

  /** A step between switches keeps the schedule. */
  lemma SwitchedAfterStep(sc: Scenario, cs: seq<Command>, time: nat)
    requires Switched(sc, cs, time) && time < 30 * |cs|
    ensures Switched(sc, cs, time + 1)
  {
  }

  /** The loop's state after `simStep` steps, on values. */
  ghost predicate FixedProgressed(sc: Scenario, lanes: seq<LaneId>, video: nat -> map<string, nat>,
                                  time: nat, cs: seq<Command>, steps: seq<nat>, greens: seq<nat>, phases: seq<nat>,
                                  queues: seq<nat>, rewards: seq<real>, videoCounts: seq<nat>,
                                  simStep: nat, counter: nat, decisions: nat, totalReward: real)
  {
    && simStep == time == |steps|
    && decisions == |cs| && counter == 30 * decisions - simStep
    && Switched(sc, cs, simStep)
    && FixedLogged(sc, lanes, cs, video, steps, greens, phases, queues, rewards, videoCounts)
    && totalReward == SumReals(rewards)
  }

  ghost predicate FixedProgress(sim: Sumo, log: RunLog, lanes: seq<LaneId>, video: nat -> map<string, nat>,
                                simStep: nat, counter: nat, decisions: nat, totalReward: real)
    reads sim, log
  {
    && log.Valid()
    && FixedProgressed(sim.scenario, lanes, video, sim.time, sim.commands, log.steps, log.greens, log.phases,
                       log.queues, log.rewards, log.videoCounts, simStep, counter, decisions, totalReward)
  }

  /** `if green_counter == 0:` switch to the next phase and reset the counter to 30. */
  method SwitchIfDue(sim: Sumo, log: RunLog, lanes: seq<LaneId>, video: nat -> map<string, nat>,
                     simStep: nat, counter: nat, decisions: nat, totalReward: real)
    returns (newCounter: nat, newDecisions: nat)
    requires sim.scenario.Usable()
    requires FixedProgress(sim, log, lanes, video, simStep, counter, decisions, totalReward)
    modifies sim
    ensures sim.time == simStep && 0 < newCounter <= 30
    ensures forall j :: 0 <= j < |sim.commands| ==> sim.commands[j].at <= simStep
    ensures counter == 0 ==> newDecisions == decisions + 1 && |sim.commands| == |old(sim.commands)| + 1
    ensures counter != 0 ==> newDecisions == decisions && sim.commands == old(sim.commands)
    ensures newCounter == 30 * newDecisions - simStep && newDecisions == |sim.commands|
    ensures Switched(sim.scenario, sim.commands, simStep + 1)
    ensures FixedLogged(sim.scenario, lanes, sim.commands, video, log.steps, log.greens, log.phases,
                        log.queues, log.rewards, log.videoCounts)
  {
    newCounter, newDecisions := counter, decisions;
    if counter == 0 {
      ghost var cs := sim.commands;
      var next := NextPhase(sim.Phase(), sim.scenario.phaseCount);
      SwitchedAfterCommand(sim.scenario, cs, simStep);
      FixedLoggedAfterCommand(sim.scenario, lanes, cs, video, log.steps, log.greens, log.phases,
                              log.queues, log.rewards, log.videoCounts, next);
      sim.SetPhase(next);
      newDecisions := decisions + 1;
      newCounter := FixedGreenDuration;
    } else {
      SwitchedAfterStep(sim.scenario, sim.commands, simStep);
    }
  }

  /** One iteration of `while sim_step < MAX_STEPS`. */
  method FixedIteration(sim: Sumo, log: RunLog, lanes: seq<LaneId>, video: nat -> map<string, nat>,
                        simStep: nat, counter: nat, decisions: nat, totalReward: real)
    returns (newStep: nat, newCounter: nat, newDecisions: nat, newTotal: real)
    requires sim.scenario.Usable()
    requires FixedProgress(sim, log, lanes, video, simStep, counter, decisions, totalReward)
    modifies sim, log
    ensures newStep == simStep + 1
    ensures FixedProgress(sim, log, lanes, video, newStep, newCounter, newDecisions, newTotal)
  {
    var videoCount := VideoCount(video(simStep));
    newCounter, newDecisions := SwitchIfDue(sim, log, lanes, video, simStep, counter, decisions, totalReward);
    sim.Step();
    newStep := simStep + 1;
    newCounter := newCounter - 1;
    var rs := sim.Readings(lanes);
    var queue := TotalHalting(rs);
    var reward := ControlReward(queue, TotalWaiting(rs));
    FixedLoggedAfterStep(sim.scenario, lanes, sim.commands, video, log.steps, log.greens, log.phases,
                         log.queues, log.rewards, log.videoCounts);
    assert (log.rewards + [reward])[..simStep] == log.rewards;
    newTotal := totalReward + reward;
    log.Record(newStep, FixedGreenDuration, sim.Phase(), queue, reward, videoCount);
  }

  /** `main()` on a freshly started simulation, with the run log as it is at import (empty). */
  method Run(sim: Sumo, video: nat -> map<string, nat>)
    returns (outcome: FixedOutcome, log: RunLog, ghost lanes: seq<LaneId>, ghost sumoLanes: seq<LaneId>)
    requires sim.scenario.Usable() && sim.time == 0 && sim.commands == []
    modifies sim
    ensures fresh(log) && log.Valid()
    ensures NoDuplicates(lanes) && (forall l :: l in lanes <==> l in sim.scenario.controlled)
    ensures sumoLanes == SumoLanesOf(lanes)
    ensures outcome.NoControlledLanes? <==> lanes == []
    ensures outcome.NoControlledLanes? ==> sim.time == 0 && sim.commands == [] && log.Size() == 0
    ensures outcome.Completed? ==>
      && sim.time == MaxSteps && log.Size() == MaxSteps
      && outcome.decisions == |sim.commands| == 67
      && Switched(sim.scenario, sim.commands, MaxSteps)
      && FixedLogged(sim.scenario, sumoLanes, sim.commands, video, log.steps, log.greens, log.phases,
                     log.queues, log.rewards, log.videoCounts)
      && outcome.totalReward == SumReals(log.rewards)
      && outcome.averageReward == outcome.totalReward / 67.0
  {
    log := new RunLog();
    var all := DistinctLanes(sim.scenario.controlled);
    lanes := all;
    sumoLanes := SumoLanesOf(all);
    if |all| == 0 {
      return FixedOutcome.NoControlledLanes, log, lanes, sumoLanes;
    }
    var sumo := SumoLanesOf(all);
    var simStep, decisions, totalReward, counter := 0, 0, 0.0, 0;
    while simStep < MaxSteps
      invariant simStep <= MaxSteps
      invariant FixedProgress(sim, log, sumo, video, simStep, counter, decisions, totalReward)
      decreases MaxSteps - simStep
    {
      simStep, counter, decisions, totalReward :=
        FixedIteration(sim, log, sumo, video, simStep, counter, decisions, totalReward);
    }
    outcome := FixedOutcome.Completed(decisions, totalReward, totalReward / (decisions as real));
  }
}
