/** control/hybrid_control.py: a greedy agent trained on 12-value states drives the simulation
    from a mixed state, one synthetic video lane (a vehicle count and two proxies derived from
    it) followed by up to three SUMO lanes, scoring each decision with the absolute cost and
    appending one entry per decision to each list of the run log. */
module HybridControl {
  import opened Sim
  import opened Seqs
  import opened StateEncoding
  import opened Rewards
  import opened Agent
  import opened Schedule
  import opened ControlLog

  /** `VIDEO_LANE`: the key of the video lane in the detector's counts. */
  const VideoLane: string := "north_in"

  /** The `state_size` the script builds its agent with. */
  const HybridStateSize: nat := 12

  datatype HybridOutcome =
    | NoControlledLanes
      /** The hybrid state does not have the network's input size; the first `act` fails. */
    | StateSizeMismatch(stateSize: nat)
    | Completed(decisions: nat, totalReward: real, averageReward: real)

  // ---------------------------------------------------------------- the hybrid state

  /** `SUMO_LANES`: `all_lanes[:3] if len(all_lanes) >= 3 else all_lanes`. */
  function SumoLanesOf(all: seq<LaneId>): (r: seq<LaneId>)
    ensures |r| <= 3 && |r| <= |all| && r == all[..|r|]
    ensures |r| == 3 || r == all
  {
    if |all| >= 3 then all[..3] else all
  }

  /** At most 3 + 3 * 3 values, and exactly the hard-coded 12 when at least three lanes are
      controlled; the SUMO lanes stay distinct. */
  lemma SumoLanesFit(all: seq<LaneId>)
    ensures 3 + 3 * |SumoLanesOf(all)| <= HybridStateSize
    ensures 3 + 3 * |SumoLanesOf(all)| == HybridStateSize <==> |all| >= 3
    ensures NoDuplicates(all) ==> NoDuplicates(SumoLanesOf(all))
  {
  }

  /** `video_density.get(VIDEO_LANE, 0)`. */
  function VideoCount(density: map<string, nat>): nat {
    if VideoLane in density then density[VideoLane] else 0
  }

  /** The video lane's features: the count, a proxy waiting time of twice the count and a
      proxy speed of `max(1.0, 15.0 - count)`. */
  function VideoTriple(c: nat): (t: seq<real>)
    ensures |t| == 3 && t[0] == c as real && t[1] == 2.0 * (c as real)
    ensures 1.0 <= t[2] <= 15.0
    ensures t[2] == 15.0 - (c as real) || (t[2] == 1.0 && c >= 14)
  {
    var speed := 15.0 - (c as real);
    [c as real, (c as real) * 2.0, if 1.0 >= speed then 1.0 else speed]
  }

  /** A SUMO lane's features in the hybrid state: halting count, waiting time, mean speed. */
  function SpeedTriple(r: LaneReading): seq<real> {
    [r.halting as real, r.waiting, r.meanSpeed]
  }

  function SumoEncoded(rs: seq<LaneReading>): seq<real> {
    if rs == [] then [] else SpeedTriple(rs[0]) + SumoEncoded(rs[1..])
  }

  lemma {:induction false} SumoEncodedAppend(rs: seq<LaneReading>, r: LaneReading)
    ensures SumoEncoded(rs + [r]) == SumoEncoded(rs) + SpeedTriple(r)
  {
    if rs == [] {
      assert rs + [r] == [r];
    } else {
      assert (rs + [r])[1..] == rs[1..] + [r];
      SumoEncodedAppend(rs[1..], r);
    }
  }

  lemma {:induction false} SumoEncodedLayout(rs: seq<LaneReading>)
    ensures |SumoEncoded(rs)| == 3 * |rs|
    ensures forall i :: 0 <= i < |rs| ==>
      SumoEncoded(rs)[3 * i] == rs[i].halting as real &&
      SumoEncoded(rs)[3 * i + 1] == rs[i].waiting &&
      SumoEncoded(rs)[3 * i + 2] == rs[i].meanSpeed
  {
    if rs != [] {
      SumoEncodedLayout(rs[1..]);
      var e := SumoEncoded(rs);
      assert e == SpeedTriple(rs[0]) + SumoEncoded(rs[1..]);
      forall i | 1 <= i < |rs|
        ensures e[3 * i] == rs[i].halting as real
        ensures e[3 * i + 1] == rs[i].waiting
        ensures e[3 * i + 2] == rs[i].meanSpeed
      {
        assert rs[i] == rs[1..][i - 1];
        assert 3 * i == 3 + 3 * (i - 1);
      }
    }
  }

  /** The value of `get_hybrid_state(video_density, sumo_lanes)`. */
  function HybridEncoded(c: nat, rs: seq<LaneReading>): seq<real> {
    VideoTriple(c) + SumoEncoded(rs)
  }

  /** The hybrid state holds the video triple first and then, at 3 + 3i + k, SUMO lane i's
      halting count, waiting time and mean speed. */
  lemma HybridLayout(c: nat, rs: seq<LaneReading>)
    ensures |HybridEncoded(c, rs)| == 3 + 3 * |rs|
    ensures HybridEncoded(c, rs)[..3] == VideoTriple(c)
    ensures forall i :: 0 <= i < |rs| ==>
      HybridEncoded(c, rs)[3 + 3 * i] == rs[i].halting as real &&
      HybridEncoded(c, rs)[4 + 3 * i] == rs[i].waiting &&
      HybridEncoded(c, rs)[5 + 3 * i] == rs[i].meanSpeed
  {
    SumoEncodedLayout(rs);
  }

  /** `get_hybrid_state`: start from the video triple and extend it lane by lane. */
  method HybridState(sim: Sumo, density: map<string, nat>, sumoLanes: seq<LaneId>) returns (state: seq<real>)
    ensures state == HybridEncoded(VideoCount(density), sim.Readings(sumoLanes))
  {
    ghost var rs := sim.Readings(sumoLanes);
    var c := VideoCount(density);
    state := VideoTriple(c);
    var i := 0;
    while i < |sumoLanes|
      invariant 0 <= i <= |sumoLanes|
      invariant state == VideoTriple(c) + SumoEncoded(rs[..i])
    {
      var r := sim.Reading(sumoLanes[i]);
      assert rs[..i + 1] == rs[..i] + [r];
      SumoEncodedAppend(rs[..i], r);
      state := state + [r.halting as real, r.waiting, r.meanSpeed];
      i := i + 1;
    }
    assert rs[..i] == rs;
  }

  // ---------------------------------------------------------------- the decision loop

  /** Decision i, taken at `before` on the frame `density`, issuing `c` and held until `step`:
      its state is the hybrid state of the frame's video count and of the SUMO lanes' readings
      at `before`, its green is the greedy one on that state, the logged phase is the one `c`
      set, and the logged queue and reward are the SUMO lanes' halting total and absolute cost
      where the hold ended. */
  ghost predicate LoggedAt(sc: Scenario, sumoLanes: seq<LaneId>, cs: seq<Command>, before: nat, step: nat,
                           green: nat, c: Command, phase: nat, queue: nat, reward: real, videoCount: nat,
                           density: map<string, nat>, state: seq<real>, forward: QNet, saved: Params)
  {
    && videoCount == VideoCount(density)
    && state == HybridEncoded(videoCount, LaneReadings(sc, sumoLanes, before, IssuedBefore(cs, before)))
    && |forward(saved, state)| == |Actions| && green == GreenTime(ArgMax(forward(saved, state)))
    && phase == c.phase
    && queue == TotalHalting(LaneReadings(sc, sumoLanes, step, IssuedBefore(cs, step)))
    && reward == ControlReward(queue, TotalWaiting(LaneReadings(sc, sumoLanes, step, IssuedBefore(cs, step))))
    && reward <= -0.7 * (queue as real)
  }

  /** Log entry i is decision i's, read on frame `video(i)` and taken where decision i - 1's
      hold ended. */
  ghost predicate LogEntries(sc: Scenario, sumoLanes: seq<LaneId>, cs: seq<Command>,
                             steps: seq<nat>, greens: seq<nat>, phases: seq<nat>, queues: seq<nat>,
                             rewards: seq<real>, videoCounts: seq<nat>, states: seq<seq<real>>,
                             video: nat -> map<string, nat>, forward: QNet, saved: Params)
  {
    && |greens| == |steps| && |cs| == |steps|
    && |phases| == |steps| && |queues| == |steps| && |rewards| == |steps|
    && |videoCounts| == |steps| && |states| == |steps|
    && forall i {:trigger states[i]} :: 0 <= i < |states| ==>
         LoggedAt(sc, sumoLanes, cs, StepBefore(steps, i), steps[i], greens[i], cs[i], phases[i], queues[i],
                  rewards[i], videoCounts[i], video(i), states[i], forward, saved)
  }

  /** What a run that has reached step `time` with commands `cs` has logged: each decision
      cycled the phase shown where it was taken (the step where the previous hold ended) and
      held its green, and log entry i is decision i's. */
  ghost predicate HybridLogged(sc: Scenario, sumoLanes: seq<LaneId>, time: nat, cs: seq<Command>,
                               steps: seq<nat>, greens: seq<nat>, phases: seq<nat>, queues: seq<nat>,
                               rewards: seq<real>, videoCounts: seq<nat>, states: seq<seq<real>>,
                               video: nat -> map<string, nat>, forward: QNet, saved: Params)
  {
    && Cycled(sc, time, cs, steps, greens)
    && LogEntries(sc, sumoLanes, cs, steps, greens, phases, queues, rewards, videoCounts, states, video,
                  forward, saved)
  }

  /** The logged phase of decision i is the one after the phase shown where it was taken. */
  lemma LoggedPhaseCycled(sc: Scenario, sumoLanes: seq<LaneId>, time: nat, cs: seq<Command>,
                          steps: seq<nat>, greens: seq<nat>, phases: seq<nat>, queues: seq<nat>,
                          rewards: seq<real>, videoCounts: seq<nat>, states: seq<seq<real>>,
                          video: nat -> map<string, nat>, forward: QNet, saved: Params, i: nat)
    requires HybridLogged(sc, sumoLanes, time, cs, steps, greens, phases, queues, rewards, videoCounts,
                          states, video, forward, saved)
    requires i < |steps|
    ensures phases[i] < sc.phaseCount
    ensures phases[i] == NextPhase(sc.phase(StepBefore(steps, i), IssuedBefore(cs, StepBefore(steps, i))),
                                   sc.phaseCount)
  {
    assert CycledAt(sc, time, cs, StepBefore(steps, i), steps[i], greens[i], cs[i]);
    assert LoggedAt(sc, sumoLanes, cs, StepBefore(steps, i), steps[i], greens[i], cs[i], phases[i], queues[i],
                    rewards[i], videoCounts[i], video(i), states[i], forward, saved);
  }

  /** A command issued after a decision's hold ended leaves its log entry as it was. */
  lemma LoggedAtKept(sc: Scenario, sumoLanes: seq<LaneId>, cs: seq<Command>, before: nat, step: nat,
                     green: nat, c: Command, phase: nat, queue: nat, reward: real, videoCount: nat,
                     density: map<string, nat>, state: seq<real>, forward: QNet, saved: Params, d: Command)
    requires LoggedAt(sc, sumoLanes, cs, before, step, green, c, phase, queue, reward, videoCount, density,
                      state, forward, saved)
    requires before <= d.at && step <= d.at
    ensures LoggedAt(sc, sumoLanes, cs + [d], before, step, green, c, phase, queue, reward, videoCount, density,
                     state, forward, saved)
  {
    IssuedBeforeIgnoresLater(cs, d, before);
    IssuedBeforeIgnoresLater(cs, d, step);
  }

  /** The decision taken now, on the readings now, cycling the phase shown now and measured
      where its hold ends, has the log entry of those readings. */
  lemma LoggedNow(sc: Scenario, sumoLanes: seq<LaneId>, time: nat, cs: seq<Command>, steps: seq<nat>,
                  greens: seq<nat>, density: map<string, nat>, state: seq<real>, forward: QNet, saved: Params,
                  green: nat, c: Command, next: nat, queue: nat, reward: real)
    requires Cycled(sc, time, cs, steps, greens) && time < MaxSteps
    requires state == HybridEncoded(VideoCount(density), LaneReadings(sc, sumoLanes, time, cs))
    requires |forward(saved, state)| == |Actions| && green == GreenTime(ArgMax(forward(saved, state)))
    requires c == PhaseSet(time, NextPhase(sc.phase(time, cs), sc.phaseCount))
    requires next == time + Held(green, time, MaxSteps)
    requires queue == TotalHalting(LaneReadings(sc, sumoLanes, next, cs + [c]))
    requires reward == ControlReward(queue, TotalWaiting(LaneReadings(sc, sumoLanes, next, cs + [c])))
    ensures LoggedAt(sc, sumoLanes, cs + [c], time, next, green, c, c.phase, queue, reward, VideoCount(density),
                     density, state, forward, saved)
  {
    CycledStep(sc, time, cs, steps, greens, green);
    CycledInEffect(sc, time, cs, steps, greens);
    CycledInEffect(sc, next, cs + [c], steps + [next], greens + [green]);
    IssuedBeforeIgnoresLater(cs, c, time);
  }

  /** Entry i of the log survives a command issued at or after the step the run has reached. */
  lemma LoggedEntryKept(sc: Scenario, sumoLanes: seq<LaneId>, time: nat, cs: seq<Command>,
                        steps: seq<nat>, greens: seq<nat>, phases: seq<nat>, queues: seq<nat>,
                        rewards: seq<real>, videoCounts: seq<nat>, states: seq<seq<real>>,
                        video: nat -> map<string, nat>, forward: QNet, saved: Params, c: Command, i: nat)
    requires HybridLogged(sc, sumoLanes, time, cs, steps, greens, phases, queues, rewards, videoCounts,
                          states, video, forward, saved)
    requires time <= c.at && i < |states|
    ensures LoggedAt(sc, sumoLanes, cs + [c], StepBefore(steps, i), steps[i], greens[i], cs[i], phases[i],
                     queues[i], rewards[i], videoCounts[i], video(i), states[i], forward, saved)
  {
    StepBeforeAtMost(sc, time, cs, steps, greens, i);
    assert CycledAt(sc, time, cs, StepBefore(steps, i), steps[i], greens[i], cs[i]);
    assert LoggedAt(sc, sumoLanes, cs, StepBefore(steps, i), steps[i], greens[i], cs[i], phases[i], queues[i],
                    rewards[i], videoCounts[i], video(i), states[i], forward, saved);
    LoggedAtKept(sc, sumoLanes, cs, StepBefore(steps, i), steps[i], greens[i], cs[i], phases[i], queues[i],
                 rewards[i], videoCounts[i], video(i), states[i], forward, saved, c);
  }

  /** The entries logged so far survive a command issued now and one more entry. */
  lemma LogEntriesStep(sc: Scenario, sumoLanes: seq<LaneId>, time: nat, cs: seq<Command>,
                       steps: seq<nat>, greens: seq<nat>, phases: seq<nat>, queues: seq<nat>,
                       rewards: seq<real>, videoCounts: seq<nat>, states: seq<seq<real>>,
                       video: nat -> map<string, nat>, forward: QNet, saved: Params,
                       state: seq<real>, green: nat, c: Command, next: nat, queue: nat, reward: real)
    requires HybridLogged(sc, sumoLanes, time, cs, steps, greens, phases, queues, rewards, videoCounts,
                          states, video, forward, saved)
    requires time <= c.at
    requires LoggedAt(sc, sumoLanes, cs + [c], time, next, green, c, c.phase, queue, reward,
                      VideoCount(video(|steps|)), video(|steps|), state, forward, saved)
    ensures LogEntries(sc, sumoLanes, cs + [c], steps + [next], greens + [green], phases + [c.phase],
                       queues + [queue], rewards + [reward], videoCounts + [VideoCount(video(|steps|))],
                       states + [state], video, forward, saved)
  {
    var steps', greens', phases', queues' := steps + [next], greens + [green], phases + [c.phase], queues + [queue];
    var rewards', videoCounts', states' := rewards + [reward], videoCounts + [VideoCount(video(|steps|))], states + [state];
    forall i | 0 <= i < |states'|
      ensures LoggedAt(sc, sumoLanes, cs + [c], StepBefore(steps', i), steps'[i], greens'[i], (cs + [c])[i],
                       phases'[i], queues'[i], rewards'[i], videoCounts'[i], video(i), states'[i], forward, saved)
    {
      if i < |states| {
        LoggedEntryKept(sc, sumoLanes, time, cs, steps, greens, phases, queues, rewards, videoCounts, states,
                        video, forward, saved, c, i);
        assert StepBefore(steps', i) == StepBefore(steps, i);
      } else {
        assert StepBefore(steps', i) == time;
      }
    }
  }

  /** A decision taken now, logged, extends what the run has logged by its entry. */
  lemma HybridLoggedStep(sc: Scenario, sumoLanes: seq<LaneId>, time: nat, cs: seq<Command>,
                         steps: seq<nat>, greens: seq<nat>, phases: seq<nat>, queues: seq<nat>,
                         rewards: seq<real>, videoCounts: seq<nat>, states: seq<seq<real>>,
                         video: nat -> map<string, nat>, forward: QNet, saved: Params,
                         state: seq<real>, green: nat, c: Command, next: nat, queue: nat, reward: real)
    requires HybridLogged(sc, sumoLanes, time, cs, steps, greens, phases, queues, rewards, videoCounts,
                          states, video, forward, saved)
    requires time < MaxSteps
    requires state == HybridEncoded(VideoCount(video(|steps|)), LaneReadings(sc, sumoLanes, time, cs))
    requires |forward(saved, state)| == |Actions| && green == GreenTime(ArgMax(forward(saved, state)))
    requires c == PhaseSet(time, NextPhase(sc.phase(time, cs), sc.phaseCount))
    requires next == time + Held(green, time, MaxSteps)
    requires queue == TotalHalting(LaneReadings(sc, sumoLanes, next, cs + [c]))
    requires reward == ControlReward(queue, TotalWaiting(LaneReadings(sc, sumoLanes, next, cs + [c])))
    ensures HybridLogged(sc, sumoLanes, next, cs + [c], steps + [next], greens + [green], phases + [c.phase],
                         queues + [queue], rewards + [reward], videoCounts + [VideoCount(video(|steps|))],
                         states + [state], video, forward, saved)
  {
    CycledStep(sc, time, cs, steps, greens, green);
    LoggedNow(sc, sumoLanes, time, cs, steps, greens, video(|steps|), state, forward, saved, green, c, next,
              queue, reward);
    LogEntriesStep(sc, sumoLanes, time, cs, steps, greens, phases, queues, rewards, videoCounts, states,
                   video, forward, saved, state, green, c, next, queue, reward);
  }

  /** One decision: read the state, act greedily, cycle the phase, hold, and measure the
      SUMO lanes' queue and cost. */
  method HybridDecision(sim: Sumo, agent: DQNAgent, sumoLanes: seq<LaneId>, density: map<string, nat>,
                        simStep: nat)
    returns (state: seq<real>, green: nat, next: nat, newStep: nat, queue: nat, reward: real)
    requires sim.scenario.Usable() && simStep == sim.time < MaxSteps
    requires agent.Valid() && agent.stateSize == 3 + 3 * |sumoLanes| && agent.actionSize == |Actions|
    requires agent.epsilon == 0.0
    modifies sim
    ensures state == HybridEncoded(VideoCount(density), old(sim.Readings(sumoLanes)))
    ensures |state| >= 3 && state[..3] == VideoTriple(VideoCount(density))
    ensures |agent.forward(agent.live, state)| == |Actions|
    ensures green == GreenTime(ArgMax(agent.forward(agent.live, state)))
    ensures next == NextPhase(old(sim.Phase()), sim.scenario.phaseCount)
    ensures sim.commands == old(sim.commands) + [PhaseSet(simStep, next)]
    ensures newStep == sim.time == simStep + Held(green, simStep, MaxSteps)
    ensures queue == TotalHalting(sim.Readings(sumoLanes))
    ensures reward == ControlReward(queue, TotalWaiting(sim.Readings(sumoLanes)))
  {
    state := HybridState(sim, density, sumoLanes);
    HybridLayout(VideoCount(density), old(sim.Readings(sumoLanes)));
    var draw: real :| 0.0 <= draw < 1.0;
    var pick: nat :| pick < |Actions|;
    var action := agent.Act(state, draw, pick);
    green := GreenTime(action);
    next := NextPhase(sim.Phase(), sim.scenario.phaseCount);
    sim.SetPhase(next);
    newStep := HoldPhase(sim, green, simStep, MaxSteps);
    var rs := sim.Readings(sumoLanes);
    queue := TotalHalting(rs);
    reward := ControlReward(queue, TotalWaiting(rs));
  }

  /** The loop's state between decisions, on values: the run is paced, the log records every
      decision against the simulation, and the reward total is the sum of the logged rewards. */
  ghost predicate Progressed(sc: Scenario, sumoLanes: seq<LaneId>, cs: seq<Command>, time: nat,
                             steps: seq<nat>, greens: seq<nat>, phases: seq<nat>, queues: seq<nat>,
                             rewards: seq<real>, videoCounts: seq<nat>, states: seq<seq<real>>,
                             video: nat -> map<string, nat>, forward: QNet, live: Params,
                             simStep: nat, decisions: nat, totalReward: real)
  {
    && decisions == |steps|
    && simStep == time && Paced(decisions, simStep)
    && HybridLogged(sc, sumoLanes, time, cs, steps, greens, phases, queues, rewards, videoCounts, states,
                    video, forward, live)
    && totalReward == SumReals(rewards)
  }

  /** The same, read from the simulation, the agent and the run log. */
  ghost predicate HybridProgress(sim: Sumo, agent: DQNAgent, log: RunLog, sumoLanes: seq<LaneId>,
                                 video: nat -> map<string, nat>, simStep: nat, decisions: nat,
                                 totalReward: real, states: seq<seq<real>>)
    reads sim, agent, log
  {
    && log.Valid()
    && Progressed(sim.scenario, sumoLanes, sim.commands, sim.time, log.steps, log.greens, log.phases,
                  log.queues, log.rewards, log.videoCounts, states, video, agent.forward, agent.live,
                  simStep, decisions, totalReward)
  }

  /** A greedy decision taken where the last hold ended, and logged, keeps the loop's state. */
  lemma ProgressedStep(sc: Scenario, sumoLanes: seq<LaneId>, cs: seq<Command>,
                       steps: seq<nat>, greens: seq<nat>, phases: seq<nat>, queues: seq<nat>,
                       rewards: seq<real>, videoCounts: seq<nat>, states: seq<seq<real>>,
                       video: nat -> map<string, nat>, forward: QNet, live: Params,
                       simStep: nat, totalReward: real,
                       state: seq<real>, green: nat, c: Command, next: nat, queue: nat, reward: real)
    requires Progressed(sc, sumoLanes, cs, simStep, steps, greens, phases, queues, rewards, videoCounts, states,
                        video, forward, live, simStep, |steps|, totalReward)
    requires simStep < MaxSteps
    requires state == HybridEncoded(VideoCount(video(|steps|)), LaneReadings(sc, sumoLanes, simStep, cs))
    requires |forward(live, state)| == |Actions| && green == GreenTime(ArgMax(forward(live, state)))
    requires c == PhaseSet(simStep, NextPhase(sc.phase(simStep, cs), sc.phaseCount))
    requires next == simStep + Held(green, simStep, MaxSteps)
    requires queue == TotalHalting(LaneReadings(sc, sumoLanes, next, cs + [c]))
    requires reward == ControlReward(queue, TotalWaiting(LaneReadings(sc, sumoLanes, next, cs + [c])))
    ensures simStep < next
    ensures Progressed(sc, sumoLanes, cs + [c], next, steps + [next], greens + [green], phases + [c.phase],
                       queues + [queue], rewards + [reward], videoCounts + [VideoCount(video(|steps|))],
                       states + [state], video, forward, live, next, |steps| + 1, totalReward + reward)
  {
    PacedStep(|steps|, simStep, green);
    HybridLoggedStep(sc, sumoLanes, simStep, cs, steps, greens, phases, queues, rewards, videoCounts, states,
                     video, forward, live, state, green, c, next, queue, reward);
    assert (rewards + [reward])[..|steps|] == rewards;
    assert SumReals(rewards + [reward]) == totalReward + reward;
  }

  /** One pass of the loop body: decide on the frame read for this decision, then log. */
  method DecideAndLog(sim: Sumo, agent: DQNAgent, sumoLanes: seq<LaneId>, video: nat -> map<string, nat>,
                      log: RunLog, simStep: nat, decisions: nat, totalReward: real, ghost states: seq<seq<real>>)
    returns (newStep: nat, newTotal: real, ghost newStates: seq<seq<real>>)
    requires sim.scenario.Usable() && simStep < MaxSteps
    requires agent.Valid() && agent.stateSize == 3 + 3 * |sumoLanes| && agent.actionSize == |Actions|
    requires agent.epsilon == 0.0
    requires HybridProgress(sim, agent, log, sumoLanes, video, simStep, decisions, totalReward, states)
    modifies sim, log
    ensures simStep < newStep
    ensures HybridProgress(sim, agent, log, sumoLanes, video, newStep, decisions + 1, newTotal, newStates)
  {
    var density := video(decisions);
    ghost var cs := sim.commands;
    var state, green, next, queue, reward;
    state, green, next, newStep, queue, reward := HybridDecision(sim, agent, sumoLanes, density, simStep);
    ProgressedStep(sim.scenario, sumoLanes, cs, log.steps, log.greens, log.phases, log.queues, log.rewards,
                   log.videoCounts, states, video, agent.forward, agent.live, simStep, totalReward,
                   state, green, PhaseSet(simStep, next), newStep, queue, reward);
    newTotal := totalReward + reward;
    log.Record(newStep, green, next, queue, reward, VideoCount(density));
    newStates := states + [state];
  }

  /** The `while sim_step < MAX_STEPS` loop; `video(i)` is what the detector reports for the
      frame read at decision i. */
  method HybridLoop(sim: Sumo, agent: DQNAgent, sumoLanes: seq<LaneId>, video: nat -> map<string, nat>,
                    log: RunLog)
    returns (decisions: nat, totalReward: real, ghost states: seq<seq<real>>)
    requires sim.scenario.Usable() && sim.time == 0 && sim.commands == []
    requires agent.Valid() && agent.stateSize == 3 + 3 * |sumoLanes| && agent.actionSize == |Actions|
    requires agent.epsilon == 0.0
    requires log.Valid() && log.Size() == 0
    modifies sim, log
    ensures HybridProgress(sim, agent, log, sumoLanes, video, MaxSteps, decisions, totalReward, states)
    ensures 34 <= decisions <= 200
  {
    var simStep := 0;
    decisions := 0;
    totalReward := 0.0;
    states := [];
    while simStep < MaxSteps
      invariant HybridProgress(sim, agent, log, sumoLanes, video, simStep, decisions, totalReward, states)
      decreases MaxSteps - simStep
    {
      simStep, totalReward, states := DecideAndLog(sim, agent, sumoLanes, video, log, simStep, decisions,
                                                   totalReward, states);
      decisions := decisions + 1;
    }
    PacedBounds(decisions);
  }

  /** `main()` on a freshly started simulation, with the run log as it is at import (empty).
      The network's parameters `saved` come from the model file. */
  method Run(sim: Sumo, forward: QNet, optimize: Optimizer, init: Params, optimizerInit: OptimizerState,
             saved: Params, video: nat -> map<string, nat>)
    returns (outcome: HybridOutcome, log: RunLog, ghost lanes: seq<LaneId>, ghost sumoLanes: seq<LaneId>,
             ghost states: seq<seq<real>>)
    requires sim.scenario.Usable() && sim.time == 0 && sim.commands == []
    requires Shaped(forward, |Actions|)
    modifies sim
    ensures fresh(log) && log.Valid()
    ensures NoDuplicates(lanes) && (forall l :: l in lanes <==> l in sim.scenario.controlled)
    ensures sumoLanes == SumoLanesOf(lanes)
    ensures outcome.NoControlledLanes? <==> lanes == []
    ensures outcome.StateSizeMismatch? <==> 0 < |lanes| < 3
    ensures outcome.StateSizeMismatch? ==> outcome.stateSize == 3 + 3 * |lanes|
    ensures !outcome.Completed? ==> sim.time == 0 && sim.commands == [] && log.Size() == 0
    ensures outcome.Completed? ==>
      && sim.time == MaxSteps && outcome.decisions == log.Size() && 34 <= log.Size() <= 200
      && log.steps[log.Size() - 1] == MaxSteps
      && HybridLogged(sim.scenario, sumoLanes, MaxSteps, sim.commands, log.steps, log.greens, log.phases,
                      log.queues, log.rewards, log.videoCounts, states, video, forward, saved)
      && outcome.totalReward == SumReals(log.rewards)
      && outcome.averageReward == outcome.totalReward / (outcome.decisions as real)
  {
    log := new RunLog();
    states := [];
    var all := DistinctLanes(sim.scenario.controlled);
    lanes := all;
    sumoLanes := SumoLanesOf(all);
    if |all| == 0 {
      return NoControlledLanes, log, lanes, sumoLanes, states;
    }
    var sumo := SumoLanesOf(all);
    SumoLanesFit(all);
    var agent := new DQNAgent(HybridStateSize, |Actions|, forward, optimize, init, optimizerInit);
    agent.Load(saved);
    agent.epsilon := 0.0;
    if 3 + 3 * |sumo| != HybridStateSize {
      return StateSizeMismatch(3 + 3 * |sumo|), log, lanes, sumoLanes, states;
    }
    var decisions, totalReward;
    decisions, totalReward, states := HybridLoop(sim, agent, sumo, video, log);
    outcome := Completed(decisions, totalReward, totalReward / (decisions as real));
  }
}
