/** fixed_control.py: the metrics baseline. Every simulated step updates a `MetricsLogger`;
    whenever the step counter reaches the end of the current green, the first light is moved
    to `(phase + 1) % 4` and the next switch is set 30 steps later. After 2000 steps the
    logger's results are reported. */
module FixedTimer {
  import opened Sim
  import opened Schedule
  import opened Metrics

  /** `FIXED_GREEN`. */
  const FixedGreen: nat := 30
  /** The phase count the script assumes in `(phase + 1) % 4`. */
  const AssumedPhases: nat := 4

  datatype TimerOutcome =
    | PhaseRejected(step: nat, phase: nat)   // SUMO refused `setPhase` with a phase outside the program
    | Finished(avgWait: real, avgTravel: real, passed: nat)

  /** The vehicle reports the logger sees: after simulated steps 1..n, under the commands
      issued before each of them. */
  ghost function Reports(sc: Scenario, cs: seq<Command>, n: nat): (rs: seq<VehicleReport>)
    ensures |rs| == n
  {
    if n == 0 then [] else Reports(sc, cs, n - 1) + [sc.traffic(n, IssuedBefore(cs, n))]
  }

  /** A command issued at step `c.at` or later changes none of the first `n` reports. */
  lemma {:induction false} ReportsIgnoresLater(sc: Scenario, cs: seq<Command>, c: Command, n: nat)
    requires n <= c.at
    ensures Reports(sc, cs + [c], n) == Reports(sc, cs, n)
  {
    if n > 0 {
      ReportsIgnoresLater(sc, cs, c, n - 1);
      IssuedBeforeIgnoresLater(cs, c, n);
    }
  }

  /** The logger after the updates of the first `n` steps. */
  ghost function Tallied(sc: Scenario, cs: seq<Command>, n: nat): Tally {
    Accumulated(Reports(sc, cs, n))
  }

  /** One more update extends the tally by the newest report. */
  lemma TalliedStep(sc: Scenario, cs: seq<Command>, n: nat)
    ensures Tallied(sc, cs, n + 1) == Updated(Tallied(sc, cs, n), sc.traffic(n + 1, IssuedBefore(cs, n + 1)))
  {
    assert Reports(sc, cs, n + 1)[..n] == Reports(sc, cs, n);
  }

  /** The switches issued in the first `step` iterations: switch j in iteration 30 j, after
      simulated step 30 j + 1, to the phase after the one shown then, counted modulo 4. */
  ghost predicate TimerSwitched(sc: Scenario, cs: seq<Command>, step: nat)
  {
    && 30 * |cs| - 30 < step <= 30 * |cs|
    && forall j :: 0 <= j < |cs| ==>
         && cs[j].at == 30 * j + 1
         && cs[j].phase == NextPhase(sc.phase(30 * j + 1, IssuedBefore(cs, 30 * j + 1)), AssumedPhases)
  }

  /** The loop's state after `step` iterations, on values. */
  ghost predicate TimerProgressed(sc: Scenario, cs: seq<Command>, time: nat, tally: Tally, step: nat, end: nat)
  {
    && time == step && end == FixedGreen * |cs|
    && TimerSwitched(sc, cs, step)
    && tally == Tallied(sc, cs, step)
  }

  /** A step that is not a switch point keeps the schedule. */
  lemma TimerSwitchedStep(sc: Scenario, cs: seq<Command>, step: nat)
    requires TimerSwitched(sc, cs, step) && step < 30 * |cs|
    ensures TimerSwitched(sc, cs, step + 1)
  {
  }

  /** A switch at a switch point extends the schedule. */
  lemma TimerSwitchedCommand(sc: Scenario, cs: seq<Command>, step: nat, c: Command)
    requires TimerSwitched(sc, cs, step) && step == 30 * |cs|
    requires c == PhaseSet(step + 1, NextPhase(sc.phase(step + 1, cs), AssumedPhases))
    ensures TimerSwitched(sc, cs + [c], step + 1)
  {
    var cs' := cs + [c];
    forall j | 0 <= j < |cs'|
      ensures cs'[j].at == 30 * j + 1
      ensures cs'[j].phase == NextPhase(sc.phase(30 * j + 1, IssuedBefore(cs', 30 * j + 1)), AssumedPhases)
    {
      if j < |cs| {
        assert cs'[j] == cs[j];
        IssuedBeforeIgnoresLater(cs, c, 30 * j + 1);
      } else {
        IssuedBeforeAll(cs, step + 1);
        IssuedBeforeIgnoresLater(cs, c, step + 1);
        assert cs'[j] == c && 30 * j + 1 == step + 1;
      }
    }
  }

  /** `traci.simulationStep()` followed by `logger.update()`. */
  method StepAndUpdate(sim: Sumo, logger: MetricsLogger, step: nat)
    requires sim.time == step && logger.State() == Tallied(sim.scenario, sim.commands, step)
    requires forall j :: 0 <= j < |sim.commands| ==> sim.commands[j].at <= step
    modifies sim, logger
    ensures sim.time == step + 1 && sim.commands == old(sim.commands)
    ensures logger.State() == Tallied(sim.scenario, sim.commands, step + 1)
  {
    sim.Step();
    IssuedBeforeAll(sim.commands, step + 1);
    TalliedStep(sim.scenario, sim.commands, step);
    logger.Update(sim.Traffic());
  }

  /** `if step >= current_green_end:` move the light on and set the next switch 30 steps later;
      `rejected` when SUMO refuses the new phase. */
  method SwitchIfDue(sim: Sumo, step: nat, end: nat, ghost tally: Tally)
    returns (newEnd: nat, rejected: bool, phase: nat)
    requires sim.time == step + 1 && end == FixedGreen * |sim.commands|
    requires TimerSwitched(sim.scenario, sim.commands, step)
    requires tally == Tallied(sim.scenario, sim.commands, step + 1)
    modifies sim
    ensures sim.time == step + 1
    ensures rejected ==>
      && step == end == FixedGreen * |sim.commands| && sim.commands == old(sim.commands)
      && phase == NextPhase(sim.scenario.phase(step + 1, sim.commands), AssumedPhases)
      && sim.scenario.phaseCount <= phase < AssumedPhases
    ensures !rejected ==>
      && newEnd == FixedGreen * |sim.commands|
      && TimerSwitched(sim.scenario, sim.commands, step + 1)
      && tally == Tallied(sim.scenario, sim.commands, step + 1)
  {
    ghost var cs := sim.commands;
    newEnd, rejected, phase := end, false, 0;
    if step >= end {
      phase := NextPhase(sim.Phase(), AssumedPhases);
      if phase >= sim.scenario.phaseCount {
        rejected := true;
        return;
      }
      TimerSwitchedCommand(sim.scenario, cs, step, PhaseSet(step + 1, phase));
      ReportsIgnoresLater(sim.scenario, cs, PhaseSet(step + 1, phase), step + 1);
      sim.SetPhase(phase);
      newEnd := step + FixedGreen;
    } else {
      TimerSwitchedStep(sim.scenario, cs, step);
    }
  }

  /** One iteration of `while step < 2000`. */
  method TimerIteration(sim: Sumo, logger: MetricsLogger, step: nat, end: nat)
    returns (newEnd: nat, rejected: bool, phase: nat)
    requires sim.scenario.lightCount > 0
    requires TimerProgressed(sim.scenario, sim.commands, sim.time, logger.State(), step, end)
    modifies sim, logger
    ensures sim.time == step + 1
    ensures rejected ==>
      && step == end == FixedGreen * |sim.commands| && sim.commands == old(sim.commands)
      && phase == NextPhase(sim.scenario.phase(step + 1, sim.commands), AssumedPhases)
      && sim.scenario.phaseCount <= phase < AssumedPhases
      && logger.State() == Tallied(sim.scenario, sim.commands, step + 1)
    ensures !rejected ==> TimerProgressed(sim.scenario, sim.commands, sim.time, logger.State(), step + 1, newEnd)
  {
    StepAndUpdate(sim, logger, step);
    newEnd, rejected, phase := SwitchIfDue(sim, step, end, logger.State());
  }

  /** `while step < 2000`, from a fresh logger; stops early when SUMO refuses a phase. */
  method TimerLoop(sim: Sumo, logger: MetricsLogger) returns (rejected: bool, step: nat, phase: nat)
    requires sim.scenario.lightCount > 0
    requires TimerProgressed(sim.scenario, sim.commands, sim.time, logger.State(), 0, 0)
    modifies sim, logger
    ensures rejected ==>
      && step == FixedGreen * |sim.commands| && step < MaxSteps && sim.time == step + 1
      && phase == NextPhase(sim.scenario.phase(step + 1, sim.commands), AssumedPhases)
      && sim.scenario.phaseCount <= phase < AssumedPhases
      && logger.State() == Tallied(sim.scenario, sim.commands, step + 1)
    ensures !rejected ==>
      TimerProgressed(sim.scenario, sim.commands, sim.time, logger.State(), MaxSteps, FixedGreen * |sim.commands|)
  {
    var end := 0;
    step, rejected, phase := 0, false, 0;
    while step < MaxSteps
      invariant step <= MaxSteps
      invariant TimerProgressed(sim.scenario, sim.commands, sim.time, logger.State(), step, end)
      decreases MaxSteps - step
    {
      var newEnd;
      newEnd, rejected, phase := TimerIteration(sim, logger, step, end);
      if rejected {
        return;
      }
      step, end := step + 1, newEnd;
    }
  }

  /** The script on a freshly started simulation. */
  method Run(sim: Sumo) returns (outcome: TimerOutcome, logger: MetricsLogger)
    requires sim.scenario.lightCount > 0 && sim.time == 0 && sim.commands == []
    modifies sim
    ensures fresh(logger)
    ensures sim.scenario.phaseCount >= AssumedPhases ==> outcome.Finished?
    ensures outcome.PhaseRejected? ==>
      && outcome.step == FixedGreen * |sim.commands| && outcome.step < MaxSteps
      && sim.time == outcome.step + 1
      && outcome.phase == NextPhase(sim.scenario.phase(sim.time, sim.commands), AssumedPhases)
      && outcome.phase >= sim.scenario.phaseCount
      && logger.State() == Tallied(sim.scenario, sim.commands, sim.time)
    ensures outcome.Finished? ==>
      && sim.time == MaxSteps && |sim.commands| == 67
      && TimerSwitched(sim.scenario, sim.commands, MaxSteps)
      && logger.State() == Tallied(sim.scenario, sim.commands, MaxSteps)
      && outcome.avgWait == Mean(SumValues(logger.waitingTimes), |logger.waitingTimes|)
      && outcome.avgTravel == Mean(SumValues(TravelTimes(logger.arrivalTimes, logger.departTimes)),
                                   |TravelTimes(logger.arrivalTimes, logger.departTimes)|)
      && outcome.passed == logger.passed
  {
    logger := new MetricsLogger();
    var rejected, step, phase := TimerLoop(sim, logger);
    if rejected {
      return PhaseRejected(step, phase), logger;
    }
    var avgWait, avgTravel, passed := logger.Results();
    outcome := Finished(avgWait, avgTravel, passed);
  }
}
