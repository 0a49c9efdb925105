/** What the decision loops of train_rl.py, eval_rl.py, control/vision_to_sumo.py and
    control/hybrid_control.py share: the action set of hold durations, the phase cycling,
    the hold that is cut short at the step budget, and the arithmetic of a budget filled by holds. */
module Schedule {
  import opened Sim
  import opened Seqs

  const MaxSteps: nat := 2000
  const Actions: seq<nat> := [10, 20, 30, 40, 50, 60]

  /** `action_space[action]`: a hold of 10 to 60 steps, in tens. */
  function GreenTime(action: nat): (green: nat)
    requires action < |Actions|
    ensures 10 <= green <= 60 && green % 10 == 0
    ensures green == 10 * (action + 1)
  {
    Actions[action]
  }

  /** `(current_phase + 1) % num_phases`: the next phase of the cycle. */
  function NextPhase(current: nat, phaseCount: nat): (p: nat)
    requires phaseCount > 0
    ensures p < phaseCount
    ensures current < phaseCount ==> p == (if current == phaseCount - 1 then 0 else current + 1)
  {
    (current + 1) % phaseCount
  }

  /** Steps a hold of `green` actually advances from `simStep` under `budget`. */
  function Held(green: nat, simStep: nat, budget: nat): nat {
    if simStep >= budget then 0 else Min(green, budget - simStep)
  }

  /** The hold loop: `for _ in range(green): if sim_step >= budget: break; simulationStep(); sim_step += 1`. */
  method HoldPhase(sim: Sumo, green: nat, simStep: nat, budget: nat) returns (newStep: nat)
    modifies sim
    ensures newStep == simStep + Held(green, simStep, budget)
    ensures simStep <= budget ==> newStep <= budget
    ensures sim.time == old(sim.time) + (newStep - simStep) && sim.commands == old(sim.commands)
  {
    newStep := simStep;
    var i := 0;
    while i < green
      invariant 0 <= i <= green
      invariant newStep == simStep + Min(i, if simStep >= budget then 0 else budget - simStep)
      invariant sim.time == old(sim.time) + (newStep - simStep) && sim.commands == old(sim.commands)
    {
      if newStep >= budget {
        break;
      }
      sim.Step();
      newStep := newStep + 1;
      i := i + 1;
    }
  }

  /** The step at which decision `i` of a run from step 0 was taken: 0 for the first one, and
      the step where the previous decision's hold ended for the others. */
  function StepBefore(ends: seq<nat>, i: nat): nat
    requires i <= |ends|
  {
    if i == 0 then 0 else ends[i - 1]
  }

  /** Decision taken at `before` in a run that has reached step `time` with commands `cs`: it
      came before the budget ran out, issued `c`, the command moving the light from the phase it
      showed at `before` to the next phase of the cycle, and held `green` steps, cut at the
      budget, until `end`. */
  ghost predicate CycledAt(sc: Scenario, time: nat, cs: seq<Command>, before: nat, end: nat, green: nat, c: Command)
    requires sc.phaseCount > 0
  {
    && before < MaxSteps && 10 <= green <= 60 && end <= time
    && end == before + Held(green, before, MaxSteps)
    && c == PhaseSet(before, NextPhase(sc.phase(before, IssuedBefore(cs, before)), sc.phaseCount))
  }

  /** The phase cycling of a run from step 0 that has reached step `time` with phase commands
      `cs`: decision i was taken where the previous hold ended, issued `cs[i]` there and held
      `greens[i]` steps until `ends[i]`; the run stands where the last hold ended. */
  ghost predicate Cycled(sc: Scenario, time: nat, cs: seq<Command>, ends: seq<nat>, greens: seq<nat>) {
    && sc.phaseCount > 0
    && |ends| == |greens| == |cs|
    && time == StepBefore(ends, |ends|)
    && forall i {:trigger greens[i]} :: 0 <= i < |ends| ==>
         CycledAt(sc, time, cs, StepBefore(ends, i), ends[i], greens[i], cs[i])
  }

  /** While the phases cycle, every command issued so far is in effect at the current step. */
  lemma CycledInEffect(sc: Scenario, time: nat, cs: seq<Command>, ends: seq<nat>, greens: seq<nat>)
    requires Cycled(sc, time, cs, ends, greens)
    ensures IssuedBefore(cs, time) == cs
  {
    forall i | 0 <= i < |cs|
      ensures cs[i].at < time
    {
      assert CycledAt(sc, time, cs, StepBefore(ends, i), ends[i], greens[i], cs[i]);
    }
    IssuedBeforeAll(cs, time);
  }

  /** A decision taken before `time` stays as it was recorded when a command is issued at
      `time` and the run moves on to `next`. */
  lemma CycledAtKept(sc: Scenario, time: nat, cs: seq<Command>, before: nat, end: nat, green: nat,
                     c: Command, next: nat, d: Command)
    requires sc.phaseCount > 0 && CycledAt(sc, time, cs, before, end, green, c)
    requires before <= time <= next && time <= d.at
    ensures CycledAt(sc, next, cs + [d], before, end, green, c)
  {
    IssuedBeforeIgnoresLater(cs, d, before);
  }

  /** The decisions before decision i ended no later than where decision i was taken. */
  lemma StepBeforeAtMost(sc: Scenario, time: nat, cs: seq<Command>, ends: seq<nat>, greens: seq<nat>, i: nat)
    requires Cycled(sc, time, cs, ends, greens) && i <= |ends|
    ensures StepBefore(ends, i) <= time
  {
    if i > 0 {
      assert CycledAt(sc, time, cs, StepBefore(ends, i - 1), ends[i - 1], greens[i - 1], cs[i - 1]);
    }
  }

  /** A decision taken now, cycling the phase the light shows and holding `green` steps, keeps
      the phases cycling. */
  lemma CycledStep(sc: Scenario, time: nat, cs: seq<Command>, ends: seq<nat>, greens: seq<nat>, green: nat)
    requires Cycled(sc, time, cs, ends, greens) && time < MaxSteps && 10 <= green <= 60
    ensures var next := time + Held(green, time, MaxSteps);
      Cycled(sc, next, cs + [PhaseSet(time, NextPhase(sc.phase(time, cs), sc.phaseCount))],
             ends + [next], greens + [green])
  {
    var next := time + Held(green, time, MaxSteps);
    var c := PhaseSet(time, NextPhase(sc.phase(time, cs), sc.phaseCount));
    var cs', ends', greens' := cs + [c], ends + [next], greens + [green];
    CycledInEffect(sc, time, cs, ends, greens);
    IssuedBeforeIgnoresLater(cs, c, time);
    forall i | 0 <= i < |ends'|
      ensures CycledAt(sc, next, cs', StepBefore(ends', i), ends'[i], greens'[i], cs'[i])
    {
      if i < |ends| {
        StepBeforeAtMost(sc, time, cs, ends, greens, i);
        CycledAtKept(sc, time, cs, StepBefore(ends, i), ends[i], greens[i], cs[i], next, c);
        assert StepBefore(ends', i) == StepBefore(ends, i);
      } else {
        assert StepBefore(ends', i) == time;
      }
    }
    assert StepBefore(ends', |ends'|) == next;
  }

  /** Where a run stands after `decisions` holds from step 0: each hold advanced at least one
      and at most 60 steps, and every hold before the last advanced at least 10. */
  predicate Paced(decisions: nat, simStep: nat) {
    && simStep <= MaxSteps
    && simStep <= 60 * decisions
    && (simStep < MaxSteps ==> 10 * decisions <= simStep)
    && (decisions > 0 ==> 10 * (decisions - 1) < simStep)
  }

  /** One more decision with a hold of 10 to 60 steps keeps the run paced. */
  lemma PacedStep(decisions: nat, simStep: nat, green: nat)
    requires Paced(decisions, simStep) && simStep < MaxSteps && 10 <= green <= 60
    ensures Paced(decisions + 1, simStep + Held(green, simStep, MaxSteps))
  {
  }

  /** A 2000-step budget filled by holds of 10..60 (the last one possibly cut) takes
      between 34 and 200 decisions. */
  lemma PacedBounds(decisions: nat)
    requires Paced(decisions, MaxSteps)
    ensures 34 <= decisions <= 200
  {
  }
}
