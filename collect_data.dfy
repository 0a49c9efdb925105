/** collect_data.py: the dataset collector. The light is never commanded; after every simulated
    step the controlled lanes are encoded as `[queue, waiting, flow]` triples, a green of 10 s is
    chosen when fewer than 5 vehicles halt and 15 s otherwise, and whenever the current green
    has run out the encoded state and that green are appended as one row. */
module CollectData {
  import opened Sim
  import opened Seqs
  import opened StateEncoding
  import opened Schedule

  /** `state[::3]`: the entries at positions 0, 3, 6, ... */
  function EveryThird(xs: seq<real>): seq<real>
    decreases |xs|
  {
    if xs == [] then [] else [xs[0]] + EveryThird(xs[Min(3, |xs|)..])
  }

  /** On an encoded state, `sum(state[::3])` is the lanes' halting total. */
  lemma {:induction false} EveryThirdEncoded(rs: seq<LaneReading>)
    ensures SumReals(EveryThird(Encoded(rs))) == TotalHalting(rs) as real
  {
    if rs != [] {
      var e := Encoded(rs);
      assert e == Triple(rs[0]) + Encoded(rs[1..]);
      assert e[Min(3, |e|)..] == Encoded(rs[1..]);
      EveryThirdEncoded(rs[1..]);
      SumRealsCons(e[0], EveryThird(Encoded(rs[1..])));
    }
  }

  /** `green_time = 10 if total_queue < 5 else 15`. */
  function GreenFor(state: seq<real>): nat {
    if SumReals(EveryThird(state)) < 5.0 then 10 else 15
  }

  /** The green chosen for an encoded state is 10 exactly when fewer than five vehicles halt. */
  lemma GreenForReadings(rs: seq<LaneReading>)
    ensures GreenFor(Encoded(rs)) == (if TotalHalting(rs) < 5 then 10 else 15)
  {
    EveryThirdEncoded(rs);
  }

  /** `list(state) + [green_time]`. */
  function Row(state: seq<real>): (row: seq<real>)
    ensures |row| == |state| + 1 && row[..|state|] == state && row[|state|] == GreenFor(state) as real
  {
    state + [GreenFor(state) as real]
  }

  /** Row i of the dataset: sampled after simulated step `SumNats(greens[..i]) + 1`, i.e. at the
      loop step where all earlier greens had run out, with no command ever issued. */
  ghost predicate CollectedRow(sc: Scenario, greens: seq<nat>, i: nat, row: seq<real>)
    requires i < |greens|
  {
    var state := Encoded(LaneReadings(sc, sc.controlled, SumNats(greens[..i]) + 1, []));
    row == Row(state) && greens[i] == GreenFor(state)
  }

  /** The collector's state after `step` loop steps, on values: rows so far, their greens, and
      `current_green_end`, which is where the greens add up to. */
  ghost predicate Sampled(sc: Scenario, data: seq<seq<real>>, greens: seq<nat>, step: nat, end: nat)
  {
    && |data| == |greens|
    && step <= end == SumNats(greens)
    && 10 * |greens| <= end <= 15 * |greens|
    && (|greens| > 0 ==> 10 * (|greens| - 1) <= end - greens[|greens| - 1] < step)
    && forall i {:trigger data[i]} :: 0 <= i < |data| ==> CollectedRow(sc, greens, i, data[i])
  }

  /** Appending the row sampled at `step == end` keeps the earlier rows and adds the new one. */
  lemma SampledStep(sc: Scenario, data: seq<seq<real>>, greens: seq<nat>, step: nat)
    requires Sampled(sc, data, greens, step, step)
    ensures var state := Encoded(LaneReadings(sc, sc.controlled, step + 1, []));
      Sampled(sc, data + [Row(state)], greens + [GreenFor(state)], step + 1, step + GreenFor(state))
  {
    var state := Encoded(LaneReadings(sc, sc.controlled, step + 1, []));
    var data', greens' := data + [Row(state)], greens + [GreenFor(state)];
    assert greens'[..|greens|] == greens;
    forall i | 0 <= i < |data'|
      ensures CollectedRow(sc, greens', i, data'[i])
    {
      if i < |data| {
        assert CollectedRow(sc, greens, i, data[i]);
        assert greens'[..i] == greens[..i];
      }
    }
  }

  /** A step before the green runs out samples nothing. */
  lemma SampledWait(sc: Scenario, data: seq<seq<real>>, greens: seq<nat>, step: nat, end: nat)
    requires Sampled(sc, data, greens, step, end) && step < end
    ensures Sampled(sc, data, greens, step + 1, end)
  {
  }

  /** After 2000 steps the rows number between 134 (all greens 15 s) and 200 (all 10 s), and
      the last row was sampled before step 2000. */
  lemma SampledBounds(sc: Scenario, data: seq<seq<real>>, greens: seq<nat>, end: nat)
    requires Sampled(sc, data, greens, MaxSteps, end)
    ensures 134 <= |data| <= 200
    ensures SumNats(greens[..|greens| - 1]) < MaxSteps <= SumNats(greens)
  {
  }

  /** One step of `while step < 2000`: simulate, encode, and sample when the green has run out. */
  method CollectStep(sim: Sumo, data: seq<seq<real>>, ghost greens: seq<nat>, step: nat, end: nat)
    returns (data': seq<seq<real>>, ghost greens': seq<nat>, end': nat)
    requires sim.time == step && sim.commands == []
    requires Sampled(sim.scenario, data, greens, step, end)
    modifies sim
    ensures sim.time == step + 1 && sim.commands == []
    ensures Sampled(sim.scenario, data', greens', step + 1, end')
  {
    sim.Step();
    var state := EncodeLanes(sim, sim.scenario.controlled);
    var green := GreenFor(state);
    assert state == Encoded(LaneReadings(sim.scenario, sim.scenario.controlled, step + 1, []));
    data', greens', end' := data, greens, end;
    if step < end {
      SampledWait(sim.scenario, data, greens, step, end);
    } else {
      SampledStep(sim.scenario, data, greens, step);
      data' := data + [Row(state)];
      greens' := greens + [green];
      end' := step + green;
    }
  }

  /** The script on a freshly started simulation: 2000 steps, one row per expired green. */
  method Collect(sim: Sumo) returns (data: seq<seq<real>>, ghost greens: seq<nat>)
    requires sim.scenario.lightCount > 0 && sim.time == 0 && sim.commands == []
    modifies sim
    ensures sim.time == MaxSteps && sim.commands == []
    ensures |data| == |greens| && 134 <= |data| <= 200
    ensures forall i :: 0 <= i < |data| ==> CollectedRow(sim.scenario, greens, i, data[i])
    ensures SumNats(greens[..|greens| - 1]) < MaxSteps <= SumNats(greens)
  {
    data, greens := [], [];
    var step: nat, end: nat := 0, 0;
    while step < MaxSteps
      invariant step <= MaxSteps && sim.time == step && sim.commands == []
      invariant Sampled(sim.scenario, data, greens, step, end)
      decreases MaxSteps - step
    {
      data, greens, end := CollectStep(sim, data, greens, step, end);
      step := step + 1;
    }
    SampledBounds(sim.scenario, data, greens, end);
  }
}
