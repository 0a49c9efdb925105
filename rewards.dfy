/** The three reward policies found in the repository, over exact reals:
    the absolute cost of rl/reward.py (also written inline by the control scripts),
    the delta shaping of rl/env_utils.py that threads `prev_metrics`,
    and the clipped wait/arrival reward with a switch penalty of rl/utils.py. */
module Rewards {
  import opened Sim
  import opened StateEncoding
  import opened Seqs

  // ---------------------------------------------------------------- absolute cost

  /** The `metrics` dict of rl/reward.py: keys "queue" and "waiting". */
  datatype QueueMetrics = QueueMetrics(queue: real, waiting: real)

  /** `compute_reward(metrics, prev_metrics)`: the negated weighted cost 0.7 queue + 0.3 waiting.
      `prevMetrics` is accepted and ignored, as in the source. */
  function AbsoluteReward(metrics: QueueMetrics, prevMetrics: QueueMetrics): (r: real)
    ensures metrics.queue >= 0.0 && metrics.waiting >= 0.0 ==> r <= 0.0
    ensures metrics.queue >= 0.0 && metrics.waiting >= 0.0 ==>
      (r == 0.0 <==> metrics.queue == 0.0 && metrics.waiting == 0.0)
  {
    -(0.7 * metrics.queue + 0.3 * metrics.waiting)
  }

  lemma AbsoluteRewardIgnoresPrevious(metrics: QueueMetrics, p1: QueueMetrics, p2: QueueMetrics)
    ensures AbsoluteReward(metrics, p1) == AbsoluteReward(metrics, p2)
  {
  }

  lemma AbsoluteRewardExample(prev: QueueMetrics)
    ensures AbsoluteReward(QueueMetrics(5.0, 10.0), prev) == -6.5
  {
  }

  /** More queue or more waiting never raises the reward. */
  lemma AbsoluteRewardMonotone(m1: QueueMetrics, m2: QueueMetrics, prev: QueueMetrics)
    requires m1.queue <= m2.queue && m1.waiting <= m2.waiting
    ensures AbsoluteReward(m2, prev) <= AbsoluteReward(m1, prev)
  {
  }

  /** The same cost written inline by control/hybrid_control.py and control/fixed_control.py
      over the summed halting count and waiting time of their SUMO lanes. */
  function ControlReward(totalQueue: nat, totalWait: real): (r: real)
    ensures r == AbsoluteReward(QueueMetrics(totalQueue as real, totalWait), QueueMetrics(0.0, 0.0))
    ensures totalWait >= 0.0 ==> r <= -0.7 * (totalQueue as real) && r <= 0.0
  {
    -(0.7 * (totalQueue as real) + 0.3 * totalWait)
  }

  // ---------------------------------------------------------------- delta shaping

  /** `prev_metrics` of rl/env_utils.py: total halting "q" and total waiting "w". */
  datatype Totals = Totals(q: nat, w: real)

  function CurrentTotals(rs: seq<LaneReading>): Totals {
    Totals(TotalHalting(rs), TotalWaiting(rs))
  }

  /** `compute_reward(lanes, prev_metrics)` of rl/env_utils.py: rewards the drop in queue and in
      waiting since `prev` plus the vehicles on the lanes, and hands back the current totals
      as the next `prev_metrics`. */
  function DeltaReward(rs: seq<LaneReading>, prev: Totals): (out: (real, Totals))
    ensures out.1 == CurrentTotals(rs)
    ensures prev == CurrentTotals(rs) ==> out.0 == 0.2 * (TotalVehicles(rs) as real)
    ensures TotalHalting(rs) <= prev.q && TotalWaiting(rs) <= prev.w ==> out.0 >= 0.0
  {
    var totalQ := TotalHalting(rs);
    var totalW := TotalWaiting(rs);
    var throughput := TotalVehicles(rs);
    var dq := (prev.q - totalQ) as real;
    var dw := prev.w - totalW;
    (0.4 * dw + 0.4 * dq + 0.2 * (throughput as real), Totals(totalQ, totalW))
  }

  lemma DeltaRewardExample()
    ensures DeltaReward([LaneReading(6, 40.0, 3, 0.0)], Totals(10, 50.0)).0 == 6.2
  {
    var rs := [LaneReading(6, 40.0, 3, 0.0)];
    assert rs[1..] == [];
  }

  /** The rewards of a run of decisions, each reading the totals the previous one returned. */
  function RewardRun(prev: Totals, obs: seq<seq<LaneReading>>): (rewards: seq<real>)
    ensures |rewards| == |obs|
    decreases |obs|
  {
    if obs == [] then []
    else
      var (r, next) := DeltaReward(obs[0], prev);
      [r] + RewardRun(next, obs[1..])
  }

  function ThroughputSum(obs: seq<seq<LaneReading>>): nat {
    if obs == [] then 0 else TotalVehicles(obs[0]) + ThroughputSum(obs[1..])
  }

  lemma {:induction false} ThroughputSumAppend(obs: seq<seq<LaneReading>>, o: seq<LaneReading>)
    ensures ThroughputSum(obs + [o]) == ThroughputSum(obs) + TotalVehicles(o)
  {
    if obs == [] {
      assert [] + [o] == [o];
    } else {
      assert (obs + [o])[1..] == obs[1..] + [o];
      ThroughputSumAppend(obs[1..], o);
    }
  }

  /** Threading `prev_metrics` makes the rewards telescope: their sum depends only on the
      first and the last totals and on the summed throughput. */
  lemma {:induction false} RewardRunTelescopes(prev: Totals, obs: seq<seq<LaneReading>>)
    requires obs != []
    ensures var last := CurrentTotals(obs[|obs| - 1]);
      SumReals(RewardRun(prev, obs))
        == 0.4 * ((prev.q - last.q) as real) + 0.4 * (prev.w - last.w)
           + 0.2 * (ThroughputSum(obs) as real)
    decreases |obs|
  {
    var next := CurrentTotals(obs[0]);
    var r := DeltaReward(obs[0], prev).0;
    assert RewardRun(prev, obs) == [r] + RewardRun(next, obs[1..]);
    SumRealsCons(r, RewardRun(next, obs[1..]));
    if |obs| > 1 {
      RewardRunTelescopes(next, obs[1..]);
      assert obs[1..][|obs[1..]| - 1] == obs[|obs| - 1];
    }
  }

  // ---------------------------------------------------------------- clipped reward

  function SwitchPenalty(phaseChanged: bool): real {
    if phaseChanged then -0.2 else 0.0
  }

  /** The reward of rl/utils.py before `np.clip`. */
  function RawClippedReward(prevWait: real, currWait: real, arrived: int, phaseChanged: bool): real {
    (prevWait - currWait) / 100.0 + (arrived as real) / 10.0 + SwitchPenalty(phaseChanged)
  }

  function Clip(x: real, lo: real, hi: real): real
    requires lo <= hi
  {
    if x < lo then lo else if x > hi then hi else x
  }

  /** `compute_reward(prev_wait, curr_wait, arrived, phase_changed)` of rl/utils.py. */
  function ClippedReward(prevWait: real, currWait: real, arrived: int, phaseChanged: bool): (r: real)
    ensures -1.0 <= r <= 1.0
    ensures -1.0 <= RawClippedReward(prevWait, currWait, arrived, phaseChanged) <= 1.0 ==>
      r == RawClippedReward(prevWait, currWait, arrived, phaseChanged)
    ensures RawClippedReward(prevWait, currWait, arrived, phaseChanged) > 1.0 ==> r == 1.0
    ensures RawClippedReward(prevWait, currWait, arrived, phaseChanged) < -1.0 ==> r == -1.0
  {
    Clip(RawClippedReward(prevWait, currWait, arrived, phaseChanged), -1.0, 1.0)
  }

  /** The penalty is there exactly when the phase changed, and is then 0.2. */
  lemma SwitchPenaltyExactlyOnChange(prevWait: real, currWait: real, arrived: int, phaseChanged: bool)
    ensures RawClippedReward(prevWait, currWait, arrived, phaseChanged)
      == RawClippedReward(prevWait, currWait, arrived, false) - (if phaseChanged then 0.2 else 0.0)
    ensures SwitchPenalty(phaseChanged) != 0.0 <==> phaseChanged
  {
  }

  /** Non-decreasing in `arrived` and `prev_wait`, non-increasing in `curr_wait`. */
  lemma ClippedRewardMonotone(
    prev1: real, curr1: real, arrived1: int,
    prev2: real, curr2: real, arrived2: int, phaseChanged: bool)
    requires prev1 <= prev2 && curr2 <= curr1 && arrived1 <= arrived2
    ensures ClippedReward(prev1, curr1, arrived1, phaseChanged)
      <= ClippedReward(prev2, curr2, arrived2, phaseChanged)
  {
    assert RawClippedReward(prev1, curr1, arrived1, phaseChanged)
      <= RawClippedReward(prev2, curr2, arrived2, phaseChanged);
  }
}
