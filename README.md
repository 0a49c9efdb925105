# ML-Traffic-Signal-Optimization, modelled in Dafny

This project models the decision core of a single-intersection traffic-signal controller. A DQN
agent picks how long to hold the next green phase (10 to 60 simulation steps). It learns from one
of three reward policies, and the same agent is then driven by SUMO lane readings, by video
counts, or by a mix of both. Two fixed-time baselines and a dataset collector share the same
simulation loop.

The model is organised by source file:

- **Agent** (`rl/agent.py`). `DQNAgent` is a class with the agent's fields.
  - The networks are parameter values read through an abstract forward function `QNet`.
  - The Adam/MSE step is an abstract function `Optimizer`.
  - The replay memory is a bounded sequence with deque eviction.
  - Epsilon decays with a floor, and the target network is copied every 1000 learning steps.
- **Rewards** (`rl/reward.py`, `rl/env_utils.py`, `rl/utils.py`). The absolute cost, the delta
  shaping that threads `prev_metrics`, and the clipped reward with a switch penalty. They are
  computed over exact reals.
- **StateEncoding** (`get_state`, `compute_wait`, `get_controlled_lanes`). Per-lane triples
  concatenated in lane order, lane totals, and lane deduplication.
- **Sim** (`Sumo`). The simulator as a class whose readings are functions of a `Scenario`:
  - the step counter since the last (re)load;
  - the phase commands issued so far.

  A reading after step `t` sees the commands issued before `t` (`IssuedBefore`).
- **Schedule**. What the decision loops share:
  - the action set and phase cycling;
  - the hold loop cut at the 2000-step budget;
  - the arithmetic showing that a budget filled with holds of 10 to 60 steps takes 34 to 200
    decisions.
- **Training, Evaluation, VisionToSumo, HybridControl, FixedControl, FixedTimer, CollectData.**
  The scripts `train_rl.py`, `eval_rl.py`, `control/vision_to_sumo.py`,
  `control/hybrid_control.py`, `control/fixed_control.py`, `fixed_control.py` and
  `collect_data.py`. Each is an imperative loop whose invariant ties the script's counters and
  logs to the scenario's readings.
- **ControlLog**. The module-level `log` dictionary of six lists.
- **Metrics**. The `MetricsLogger` class of `metrics.py`, over maps, with an order-free sum of
  map values.
- **VisionSensor** (`sensors/vision_sensor.py`). The count-to-metrics proxy, and the capture
  position that rewinds at the end of the video.
- **VisionInference** (`vision/rl_inference_video.py`). The state built from lane counts in
  sorted lane order, and the greedy frame-by-frame decision loop.

Randomness (the exploration draw, the random action and the replay sample) is nondeterministic
choice. File I/O for models and logs appears as parameters: `saved` parameters and returned logs.

The scripts that fail at run time are modelled as error outcomes:

- `control/hybrid_control.py` hard-codes a 12-value state. With one or two controlled lanes its
  state has another length, and the network refuses it; the model returns `StateSizeMismatch`.
- `vision/rl_inference_video.py` fails the same way on a frame that does not report exactly
  four lanes.
- `fixed_control.py` cycles phases with `% 4`. SUMO refuses a phase index outside the
  program, so a switch that computes a phase outside the program ends the run with
  `PhaseRejected`; that can only happen to a light with fewer than four phases.

## Model

| member | source | states |
|---|---|---|
| Agent.ArgMax | rl/agent.py:39 | `torch.argmax` returns an index holding the maximum value, and no earlier index holds it |
| Agent.MaxOf | rl/agent.py:57 | `max(1)[0]` is attained by some entry and bounds every entry |
| Agent.Decay | rl/agent.py:65-66 | epsilon is unchanged at or below 0.05; above it, it strictly decreases and stays above 0.05·0.995 |
| Agent.EpsilonBounds | rl/agent.py:65-66 | starting from 1.0, epsilon stays within [0.05·0.995, 1.0] and never increases by one learning step |
| Agent.EpsilonNonIncreasing | rl/agent.py:65-66 | more learning steps never give a larger epsilon |
| Agent.EpsilonFrozenBelowFloor | rl/agent.py:65-66 | once epsilon is ≤ 0.05 it never changes again |
| Agent.Appended | rl/agent.py:41-42 | appending to the `deque(maxlen=50000)` grows it by one until the capacity, and then keeps the size |
| Agent.AppendedKeepsNewest | rl/agent.py:22 | after one append, the memory is the newest elements of old memory plus the new transition, in order |
| Agent.RememberAllKeepsNewest | rl/agent.py:22 | after any number of appends, the memory holds exactly the newest 50000 transitions in arrival order |
| Agent.NewestIsSuffix | rl/agent.py:22 | the newest transitions of a history are exactly its last min(length, 50000) ones |
| Agent.NewestAfterRemembering | rl/agent.py:41-42 | a memory holding the newest transitions of a history, after more appends, holds the newest of the longer history |
| Agent.OverflowEvictsOldest | rl/agent.py:22 | 50001 appends to an empty memory evict exactly the first transition |
| Agent.SamplePositions | rl/agent.py:48 | `random.sample` yields k distinct positions, all inside the memory (sampling without replacement) |
| Agent.Batch | rl/agent.py:48-49 | batch element i is the memory element at sampled position i |
| Agent.BootstrapTarget | rl/agent.py:57-58 | the target is `r + 0.99·max_a Q_target(next)[a]`: attained by one action and bounding all of them |
| Agent.Targets | rl/agent.py:56-58 | every batch target bootstraps from the target parameters, one target per transition |
| Agent.DQNAgent.constructor | rl/agent.py:11-32 | epsilon 1.0, step count 0, empty memory, and target parameters equal to the live ones |
| Agent.DQNAgent.Act | rl/agent.py:34-39 | the action is below `action_size`; the random pick when the draw is below epsilon (always when epsilon ≥ 1), else the greedy argmax (always when epsilon ≤ 0) |
| Agent.DQNAgent.Remember | rl/agent.py:41-42 | the memory becomes the deque append of the transition |
| Agent.DQNAgent.Load | rl/agent.py:76-80 | the live parameters become the loaded ones |
| Agent.DQNAgent.Replay | rl/agent.py:44-70 | below 64 memories nothing changes. Otherwise: 64 distinct positions; targets from the old target network; one optimiser step; epsilon decays; the step count grows by exactly one; the target is copied exactly when the new count is a multiple of 1000 |
| Rewards.AbsoluteReward | rl/reward.py:1-7 | `-(0.7·queue + 0.3·waiting)` is ≤ 0 for non-negative metrics, and then 0 exactly when both the queue and the waiting time are 0 |
| Rewards.AbsoluteRewardIgnoresPrevious | rl/reward.py:1-7 | `prev_metrics` has no influence on the result |
| Rewards.AbsoluteRewardExample | rl/reward.py:5 | queue 5 and waiting 10 give -6.5 |
| Rewards.AbsoluteRewardMonotone | rl/reward.py:5 | the reward is non-increasing in queue and in waiting |
| Rewards.ControlReward | control/hybrid_control.py:146-148 | the inline cost of the control scripts is the absolute reward of the summed lanes, at most -0.7 times the queue |
| Rewards.DeltaReward | rl/env_utils.py:17-31 | the returned `prev_metrics` is the current totals; unchanged totals give 0.2 × the vehicle count; falling totals give a non-negative reward |
| Rewards.DeltaRewardExample | rl/env_utils.py:22-29 | one lane going from (q 10, w 50) to (q 6, w 40) with 3 vehicles gives 6.2 |
| Rewards.RewardRunTelescopes | rl/env_utils.py:22-31 | over a chain of decisions the rewards sum to `0.4(q0−qn) + 0.4(w0−wn) + 0.2·Σ throughput` |
| Rewards.ClippedReward | rl/utils.py:16-23 | the result lies in [-1, 1], equals the raw sum when that lies in [-1, 1], and is the nearer bound otherwise |
| Rewards.SwitchPenaltyExactlyOnChange | rl/utils.py:20 | the penalty −0.2 is applied if and only if the phase changed |
| Rewards.ClippedRewardMonotone | rl/utils.py:18-23 | the reward is non-decreasing in `arrived` and `prev_wait`, and non-increasing in `curr_wait` |
| StateEncoding.EncodedLayout | rl/env_utils.py:8-15 | the state has length 3·lanes; entry 3i+k is lane i's halting count, waiting time or vehicle count |
| StateEncoding.EncodeLanes | rl/utils.py:4-11 | the loop of `extend` calls builds the layout above from the lanes' readings, in lane order |
| StateEncoding.TotalWaiting | rl/utils.py:13-14 | `compute_wait` is a non-negative sum of the lanes' waiting times |
| StateEncoding.TotalWaitingBoundsEach | rl/utils.py:13-14 | the sum is never below any one lane's waiting time |
| StateEncoding.DistinctLanes | rl/env_utils.py:4-6 | `list(set(...))` has no duplicates, the same lanes, and one entry per distinct lane |
| Sim.LaneReadings | train_rl.py:26-27 | one reading per lane, in lane order, each the scenario's reading of that lane |
| Sim.IssuedBeforeAll | train_rl.py:40-46 | a reading taken after every issued command sees all of them |
| Sim.IssuedBeforeStart | train_rl.py:23-28 | a reading right after a (re)load sees no command |
| Sim.IssuedBeforeIgnoresLater | train_rl.py:40-46 | a command issued at or after step t does not change what a reading at t sees |
| Sim.Sumo.Start | train_rl.py:6 | a fresh simulation stands at step 0 with no commands |
| Sim.Sumo.Load | train_rl.py:23 | reloading returns to step 0 and forgets every command |
| Sim.Sumo.Step | train_rl.py:46 | one simulation step advances the clock by one and issues nothing |
| Sim.Sumo.SetPhase | train_rl.py:40 | `setPhase` of an index inside the program records the command at the current step |
| Schedule.GreenTime | train_rl.py:36 | `action_space[action]` is one of 10, 20, …, 60, namely 10·(action+1) |
| Schedule.NextPhase | train_rl.py:39-40 | `(current+1) % num_phases` lies below the phase count and is the successor in the cycle |
| Schedule.HoldPhase | train_rl.py:43-47 | the hold advances exactly `min(green, MAX_STEPS − sim_step)` steps, never past the budget, and issues no command |
| Schedule.CycledInEffect | train_rl.py:38-47 | when every decision has held its green, every command issued so far is in effect |
| Schedule.CycledStep | train_rl.py:32-47 | one more decision, which sets the phase after the one shown where it is taken and holds its green, extends the record of phase commands and hold ends: decision i is taken where decision i−1's hold ended |
| Schedule.PacedStep | train_rl.py:32-47 | one more hold of 10..60 steps keeps the step count between 10 and 60 per decision, capped at 2000 |
| Schedule.PacedBounds | train_rl.py:32-47 | a 2000-step episode takes between 34 and 200 decisions |
| Training.NoLearningBeforeFullBatch | train_rl.py:53 | before 64 decisions no learning step has happened and epsilon is still 1.0 |
| Training.RememberAndReplay | train_rl.py:52-53 | each decision remembers its transition (deque append) and replays once: step count max(0, d−63), epsilon after that many decays |
| Training.Decide | train_rl.py:33-50 | the state is the encoded readings before the hold; the phase command cycles the light; the hold is cut at 2000; the reward and new `prev_metrics` are the delta reward of the readings after the hold |
| Training.TransitionNow | train_rl.py:33-52 | the transition of a decision taken now holds the encoded readings now, its action, the delta reward of the readings where its hold ends against the totals now, and the encoded readings there |
| Training.LearnedStep | train_rl.py:32-53 | one decision that cycles the phase and is scored after its hold extends the episode's record: transition i is decision i's, scored from where it was taken to where its hold ended |
| Training.FirstScoredAgainstStart | train_rl.py:25-28 | the first transition of an episode is scored against the totals the reloaded simulation shows at step 0 |
| Training.LearningDecision | train_rl.py:33-53 | one loop pass keeps the pacing, the learning count, the memory as the appends of the recorded transitions, `prev_metrics` as the totals now, and the episode's record |
| Training.RunEpisode | train_rl.py:23-53 | reload; run to exactly 2000 steps in 34 to 200 decisions; the memory becomes the old memory with each decision's transition appended, and each transition is the encoded readings, action, delta reward and next readings of that decision |
| Training.RecordedEpisode | train_rl.py:22-55 | one episode keeps the memory as the newest transitions of everything remembered so far, and epsilon never increases |
| Training.Train | train_rl.py:22-57 | 50 episodes of 34..200 decisions each, each recorded against the simulation; the memory holds the newest transitions of all episodes; the logged epsilons never increase and lie in [0.05·0.995, 1] |
| Evaluation.MeasuredAfterStep | eval_rl.py:41-45 | a step followed by measuring extends the per-step waiting and vehicle records by that step's readings |
| Evaluation.SumsAppend | eval_rl.py:44-45 | each measurement adds itself exactly once to the running sums |
| Evaluation.MeasuredAfterCommand | eval_rl.py:35 | a phase command leaves the measurements already taken unchanged |
| Evaluation.StepMeasuring | eval_rl.py:41-45 | one simulated step and one accumulation of `total_wait` and `throughput` |
| Evaluation.HoldMeasuring | eval_rl.py:38-47 | a hold measures once for each step it advances, cut at 2000 |
| Evaluation.GreedyDecision | eval_rl.py:28-47 | the state is the encoded readings before the hold; with epsilon 0 the action is its greedy argmax; the command sets the next phase in the cycle; the hold's steps are all measured |
| Evaluation.DecidedStep | eval_rl.py:27-47 | a greedy decision on the readings now, cycling the phase shown now, extends the record: decision i was greedy on the encoded readings where decision i−1's hold ended |
| Evaluation.RecordedDecision | eval_rl.py:28-47 | one loop pass keeps the pacing, the per-step measurements, the sums and the record of greedy decisions |
| Evaluation.EvaluateLoop | eval_rl.py:27-47 | the loop ends at exactly 2000 steps with one measurement per step and 34..200 decisions, each greedy on the encoded readings where it was taken and cycling the phase; no learning |
| Evaluation.Evaluate | eval_rl.py:9-51 | the loaded agent has epsilon 0, an untouched memory and step count; every decision is greedy on the readings where it was taken; the average divides the 2000 per-step waits by 2000 |
| VisionToSumo.TrackedRewardTelescopes | control/vision_to_sumo.py:93-94 | the summed reward equals the telescoped delta rewards from the initial totals |
| VisionToSumo.CyclingStep | control/vision_to_sumo.py:78-90 | a decision that sets `(current_phase + 1) % num_phases` and holds its action's green, cut at 2000, extends the record of commands and holds |
| VisionToSumo.SteeredStep | control/vision_to_sumo.py:74-95 | one greedy, cycled and scored decision keeps the pacing, the reward tracking, the greedy record and the phase-cycle record |
| VisionToSumo.ScoredDecision | control/vision_to_sumo.py:74-95 | one greedy decision on the readings now; the command sets the next phase in the cycle; the hold is the action's green cut at 2000; the delta reward of the readings after the hold is added to the total |
| VisionToSumo.ControlLoop | control/vision_to_sumo.py:61-103 | `prev_metrics` starts from the actual initial totals; the loop ends at exactly 2000 steps after 34..200 decisions, each greedy on the readings where it was taken, setting the next phase and holding its action's green |
| VisionToSumo.Control | control/vision_to_sumo.py:28-107 | no light ends the run before any step; otherwise every decision is greedy, sets the next phase and holds its action's green; the total is the reward run over the recorded readings, and the average divides by a decision count ≥ 34 |
| ControlLog.RunLog.constructor | control/hybrid_control.py:9 | the run log starts with six empty lists |
| ControlLog.RunLog.Record | control/hybrid_control.py:155-162 | one entry appended to each of the six lists, so they stay of equal length |
| HybridControl.SumoLanesOf | control/hybrid_control.py:99 | the SUMO lanes are the first three lanes, or all of them when there are fewer |
| HybridControl.SumoLanesFit | control/hybrid_control.py:99-106 | the state is at most 12 values, exactly 12 iff at least three lanes are controlled; the SUMO lanes stay distinct |
| HybridControl.VideoTriple | control/hybrid_control.py:62-65 | the video triple is `[c, 2c, max(1, 15−c)]`, with the proxy speed in [1, 15] |
| HybridControl.HybridLayout | control/hybrid_control.py:59-77 | length 3 + 3·lanes, the video triple first, then each SUMO lane's halting count, waiting time and mean speed |
| HybridControl.HybridState | control/hybrid_control.py:47-77 | the appending loop builds exactly that layout from the missing-key-safe video count and the lanes' readings |
| HybridControl.HybridDecision | control/hybrid_control.py:124-148 | a greedy green on the hybrid state; the next phase in the cycle; a hold cut at 2000; the queue and absolute cost of the SUMO lanes after the hold |
| HybridControl.LoggedPhaseCycled | control/hybrid_control.py:134-136 | logged phase i is the one after the phase shown where decision i was taken, inside the program |
| HybridControl.LoggedNow | control/hybrid_control.py:124-162 | the entry of a decision taken now holds the hybrid state of the readings now, the greedy green, the phase set, and the SUMO lanes' queue and cost where its hold ends |
| HybridControl.HybridLoggedStep | control/hybrid_control.py:122-162 | one logged decision extends the log: entry i is decision i's, taken where decision i−1's hold ended |
| HybridControl.ProgressedStep | control/hybrid_control.py:122-162 | a decision taken where the last hold ended, and logged, keeps the log, the phase commands, the pacing and the reward total in step |
| HybridControl.DecideAndLog | control/hybrid_control.py:124-162 | one loop pass advances the clock and appends exactly one entry per list |
| HybridControl.HybridLoop | control/hybrid_control.py:122-171 | the loop ends at exactly 2000 steps after 34..200 decisions, each logged once |
| HybridControl.Run | control/hybrid_control.py:79-178 | no lanes returns at once; fewer than three lanes is a state-size error; otherwise entry i holds the greedy green on the hybrid state of frame i and of the SUMO readings where decision i was taken, the next phase in the cycle, and the SUMO lanes' queue and cost where its hold ended; the last step is 2000 and the total is the sum of the logged rewards |
| FixedControl.FixedLoggedBounds | control/fixed_control.py:100-110 | the step logged at entry i is i+1, every logged green is 30, and every logged reward is ≤ -0.7 times the logged queue (so ≤ 0) |
| FixedControl.CounterArithmetic | control/fixed_control.py:86-97 | after k steps the counter is `(30 − k mod 30) mod 30`, in [0, 29], and the switch count is `ceil(k/30)` (67 at 2000) |
| FixedControl.FixedLoggedAfterStep | control/fixed_control.py:95-111 | a step followed by logging appends the entry the readings after that step determine |
| FixedControl.SwitchedAfterCommand | control/fixed_control.py:86-91 | a switch when the counter is 0 extends the schedule of switches at steps 0, 30, 60, … |
| FixedControl.SwitchIfDue | control/fixed_control.py:86-92 | the phase switches exactly when the counter is 0, and the counter then becomes 30 |
| FixedControl.FixedIteration | control/fixed_control.py:79-111 | one iteration: at most one switch, one step, a decremented counter, and exactly one log entry |
| FixedControl.Run | control/fixed_control.py:44-128 | no lanes returns at once; otherwise 2000 log entries, 67 switches at steps 0, 30, …, 1980, and the total is the sum of the logged rewards |
| FixedTimer.TalliedStep | fixed_control.py:20-21 | one more `update` extends the logger's state by the newest step's report |
| FixedTimer.TimerSwitchedCommand | fixed_control.py:25-28 | a switch at step 30j goes to `(phase+1) % 4` and extends the switch schedule |
| FixedTimer.StepAndUpdate | fixed_control.py:20-21 | one simulation step followed by exactly one `logger.update` |
| FixedTimer.SwitchIfDue | fixed_control.py:25-28 | a switch when `step >= current_green_end`, after which the end is `step + 30`; a phase outside the program is rejected |
| FixedTimer.TimerIteration | fixed_control.py:19-30 | one iteration: a step, an update, and a switch when due |
| FixedTimer.TimerLoop | fixed_control.py:19-30 | 2000 iterations, each with one update, and switches exactly at steps 0, 30, …, 1980 |
| FixedTimer.Run | fixed_control.py:13-32 | with four or more phases the run finishes, after 67 switches; the results are the logger's over all 2000 updates |
| Metrics.SumValuesRemove | metrics.py:23 | the sum of a dictionary's values does not depend on the order they are taken in |
| Metrics.AddWaitingKeys | metrics.py:12-13 | after the waiting loop the keys are the old keys plus every present vehicle |
| Metrics.AddWaitingEntry | metrics.py:12-13 | each vehicle's total grows by exactly the seconds reported for it; absent vehicles are unchanged |
| Metrics.AddWaitingConserves | metrics.py:12-13 | the totals together grow by exactly the reported seconds |
| Metrics.StampFacts | metrics.py:15-19 | departure and arrival stamps carry the clock for listed vehicles, overwrite older entries, and keep the others |
| Metrics.AccumulatedTotals | metrics.py:11-20 | over a run, the waiting totals add up to every reported second, and `passed` counts every reported arrival |
| Metrics.MetricsLogger.constructor | metrics.py:5-9 | empty maps and `passed = 0` |
| Metrics.MetricsLogger.Update | metrics.py:11-20 | the logger's new state is the one-step update of its old state |
| Metrics.MetricsLogger.Results | metrics.py:22-29 | the mean of the waiting totals, the mean travel time of vehicles seen both departing and arriving (each over max(1, count)), and `passed` |
| Metrics.SumOf | metrics.py:23 | the loop over the dictionary computes the order-free sum of its values |
| Metrics.TravelSummary | metrics.py:24-28 | the sum and count of the travel times of vehicles present in both maps |
| Metrics.EmptyResults | metrics.py:23-28 | a logger that saw nothing reports 0.0 for both means |
| VisionSensor.MetricsFor | sensors/vision_sensor.py:25-29 | queue = c, waiting = 10c, speed = max(1, 15 − c) in [1, 15] |
| VisionSensor.MetricsMonotone | sensors/vision_sensor.py:25-29 | more vehicles never lower queue or waiting, nor raise speed |
| VisionSensor.VisionLaneSensor.constructor | sensors/vision_sensor.py:8-11 | the capture starts at the first frame |
| VisionSensor.VisionLaneSensor.GetMetrics | sensors/vision_sensor.py:13-29 | call n reports the metrics of the lane's count (0 when absent) in frame n modulo the video length, rewinding at the end |
| VisionSensor.ReadPosition | sensors/vision_sensor.py:14-17 | the capture position before call n determines the frame that call reads |
| VisionInference.Least | vision/rl_inference_video.py:55 | the least lane id of a non-empty key set |
| VisionInference.SortedKeysFacts | vision/rl_inference_video.py:55 | `sorted(keys)` lists every key exactly once, strictly increasing |
| VisionInference.CountsEncodedLayout | vision/rl_inference_video.py:57 | lane i's triple is `[count, 10·count, count]`, at entries 3i..3i+2 |
| VisionInference.FrameStateLayout | vision/rl_inference_video.py:54-58 | the state has length 3·(number of lanes), lanes in sorted order, each with its triple |
| VisionInference.EncodeCounts | vision/rl_inference_video.py:54-58 | the extending loop builds exactly that state |
| VisionInference.DecideFrame | vision/rl_inference_video.py:54-62 | a state of the wrong width is reported; otherwise the green is the greedy choice from 10..60 |
| VisionInference.Infer | vision/rl_inference_video.py:22-84 | every decided frame got the greedy green for its state, in `ACTIONS`; the loop ends with the video, on 'q', or at a frame of the wrong width |
| CollectData.EveryThirdEncoded | collect_data.py:33-35 | `sum(state[::3])` is the lanes' total halting count |
| CollectData.GreenForReadings | collect_data.py:35-36 | `green_time` is 10 if fewer than 5 vehicles halt, else 15 |
| CollectData.Row | collect_data.py:39 | a row is the state followed by `green_time` |
| CollectData.SampledStep | collect_data.py:38-40 | a sample at the end of the current green appends its row and moves the end by that green |
| CollectData.SampledBounds | collect_data.py:20-42 | after 2000 steps there are between 134 and 200 rows |
| CollectData.CollectStep | collect_data.py:20-42 | one step: simulate, encode, and sample exactly when the green has run out |
| CollectData.Collect | collect_data.py:15-42 | 2000 steps; row i is sampled after step 1 + the sum of the earlier greens, so the gaps are 10 or 15 |

## Left out

- All TraCI and sumolib calls are replaced by the `Sumo` class. Its readings are functions of
  the scenario, the step count and the command history. SUMO's own dynamics are not modelled.
  Process start-up (`start_sumo`, `subprocess`, `time.sleep`, `traci.init`, `traci.close`) is
  not modelled either.
- The torch internals are abstract functions: the DQN architecture, Adam, the MSE loss,
  gradients, device handling and `eval()`. `save` is the returned live parameters, and `load`
  takes the parameters as an argument.
- float32 storage, `np.clip` and float rounding are replaced by exact reals. Epsilon and the
  rewards are exact.
- Random number generation is nondeterministic choice. Its distribution (uniform exploration,
  uniform sampling) is not modelled.
- `StateEncoding.DistinctLanes`: the lane order of `list(set(...))` is unspecified in the source
  and is any order here.
- Vehicle detection and lane mapping arrive as per-frame lane counts:
  - a sequence for the vision sensor and the inference loop;
  - a function of the decision index for the hybrid controller;
  - a function of the loop iteration (one per simulated step) for control/fixed_control.py.

  This covers `VehicleDetector`, `assign_to_lanes` and `get_lane_density`. The cv2 capture,
  drawing, display and key handling are left out; 'q' is a parameter.
- Pickle and CSV dumps are left out: the module-level dump of control/hybrid_control.py, the
  fixed-control log file and the collected dataset. The model returns the log and the rows.
- Console printing is left out, including the every-10-decisions progress lines.
- Also outside this model:
  - the dashboards;
  - compare.py;
  - train_model.py;
  - vision/fixed_inference_video.py;
  - vision/video_test.py;
  - sensors/base.py;
  - sensors/sumo_sensor.py.
- A network without a traffic light makes `getIDList()[0]` raise an IndexError. The scripts
  other than control/vision_to_sumo.py are modelled with the precondition that a light exists.
  The scripts that cycle with `% num_phases` also require that light to have at least one phase
  (`Usable`); collect_data.py and fixed_control.py need only the light. control/vision_to_sumo.py
  models its own check for the light and requires a phase only when a light exists.
- `VisionSensor.VisionLaneSensor.GetMetrics`: on a video with no frame at all, the source hands
  the detector a missing frame. The model returns `None` there.
- `HybridControl.Run` and `VisionInference.Infer`: a state whose width differs from 12 makes the
  network raise in its first forward pass. The model returns a `StateSizeMismatch` outcome.
- `FixedTimer.Run`: when a switch computes a phase outside the program, SUMO rejects it and the
  script raises. The model stops with `PhaseRejected`.
