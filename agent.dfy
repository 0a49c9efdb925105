/** The DQN agent of rl/agent.py with its networks abstracted: a network is a parameter value
    read through the architecture's forward function, and the Adam step is an opaque function
    of the live parameters, the optimizer's own state, the batch and the batch targets. */
module Agent {
  import opened Seqs

  type Params = seq<real>
  type OptimizerState = seq<real>

  /** The architecture's forward pass: per-action values of a state under some parameters. */
  type QNet = (Params, seq<real>) -> seq<real>

  /** One Adam step on the MSE loss between the live network's values of the taken actions
      and the given targets; it yields the new live parameters and optimizer state. */
  type Optimizer = (Params, OptimizerState, seq<Transition>, seq<real>) -> (Params, OptimizerState)

  datatype Transition = Transition(state: seq<real>, action: nat, reward: real, next: seq<real>)

  const Gamma: real := 0.99
  const EpsilonStart: real := 1.0
  const EpsilonMin: real := 0.05
  const EpsilonDecay: real := 0.995
  const BatchSize: nat := 64
  const Capacity: nat := 50000
  const TargetSyncPeriod: nat := 1000

  /** The network has one output per action, whatever the parameters and the input. */
  ghost predicate Shaped(forward: QNet, actionSize: nat) {
    forall p, s :: |forward(p, s)| == actionSize
  }

  predicate WellShaped(t: Transition, stateSize: nat, actionSize: nat) {
    |t.state| == stateSize && |t.next| == stateSize && t.action < actionSize
  }

  // ---------------------------------------------------------------- greedy choice

  /** `torch.argmax`: the first index holding the largest value. */
  function ArgMax(v: seq<real>): (i: nat)
    requires |v| > 0
    ensures i < |v|
    ensures forall j :: 0 <= j < |v| ==> v[j] <= v[i]
    ensures forall j :: 0 <= j < i ==> v[j] < v[i]
    decreases |v|
  {
    if |v| == 1 then 0
    else
      var k := ArgMax(v[..|v| - 1]);
      if v[|v| - 1] > v[k] then |v| - 1 else k
  }

  /** `max(1)[0]` on one row: the largest value. */
  function MaxOf(v: seq<real>): (m: real)
    requires |v| > 0
    ensures exists j :: 0 <= j < |v| && v[j] == m
    ensures forall j :: 0 <= j < |v| ==> v[j] <= m
  {
    v[ArgMax(v)]
  }

  // ---------------------------------------------------------------- exploration schedule

  /** `if epsilon > epsilon_min: epsilon *= epsilon_decay`. */
  function Decay(epsilon: real): (e: real)
    ensures epsilon <= EpsilonMin ==> e == epsilon
    ensures EpsilonMin < epsilon ==> EpsilonMin * EpsilonDecay < e < epsilon
  {
    if epsilon > EpsilonMin then epsilon * EpsilonDecay else epsilon
  }

  /** Epsilon after `n` learning steps of a freshly built agent. */
  function EpsilonAfter(n: nat): real {
    if n == 0 then EpsilonStart else Decay(EpsilonAfter(n - 1))
  }

  /** Epsilon never increases and, starting from 1.0, never drops below 0.05 * 0.995. */
  lemma {:induction false} EpsilonBounds(n: nat)
    ensures EpsilonMin * EpsilonDecay <= EpsilonAfter(n) <= EpsilonStart
    ensures EpsilonAfter(n + 1) <= EpsilonAfter(n)
  {
    if n > 0 {
      EpsilonBounds(n - 1);
    }
  }

  /** More learning steps never give a larger epsilon. */
  lemma {:induction false} EpsilonNonIncreasing(n: nat, m: nat)
    requires n <= m
    ensures EpsilonAfter(m) <= EpsilonAfter(n)
    decreases m - n
  {
    if n < m {
      EpsilonNonIncreasing(n, m - 1);
      EpsilonBounds(m - 1);
    }
  }

  /** Once at or below the floor, epsilon stays where it is. */
  lemma {:induction false} EpsilonFrozenBelowFloor(n: nat, k: nat)
    requires EpsilonAfter(n) <= EpsilonMin
    ensures EpsilonAfter(n + k) == EpsilonAfter(n)
  {
    if k > 0 {
      EpsilonFrozenBelowFloor(n, k - 1);
      assert EpsilonAfter(n + k) == Decay(EpsilonAfter(n + k - 1));
    }
  }

  // ---------------------------------------------------------------- replay memory

  /** `deque(maxlen=Capacity).append(t)`: the newest `Capacity` elements of `memory + [t]`. */
  function Appended(memory: seq<Transition>, t: Transition): (m: seq<Transition>)
    requires |memory| <= Capacity
    ensures |m| == Min(|memory| + 1, Capacity)
  {
    if |memory| < Capacity then memory + [t] else memory[1..] + [t]
  }

  /** The appended element is the newest; the others are the newest of the old memory. */
  lemma AppendedKeepsNewest(memory: seq<Transition>, t: Transition)
    requires |memory| <= Capacity
    ensures var m := Appended(memory, t);
      m == (memory + [t])[|memory| + 1 - |m|..]
  {
    var m := Appended(memory, t);
    if |memory| == Capacity {
      SliceOfConcat(memory, [t], 1);
    }
  }

  /** The memory after appending each of `ts` in turn. */
  function RememberAll(memory: seq<Transition>, ts: seq<Transition>): (r: seq<Transition>)
    requires |memory| <= Capacity
    ensures |r| <= Capacity
  {
    if ts == [] then memory else Appended(RememberAll(memory, ts[..|ts| - 1]), ts[|ts| - 1])
  }

  lemma SliceOfConcat<T>(a: seq<T>, b: seq<T>, d: nat)
    requires d <= |a|
    ensures (a + b)[d..] == a[d..] + b
  {
  }

  lemma SliceOfSlice<T>(a: seq<T>, d: nat, k: nat)
    requires d + k <= |a|
    ensures a[d..][k..] == a[d + k..]
  {
  }

  /** Appending to the newest `Capacity` of a history keeps the newest `Capacity` of the
      extended history. */
  lemma NewestStep(history: seq<Transition>, r: seq<Transition>, t: Transition)
    requires r == history[|history| - Min(|history|, Capacity)..]
    ensures var all := history + [t];
      Appended(r, t) == all[|all| - Min(|all|, Capacity)..]
  {
    var s := |history| - Min(|history|, Capacity);
    var m := Appended(r, t);
    var e := |r| + 1 - |m|;
    AppendedKeepsNewest(r, t);
    SliceOfConcat(history, [t], s);
    SliceOfSlice(history + [t], s, e);
  }

  /** However many transitions are remembered, the memory holds exactly the newest
      `Capacity` of everything appended, in arrival order. */
  lemma {:induction false} RememberAllKeepsNewest(memory: seq<Transition>, ts: seq<Transition>)
    requires |memory| <= Capacity
    ensures var all := memory + ts;
      RememberAll(memory, ts) == all[|all| - Min(|all|, Capacity)..]
  {
    if ts == [] {
      assert memory + ts == memory;
    } else {
      var front, t := ts[..|ts| - 1], ts[|ts| - 1];
      RememberAllKeepsNewest(memory, front);
      NewestStep(memory + front, RememberAll(memory, front), t);
      assert memory + ts == (memory + front) + [t] by {
        assert ts == front + [t];
      }
    }
  }

  /** The newest `Capacity` transitions of a history, in arrival order. */
  function Newest(history: seq<Transition>): (m: seq<Transition>)
    ensures |m| == Min(|history|, Capacity)
    decreases |history|
  {
    if |history| <= Capacity then history else Newest(history[1..])
  }

  /** The newest transitions are the history's last `Capacity` ones. */
  lemma {:induction false} NewestIsSuffix(history: seq<Transition>)
    ensures Newest(history) == history[|history| - Min(|history|, Capacity)..]
    decreases |history|
  {
    if |history| > Capacity {
      NewestIsSuffix(history[1..]);
      SliceOfSlice(history, 1, |history| - 1 - Capacity);
    }
  }

  /** Remembering more transitions in a memory that holds the newest of a history leaves the
      newest of the longer history. */
  lemma NewestAfterRemembering(history: seq<Transition>, ts: seq<Transition>)
    ensures RememberAll(Newest(history), ts) == Newest(history + ts)
  {
    NewestIsSuffix(history);
    NewestIsSuffix(history + ts);
    RememberAllKeepsNewest(Newest(history), ts);
    LastOfLastAppended(history, ts, Capacity);
  }

  /** Keeping the last `n` of a sequence, extending it and keeping the last `n` again keeps the
      last `n` of the extended sequence. */
  lemma LastOfLastAppended<T>(h: seq<T>, ts: seq<T>, n: nat)
    ensures var a := h[|h| - Min(|h|, n)..] + ts;
      a[|a| - Min(|a|, n)..] == (h + ts)[|h + ts| - Min(|h + ts|, n)..]
  {
    var s := |h| - Min(|h|, n);
    var a := h[s..] + ts;
    var k := Min(|a|, n);
    assert h + ts == h[..s] + a by {
      assert h == h[..s] + h[s..];
    }
    assert k == Min(|h + ts|, n);
    assert (h[..s] + a)[|h[..s] + a| - k..] == a[|a| - k..];
  }

  /** Capacity + 1 appends to an empty memory evict exactly the first one. */
  lemma OverflowEvictsOldest(ts: seq<Transition>)
    requires |ts| == Capacity + 1
    ensures RememberAll([], ts) == ts[1..]
  {
    var empty: seq<Transition> := [];
    RememberAllKeepsNewest(empty, ts);
    assert empty + ts == ts;
    assert Min(|ts|, Capacity) == Capacity;
  }

  // ---------------------------------------------------------------- batches

  /** `random.sample(range(n), k)`: k distinct positions below n, chosen nondeterministically. */
  method SamplePositions(n: nat, k: nat) returns (positions: seq<nat>)
    requires k <= n
    ensures |positions| == k
    ensures NoDuplicates(positions)
    ensures forall i :: 0 <= i < k ==> positions[i] < n
  {
    var pool: set<nat> := {};
    var i := 0;
    while i < n
      invariant 0 <= i <= n
      invariant |pool| == i
      invariant forall x :: x in pool ==> x < i
    {
      pool := pool + {i};
      i := i + 1;
    }
    positions := [];
    while |positions| < k
      invariant |positions| <= k
      invariant |positions| + |pool| == n
      invariant NoDuplicates(positions)
      invariant forall x :: x in pool ==> x < n
      invariant forall j :: 0 <= j < |positions| ==> positions[j] < n && positions[j] !in pool
      decreases k - |positions|
    {
      assert pool != {};
      var x :| x in pool;
      positions := positions + [x];
      pool := pool - {x};
    }
  }

  function Batch(memory: seq<Transition>, positions: seq<nat>): (batch: seq<Transition>)
    requires forall i :: 0 <= i < |positions| ==> positions[i] < |memory|
    ensures |batch| == |positions|
    ensures forall i :: 0 <= i < |positions| ==> batch[i] == memory[positions[i]]
  {
    if positions == [] then [] else [memory[positions[0]]] + Batch(memory, positions[1..])
  }

  /** `r + gamma * max_a Q_target(next)[a]`: no action's bootstrap exceeds it, one reaches it. */
  function BootstrapTarget(forward: QNet, targetParams: Params, t: Transition): (y: real)
    requires |forward(targetParams, t.next)| > 0
    ensures forall a :: 0 <= a < |forward(targetParams, t.next)| ==>
      t.reward + Gamma * forward(targetParams, t.next)[a] <= y
    ensures exists a :: (0 <= a < |forward(targetParams, t.next)| &&
      t.reward + Gamma * forward(targetParams, t.next)[a] == y)
  {
    var q := forward(targetParams, t.next);
    var a := ArgMax(q);
    assert forall b :: 0 <= b < |q| ==> Gamma * q[b] <= Gamma * q[a];
    t.reward + Gamma * MaxOf(q)
  }

  /** The batch targets: each one bootstraps from the target parameters only. */
  function Targets(forward: QNet, targetParams: Params, batch: seq<Transition>): (ys: seq<real>)
    requires forall i :: 0 <= i < |batch| ==> |forward(targetParams, batch[i].next)| > 0
    ensures |ys| == |batch|
    ensures forall i :: 0 <= i < |batch| ==> ys[i] == BootstrapTarget(forward, targetParams, batch[i])
  {
    if batch == [] then []
    else [BootstrapTarget(forward, targetParams, batch[0])] + Targets(forward, targetParams, batch[1..])
  }

  // ---------------------------------------------------------------- the agent

  class DQNAgent {
    const stateSize: nat
    const actionSize: nat
    const forward: QNet
    const optimize: Optimizer
    var live: Params
    var target: Params
    var optimizerState: OptimizerState
    var epsilon: real
    var memory: seq<Transition>
    var stepCount: nat

    ghost predicate Valid()
      reads this
    {
      && actionSize > 0
      && Shaped(forward, actionSize)
      && |memory| <= Capacity
      && (forall t :: t in memory ==> WellShaped(t, stateSize, actionSize))
    }

    /** `DQNAgent(state_size, action_size)`: the target network starts as a copy of the live one. */
    constructor (stateSize: nat, actionSize: nat, forward: QNet, optimize: Optimizer,
                 init: Params, optimizerInit: OptimizerState)
      requires actionSize > 0 && Shaped(forward, actionSize)
      ensures Valid()
      ensures this.stateSize == stateSize && this.actionSize == actionSize
      ensures this.forward == forward && this.optimize == optimize
      ensures live == init && target == live && optimizerState == optimizerInit
      ensures epsilon == EpsilonStart && stepCount == 0 && memory == []
    {
      this.stateSize := stateSize;
      this.actionSize := actionSize;
      this.forward := forward;
      this.optimize := optimize;
      live := init;
      target := init;
      optimizerState := optimizerInit;
      epsilon := EpsilonStart;
      memory := [];
      stepCount := 0;
    }

    /** `act(state)`: `draw` is `np.random.rand()`, `pick` is `random.randrange(action_size)`. */
    method Act(state: seq<real>, draw: real, pick: nat) returns (action: nat)
      requires Valid() && |state| == stateSize
      requires 0.0 <= draw < 1.0 && pick < actionSize
      ensures action < actionSize
      ensures draw < epsilon ==> action == pick
      ensures epsilon <= draw ==> action == ArgMax(forward(live, state))
      ensures epsilon <= 0.0 ==> action == ArgMax(forward(live, state))
      ensures 1.0 <= epsilon ==> action == pick
    {
      if draw < epsilon {
        action := pick;
      } else {
        action := ArgMax(forward(live, state));
      }
    }

    /** `remember(s, a, r, s_next)`. */
    method Remember(s: seq<real>, a: nat, r: real, sNext: seq<real>)
      requires Valid() && |s| == stateSize && |sNext| == stateSize && a < actionSize
      modifies this`memory
      ensures Valid()
      ensures memory == Appended(old(memory), Transition(s, a, r, sNext))
    {
      var t := Transition(s, a, r, sNext);
      if |memory| < Capacity {
        memory := memory + [t];
      } else {
        memory := memory[1..] + [t];
      }
    }

    /** `load(path)`: new live parameters; the target network is left as it is. */
    method Load(p: Params)
      modifies this`live
      ensures live == p
    {
      live := p;
    }

    /** `replay()`: skipped below a full batch; otherwise one training step on a batch of
        distinct memory positions, epsilon decay, and a hard target copy every 1000 steps. */
    method Replay() returns (learned: bool, positions: seq<nat>, targets: seq<real>)
      requires Valid()
      modifies this`live, this`target, this`optimizerState, this`epsilon, this`stepCount
      ensures Valid()
      ensures learned <==> BatchSize <= |memory|
      ensures !learned ==>
        && live == old(live) && target == old(target) && optimizerState == old(optimizerState)
        && epsilon == old(epsilon) && stepCount == old(stepCount)
      ensures learned ==>
        && |positions| == BatchSize
        && NoDuplicates(positions)
        && (forall i :: 0 <= i < |positions| ==> positions[i] < |memory|)
        && targets == Targets(forward, old(target), Batch(memory, positions))
        && (live, optimizerState)
             == optimize(old(live), old(optimizerState), Batch(memory, positions), targets)
        && epsilon == Decay(old(epsilon))
        && stepCount == old(stepCount) + 1
        && target == (if stepCount % TargetSyncPeriod == 0 then live else old(target))
    {
      positions, targets := [], [];
      if |memory| < BatchSize {
        learned := false;
        return;
      }
      learned := true;
      positions := SamplePositions(|memory|, BatchSize);
      var batch := Batch(memory, positions);
      targets := Targets(forward, target, batch);
      live, optimizerState := optimize(live, optimizerState, batch, targets).0,
                              optimize(live, optimizerState, batch, targets).1;
      if epsilon > EpsilonMin {
        epsilon := epsilon * EpsilonDecay;
      }
      stepCount := stepCount + 1;
      if stepCount % TargetSyncPeriod == 0 {
        target := live;
      }
    }
  }
}
