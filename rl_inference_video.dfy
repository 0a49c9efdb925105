/** vision/rl_inference_video.py: the trained agent driven by a video alone. Every frame's lane
    counts, taken lane by lane in increasing lane order, become `[count, count * 10, count]`
    triples; the greedy agent picks a green time from 10..60 s for the frame; the loop ends with
    the video or when the operator presses 'q'. */
module VisionInference {
  import opened Agent
  import opened Schedule
  import opened VisionSensor

  const LaneCount: nat := 4
  const FeaturesPerLane: nat := 3
  /** `STATE_SIZE`: the input width the loaded network expects. */
  const StateSize: nat := LaneCount * FeaturesPerLane

  /** A set that is not empty has a member. */
  lemma NonEmptyHasMember(s: set<int>)
    requires s != {}
    ensures exists x :: x in s
  {
    if forall x :: x !in s {
      assert false;
    }
  }

  /** Every non-empty finite set of lane ids has a least element. */
  lemma {:induction false} LeastExists(s: set<int>)
    requires s != {}
    ensures exists m :: m in s && forall k :: k in s ==> m <= k
    decreases |s|
  {
    NonEmptyHasMember(s);
    var x :| x in s;
    if s == {x} {
      assert forall k :: k in s ==> x <= k;
    } else {
      var rest := s - {x};
      LeastExists(rest);
      var m :| m in rest && forall k :: k in rest ==> m <= k;
      var least := if x < m then x else m;
      forall k | k in s
        ensures least <= k
      {
        if k != x {
          assert k in rest;
        }
      }
      assert least in s;
    }
  }

  function Least(s: set<int>): (m: int)
    requires s != {}
    ensures m in s && forall k :: k in s ==> m <= k
  {
    LeastExists(s);
    var m :| m in s && forall k :: k in s ==> m <= k; m
  }

  /** `sorted(lane_counts.keys())`. */
  function SortedKeys(s: set<int>): seq<int>
    decreases |s|
  {
    if s == {} then [] else [Least(s)] + SortedKeys(s - {Least(s)})
  }

  /** The sorted keys list every key once, in strictly increasing order. */
  lemma {:induction false} SortedKeysFacts(s: set<int>)
    ensures |SortedKeys(s)| == |s|
    ensures forall k :: k in SortedKeys(s) <==> k in s
    ensures forall i, j :: 0 <= i < j < |SortedKeys(s)| ==> SortedKeys(s)[i] < SortedKeys(s)[j]
    decreases |s|
  {
    if s != {} {
      var m := Least(s);
      var rest := SortedKeys(s - {m});
      SortedKeysFacts(s - {m});
      var r := SortedKeys(s);
      assert r == [m] + rest;
      forall k
        ensures k in r <==> k in s
      {
        assert k in r <==> k == m || k in rest;
      }
      forall i, j | 0 <= i < j < |r|
        ensures r[i] < r[j]
      {
        assert r[j] == rest[j - 1] && r[j] in s - {m};
        if 0 < i {
          assert r[i] == rest[i - 1];
        }
      }
    }
  }

  /** `[count, count * 10, count]`. */
  function CountTriple(count: nat): seq<real> {
    [count as real, (count * 10) as real, count as real]
  }

  /** The state vector for the given lanes, in the given order. */
  function CountsEncoded(counts: LaneCounts, keys: seq<int>): seq<real>
    requires forall i :: 0 <= i < |keys| ==> keys[i] in counts
  {
    if keys == [] then [] else CountsEncoded(counts, keys[..|keys| - 1]) + CountTriple(counts[keys[|keys| - 1]])
  }

  /** Three entries per lane: its count, ten times its count, and its count again. */
  lemma {:induction false} CountsEncodedLayout(counts: LaneCounts, keys: seq<int>)
    requires forall i :: 0 <= i < |keys| ==> keys[i] in counts
    ensures |CountsEncoded(counts, keys)| == 3 * |keys|
    ensures forall i :: 0 <= i < |keys| ==>
      && CountsEncoded(counts, keys)[3 * i] == counts[keys[i]] as real
      && CountsEncoded(counts, keys)[3 * i + 1] == 10.0 * (counts[keys[i]] as real)
      && CountsEncoded(counts, keys)[3 * i + 2] == counts[keys[i]] as real
  {
    if keys != [] {
      var front := keys[..|keys| - 1];
      CountsEncodedLayout(counts, front);
      forall i | 0 <= i < |front| ensures front[i] == keys[i] { }
    }
  }

  /** The frame's state: the lanes' triples, lanes in increasing order. */
  function FrameState(counts: LaneCounts): seq<real> {
    SortedKeysFacts(counts.Keys);
    CountsEncoded(counts, SortedKeys(counts.Keys))
  }

  /** A frame's state holds one triple per lane the detector reported, lane ids increasing. */
  lemma FrameStateLayout(counts: LaneCounts)
    ensures var keys := SortedKeys(counts.Keys);
      && |keys| == |counts.Keys|
      && (forall k :: k in keys <==> k in counts)
      && (forall i, j :: 0 <= i < j < |keys| ==> keys[i] < keys[j])
      && |FrameState(counts)| == 3 * |counts.Keys|
      && forall i :: 0 <= i < |keys| ==>
           && FrameState(counts)[3 * i] == counts[keys[i]] as real
           && FrameState(counts)[3 * i + 1] == 10.0 * (counts[keys[i]] as real)
           && FrameState(counts)[3 * i + 2] == counts[keys[i]] as real
  {
    SortedKeysFacts(counts.Keys);
    CountsEncodedLayout(counts, SortedKeys(counts.Keys));
  }

  /** Encoding one lane more appends that lane's triple. */
  lemma CountsEncodedStep(counts: LaneCounts, keys: seq<int>, i: nat)
    requires i < |keys| && forall j :: 0 <= j < |keys| ==> keys[j] in counts
    ensures CountsEncoded(counts, keys[..i + 1]) == CountsEncoded(counts, keys[..i]) + CountTriple(counts[keys[i]])
  {
    assert keys[..i + 1][..i] == keys[..i];
  }

  /** The sorted keys are keys of the map. */
  lemma SortedKeysIn(counts: LaneCounts)
    ensures forall j :: 0 <= j < |SortedKeys(counts.Keys)| ==> SortedKeys(counts.Keys)[j] in counts
  {
    SortedKeysFacts(counts.Keys);
  }

  /** The state-building loop of one frame. */
  method EncodeCounts(counts: LaneCounts) returns (state: seq<real>)
    ensures state == FrameState(counts)
  {
    var keys := SortedKeys(counts.Keys);
    SortedKeysIn(counts);
    state := [];
    var i := 0;
    while i < |keys|
      invariant i <= |keys|
      invariant state == CountsEncoded(counts, keys[..i])
    {
      CountsEncodedStep(counts, keys, i);
      state := state + CountTriple(counts[keys[i]]);
      i := i + 1;
    }
    assert keys[..i] == keys;
  }

  datatype InferenceOutcome =
    | StateSizeMismatch(frame: nat, size: nat)   // the network refuses a state of another width
    | Ended(frames: nat)                         // `cap.read()` failed: the video is over
    | Quit(frames: nat)                          // 'q' was pressed after the last frame decided

  /** The green the greedy network picks for a frame, when the frame's state has the width
      the network expects. */
  ghost predicate FrameDecided(green: nat, counts: LaneCounts, forward: QNet, saved: Params)
  {
    && |FrameState(counts)| == StateSize
    && |forward(saved, FrameState(counts))| == |Actions|
    && green == Actions[ArgMax(forward(saved, FrameState(counts)))]
  }

  /** Frame i got the green the greedy network picks for that frame's state. */
  ghost predicate Decided(greens: seq<nat>, video: seq<LaneCounts>, forward: QNet, saved: Params)
  {
    && |greens| <= |video|
    && forall i :: 0 <= i < |greens| ==> FrameDecided(greens[i], video[i], forward, saved)
  }

  /** Steps 3 and 4 of a frame: build the state and let the agent pick the green time;
      `mismatch` when the state does not have the width the network expects. */
  method DecideFrame(agent: DQNAgent, counts: LaneCounts) returns (mismatch: bool, size: nat, green: nat)
    requires agent.Valid() && agent.stateSize == StateSize && agent.actionSize == |Actions|
    requires agent.epsilon == 0.0
    ensures size == |FrameState(counts)|
    ensures mismatch <==> size != StateSize
    ensures !mismatch ==> FrameDecided(green, counts, agent.forward, agent.live) && green in Actions
  {
    var state := EncodeCounts(counts);
    size, green := |state|, 0;
    mismatch := size != StateSize;
    if !mismatch {
      var draw: real :| 0.0 <= draw < 1.0;
      var pick: nat :| pick < |Actions|;
      var action := agent.Act(state, draw, pick);
      green := Actions[action];
    }
  }

  /** The script: load `saved` into a 12-input agent, switch exploration off, and decide every
      frame in turn. `quit(i)` is whether 'q' was pressed while frame i was shown. */
  method Infer(video: seq<LaneCounts>, quit: nat -> bool, forward: QNet, optimize: Optimizer,
               init: Params, optimizerInit: OptimizerState, saved: Params)
    returns (outcome: InferenceOutcome, greens: seq<nat>)
    requires Shaped(forward, |Actions|)
    ensures Decided(greens, video, forward, saved)
    ensures forall i :: 0 <= i < |greens| ==> greens[i] in Actions
    ensures outcome.StateSizeMismatch? ==>
      && outcome.frame == |greens| < |video|
      && outcome.size == |FrameState(video[outcome.frame])| != StateSize
      && (forall i :: 0 <= i < |greens| ==> !quit(i))
    ensures outcome.Ended? ==> outcome.frames == |greens| == |video| && forall i :: 0 <= i < |video| ==> !quit(i)
    ensures outcome.Quit? ==>
      && outcome.frames == |greens| > 0 && quit(|greens| - 1)
      && forall i :: 0 <= i < |greens| - 1 ==> !quit(i)
  {
    var agent := new DQNAgent(StateSize, |Actions|, forward, optimize, init, optimizerInit);
    agent.Load(saved);
    agent.epsilon := 0.0;
    greens := [];
    var frameId := 0;
    while frameId < |video|
      invariant frameId == |greens| <= |video|
      invariant agent.Valid() && agent.stateSize == StateSize && agent.actionSize == |Actions|
      invariant agent.forward == forward && agent.live == saved && agent.epsilon == 0.0
      invariant Decided(greens, video, forward, saved)
      invariant forall i :: 0 <= i < |greens| ==> greens[i] in Actions
      invariant forall i :: 0 <= i < frameId ==> !quit(i)
      decreases |video| - frameId
    {
      var mismatch, size, green := DecideFrame(agent, video[frameId]);
      if mismatch {
        return StateSizeMismatch(frameId, size), greens;
      }
      greens := greens + [green];
      if quit(frameId) {
        return Quit(|greens|), greens;
      }
      frameId := frameId + 1;
    }
    outcome := Ended(frameId);
  }
}
