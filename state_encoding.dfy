/** State vectors and lane totals built from per-lane TraCI readings
    (`get_state`, `compute_wait`, `get_controlled_lanes`). */
module StateEncoding {
  import opened Sim
  import opened Seqs

  /** The three features of one lane: halting count, waiting time, vehicle count. */
  function Triple(r: LaneReading): seq<real> {
    [r.halting as real, r.waiting, r.vehicles as real]
  }

  /** The state vector: the lanes' triples concatenated in lane order. */
  function Encoded(rs: seq<LaneReading>): seq<real> {
    if rs == [] then [] else Triple(rs[0]) + Encoded(rs[1..])
  }

  lemma {:induction false} EncodedAppend(rs: seq<LaneReading>, r: LaneReading)
    ensures Encoded(rs + [r]) == Encoded(rs) + Triple(r)
  {
    if rs == [] {
      assert rs + [r] == [r];
    } else {
      assert (rs + [r])[1..] == rs[1..] + [r];
      EncodedAppend(rs[1..], r);
    }
  }

  /** Length 3 * lanes, and entry 3i+k is lane i's k-th feature. */
  lemma {:induction false} EncodedLayout(rs: seq<LaneReading>)
    ensures |Encoded(rs)| == 3 * |rs|
    ensures forall i :: 0 <= i < |rs| ==>
      Encoded(rs)[3 * i] == rs[i].halting as real &&
      Encoded(rs)[3 * i + 1] == rs[i].waiting &&
      Encoded(rs)[3 * i + 2] == rs[i].vehicles as real
  {
    if rs != [] {
      EncodedLayout(rs[1..]);
      var e := Encoded(rs);
      assert e == Triple(rs[0]) + Encoded(rs[1..]);
      forall i | 1 <= i < |rs|
        ensures e[3 * i] == rs[i].halting as real
        ensures e[3 * i + 1] == rs[i].waiting
        ensures e[3 * i + 2] == rs[i].vehicles as real
      {
        assert rs[i] == rs[1..][i - 1];
        assert 3 * i == 3 + 3 * (i - 1);
      }
    }
  }

  /** `get_state(lanes)`: extend a list with each lane's triple. */
  method EncodeLanes(sim: Sumo, lanes: seq<LaneId>) returns (state: seq<real>)
    ensures state == Encoded(sim.Readings(lanes))
    ensures |state| == 3 * |lanes|
    ensures forall i :: 0 <= i < |lanes| ==>
      state[3 * i] == sim.Reading(lanes[i]).halting as real &&
      state[3 * i + 1] == sim.Reading(lanes[i]).waiting &&
      state[3 * i + 2] == sim.Reading(lanes[i]).vehicles as real
  {
    ghost var rs := sim.Readings(lanes);
    state := [];
    var i := 0;
    while i < |lanes|
      invariant 0 <= i <= |lanes|
      invariant state == Encoded(rs[..i])
    {
      var r := sim.Reading(lanes[i]);
      assert rs[..i + 1] == rs[..i] + [r];
      EncodedAppend(rs[..i], r);
      state := state + [r.halting as real, r.waiting, r.vehicles as real];
      i := i + 1;
    }
    assert rs[..i] == rs;
    EncodedLayout(rs);
  }

  function TotalHalting(rs: seq<LaneReading>): nat {
    if rs == [] then 0 else rs[0].halting + TotalHalting(rs[1..])
  }

  function TotalVehicles(rs: seq<LaneReading>): nat {
    if rs == [] then 0 else rs[0].vehicles + TotalVehicles(rs[1..])
  }

  /** `compute_wait(lanes)`: the lanes' waiting times summed. */
  function TotalWaiting(rs: seq<LaneReading>): (w: real)
    ensures w >= 0.0
  {
    if rs == [] then 0.0 else rs[0].waiting + TotalWaiting(rs[1..])
  }

  /** The summed waiting time is never below any single lane's. */
  lemma {:induction false} TotalWaitingBoundsEach(rs: seq<LaneReading>, i: nat)
    requires i < |rs|
    ensures rs[i].waiting <= TotalWaiting(rs)
  {
    if i > 0 {
      TotalWaitingBoundsEach(rs[1..], i - 1);
    }
  }

  /** `get_controlled_lanes`: `list(set(lanes))`, in an order the source leaves unspecified. */
  method DistinctLanes(lanes: seq<LaneId>) returns (r: seq<LaneId>)
    ensures NoDuplicates(r)
    ensures forall l :: l in r <==> l in lanes
    ensures |r| == |set l | l in lanes|
  {
    var pending := set l | l in lanes;
    r := [];
    while pending != {}
      invariant NoDuplicates(r)
      invariant forall l :: l in r ==> l !in pending
      invariant forall l :: l in lanes <==> (l in r || l in pending)
      invariant |r| + |pending| == |set l | l in lanes|
      decreases |pending|
    {
      var l :| l in pending;
      r := r + [l];
      pending := pending - {l};
    }
  }
}
