/** metrics.py: the `MetricsLogger` of the fixed-time baseline. After every simulation step it
    adds each present vehicle's waiting time to that vehicle's running total, stamps departures
    and arrivals with the simulation clock and counts arrivals; at the end it reports the mean
    accumulated waiting time, the mean travel time of the vehicles seen both departing and
    arriving, and the number of arrivals. */
module Metrics {
  import opened Sim
  import opened Seqs

  /** A snapshot of the logger's four attributes. */
  datatype Tally = Tally(waitingTimes: map<VehId, real>, departTimes: map<VehId, real>,
                         arrivalTimes: map<VehId, real>, passed: nat)

  const EmptyTally := Tally(map[], map[], map[], 0)

  /** Some key of a non-empty key set. */
  ghost function Pick(s: set<VehId>): VehId
    requires s != {}
  {
    var k :| k in s; k
  }

  /** The sum of a map's values, in no particular order. */
  ghost function SumValues(m: map<VehId, real>): real
    decreases |m.Keys|
  {
    if m.Keys == {} then 0.0
    else
      var k := Pick(m.Keys);
      assert (m - {k}).Keys == m.Keys - {k};
      m[k] + SumValues(m - {k})
  }

  /** Removing a present key removes exactly that key. */
  lemma KeysRemove(m: map<VehId, real>, k: VehId)
    requires k in m
    ensures (m - {k}).Keys == m.Keys - {k} && |(m - {k}).Keys| == |m.Keys| - 1
  {
    assert (m - {k}).Keys == m.Keys - {k};
  }

  lemma RemoveCommutes(m: map<VehId, real>, j: VehId, k: VehId)
    ensures m - {j} - {k} == m - {k} - {j}
  {
  }

  /** The sum does not depend on which key is taken first. */
  lemma {:induction false} SumValuesRemove(m: map<VehId, real>, k: VehId)
    requires k in m
    ensures SumValues(m) == m[k] + SumValues(m - {k})
    decreases |m.Keys|
  {
    var j := Pick(m.Keys);
    if j != k {
      var mj, mk := m - {j}, m - {k};
      KeysRemove(m, j);
      KeysRemove(m, k);
      SumValuesRemove(mj, k);
      SumValuesRemove(mk, j);
      RemoveCommutes(m, j, k);
      assert SumValues(m) == m[j] + SumValues(mj);
    }
  }

  /** Overwriting or adding one entry changes the sum by the difference. */
  lemma SumValuesUpdate(m: map<VehId, real>, k: VehId, v: real)
    ensures SumValues(m[k := v]) == SumValues(m) - (if k in m then m[k] else 0.0) + v
  {
    SumValuesRemove(m[k := v], k);
    if k in m {
      SumValuesRemove(m, k);
      assert m[k := v] - {k} == m - {k};
    } else {
      assert m[k := v] - {k} == m;
    }
  }

  /** `defaultdict(float)` lookup: a missing key reads as 0.0. */
  function Get(m: map<VehId, real>, v: VehId): real {
    if v in m then m[v] else 0.0
  }

  /** `waiting_times[veh] += w` for every present vehicle in turn. */
  function AddWaiting(w: map<VehId, real>, present: seq<(VehId, real)>): map<VehId, real> {
    if present == [] then w
    else
      var front := AddWaiting(w, present[..|present| - 1]);
      var (v, x) := present[|present| - 1];
      front[v := Get(front, v) + x]
  }

  /** The seconds reported for vehicle `v`, over all its entries. */
  function ReportedFor(present: seq<(VehId, real)>, v: VehId): real {
    if present == [] then 0.0
    else
      var (u, x) := present[|present| - 1];
      ReportedFor(present[..|present| - 1], v) + (if u == v then x else 0.0)
  }

  /** Each vehicle's running total grows by exactly the seconds reported for it; a vehicle
      that was not reported keeps its total. */
  lemma {:induction false} AddWaitingEntry(w: map<VehId, real>, present: seq<(VehId, real)>, v: VehId)
    ensures Get(AddWaiting(w, present), v) == Get(w, v) + ReportedFor(present, v)
    ensures v !in Ids(present) ==> Get(AddWaiting(w, present), v) == Get(w, v)
  {
    if present != [] {
      var front := present[..|present| - 1];
      AddWaitingEntry(w, front, v);
      if v !in Ids(present) {
        forall i | 0 <= i < |front|
          ensures front[i].0 != v
        {
          assert front[i] == present[i];
        }
        assert present[|present| - 1].0 in Ids(present);
      }
    }
  }

  function Ids(present: seq<(VehId, real)>): set<VehId> {
    set i | 0 <= i < |present| :: present[i].0
  }

  /** Every present vehicle gets an entry; no other entry appears. */
  lemma {:induction false} AddWaitingKeys(w: map<VehId, real>, present: seq<(VehId, real)>)
    ensures AddWaiting(w, present).Keys == w.Keys + Ids(present)
  {
    if present != [] {
      var front := present[..|present| - 1];
      AddWaitingKeys(w, front);
      assert Ids(present) == Ids(front) + {present[|present| - 1].0} by {
        forall v | v in Ids(present) ensures v in Ids(front) + {present[|present| - 1].0} {
          var i :| 0 <= i < |present| && present[i].0 == v;
          if i < |present| - 1 {
            assert front[i] == present[i];
          }
        }
        forall v | v in Ids(front) ensures v in Ids(present) {
          var i :| 0 <= i < |front| && front[i].0 == v;
          assert present[i] == front[i];
        }
      }
    }
  }

  /** The seconds reported for the present vehicles, added up. */
  function ReportedWaiting(present: seq<(VehId, real)>): real {
    if present == [] then 0.0 else ReportedWaiting(present[..|present| - 1]) + present[|present| - 1].1
  }

  /** No waiting time is lost or counted twice: the running totals grow by exactly the reported
      seconds. */
  lemma {:induction false} AddWaitingConserves(w: map<VehId, real>, present: seq<(VehId, real)>)
    ensures SumValues(AddWaiting(w, present)) == SumValues(w) + ReportedWaiting(present)
  {
    if present != [] {
      var front := AddWaiting(w, present[..|present| - 1]);
      AddWaitingConserves(w, present[..|present| - 1]);
      var (v, x) := present[|present| - 1];
      SumValuesUpdate(front, v, Get(front, v) + x);
    }
  }

  /** `times[veh] = clock` for every listed vehicle. */
  function Stamp(times: map<VehId, real>, ids: seq<VehId>, clock: real): map<VehId, real> {
    if ids == [] then times else Stamp(times, ids[..|ids| - 1], clock)[ids[|ids| - 1] := clock]
  }

  /** Every listed vehicle carries the clock; every other entry is kept; nothing else appears. */
  lemma {:induction false} StampFacts(times: map<VehId, real>, ids: seq<VehId>, clock: real, v: VehId)
    ensures v in Stamp(times, ids, clock) <==> v in times || v in ids
    ensures v in ids ==> Stamp(times, ids, clock)[v] == clock
    ensures v in times && v !in ids ==> Stamp(times, ids, clock)[v] == times[v]
  {
    if ids != [] {
      var front := ids[..|ids| - 1];
      StampFacts(times, front, clock, v);
      assert v in ids <==> v in front || v == ids[|ids| - 1];
    }
  }

  /** The logger after `update()` on one step's report. */
  function Updated(t: Tally, r: VehicleReport): Tally {
    Tally(AddWaiting(t.waitingTimes, r.present), Stamp(t.departTimes, r.departed, r.clock),
          Stamp(t.arrivalTimes, r.arrived, r.clock), t.passed + |r.arrived|)
  }

  /** The logger after `update()` on each report in turn, from a fresh one. */
  function Accumulated(reports: seq<VehicleReport>): Tally {
    if reports == [] then EmptyTally else Updated(Accumulated(reports[..|reports| - 1]), reports[|reports| - 1])
  }

  function TotalReportedWaiting(reports: seq<VehicleReport>): real {
    if reports == [] then 0.0
    else TotalReportedWaiting(reports[..|reports| - 1]) + ReportedWaiting(reports[|reports| - 1].present)
  }

  function TotalArrivals(reports: seq<VehicleReport>): nat {
    if reports == [] then 0 else TotalArrivals(reports[..|reports| - 1]) + |reports[|reports| - 1].arrived|
  }

  /** Over a whole run, the waiting totals add up to every reported second and `passed` counts
      every reported arrival. */
  lemma {:induction false} AccumulatedTotals(reports: seq<VehicleReport>)
    ensures SumValues(Accumulated(reports).waitingTimes) == TotalReportedWaiting(reports)
    ensures Accumulated(reports).passed == TotalArrivals(reports)
  {
    if reports != [] {
      AccumulatedTotals(reports[..|reports| - 1]);
      AddWaitingConserves(Accumulated(reports[..|reports| - 1]).waitingTimes, reports[|reports| - 1].present);
    } else {
      assert Accumulated(reports).waitingTimes == map[];
    }
  }

  /** The travel time of every vehicle stamped both on arrival and on departure. */
  function TravelTimes(arrivals: map<VehId, real>, departures: map<VehId, real>): map<VehId, real> {
    map v | v in arrivals && v in departures :: arrivals[v] - departures[v]
  }

  /** Dropping an arrival drops at most its own travel time. */
  lemma TravelTimesRemove(arrivals: map<VehId, real>, departures: map<VehId, real>, v: VehId)
    ensures TravelTimes(arrivals - {v}, departures) == TravelTimes(arrivals, departures) - {v}
  {
    var smaller, dropped := TravelTimes(arrivals - {v}, departures), TravelTimes(arrivals, departures) - {v};
    assert smaller.Keys == dropped.Keys;
    forall k | k in smaller.Keys
      ensures smaller[k] == dropped[k]
    {
      assert k in arrivals && k in departures && k != v;
    }
  }

  /** `sum(xs) / max(1, len(xs))`. */
  function Mean(total: real, count: nat): real {
    total / (Max(1, count) as real)
  }

  class MetricsLogger {
    var waitingTimes: map<VehId, real>
    var departTimes: map<VehId, real>
    var arrivalTimes: map<VehId, real>
    var passed: nat

    function State(): Tally
      reads this
    {
      Tally(waitingTimes, departTimes, arrivalTimes, passed)
    }

    constructor ()
      ensures State() == EmptyTally
    {
      waitingTimes, departTimes, arrivalTimes, passed := map[], map[], map[], 0;
    }

    /** `update()`: three loops over the step's vehicle lists. */
    method Update(report: VehicleReport)
      modifies this
      ensures State() == Updated(old(State()), report)
    {
      var i := 0;
      while i < |report.present|
        invariant i <= |report.present|
        invariant waitingTimes == AddWaiting(old(waitingTimes), report.present[..i])
        invariant unchanged(`departTimes, `arrivalTimes, `passed)
      {
        var (v, x) := report.present[i];
        assert report.present[..i + 1][..i] == report.present[..i];
        waitingTimes := waitingTimes[v := Get(waitingTimes, v) + x];
        i := i + 1;
      }
      assert report.present[..i] == report.present;
      i := 0;
      while i < |report.departed|
        invariant i <= |report.departed|
        invariant departTimes == Stamp(old(departTimes), report.departed[..i], report.clock)
        invariant waitingTimes == AddWaiting(old(waitingTimes), report.present)
        invariant unchanged(`arrivalTimes, `passed)
      {
        assert report.departed[..i + 1][..i] == report.departed[..i];
        departTimes := departTimes[report.departed[i] := report.clock];
        i := i + 1;
      }
      assert report.departed[..i] == report.departed;
      i := 0;
      while i < |report.arrived|
        invariant i <= |report.arrived|
        invariant arrivalTimes == Stamp(old(arrivalTimes), report.arrived[..i], report.clock)
        invariant passed == old(passed) + i
        invariant waitingTimes == AddWaiting(old(waitingTimes), report.present)
        invariant departTimes == Stamp(old(departTimes), report.departed, report.clock)
      {
        assert report.arrived[..i + 1][..i] == report.arrived[..i];
        arrivalTimes := arrivalTimes[report.arrived[i] := report.clock];
        passed := passed + 1;
        i := i + 1;
      }
      assert report.arrived[..i] == report.arrived;
    }

    /** `results()`: the mean accumulated waiting time, the mean travel time and the arrivals;
        both means are 0.0 when there is nothing to average. */
    method Results() returns (avgWait: real, avgTravel: real, arrivals: nat)
      ensures avgWait == Mean(SumValues(waitingTimes), |waitingTimes|)
      ensures avgTravel == Mean(SumValues(TravelTimes(arrivalTimes, departTimes)),
                                |TravelTimes(arrivalTimes, departTimes)|)
      ensures arrivals == passed
    {
      var waitSum := SumOf(waitingTimes);
      avgWait := waitSum / (Max(1, |waitingTimes|) as real);
      var travelSum, travelCount := TravelSummary(arrivalTimes, departTimes);
      avgTravel := travelSum / (Max(1, travelCount) as real);
      arrivals := passed;
    }
  }

  /** `sum(d.values())`, visiting the entries in whatever order the dictionary holds them. */
  method SumOf(m: map<VehId, real>) returns (total: real)
    ensures total == SumValues(m)
  {
    total := 0.0;
    var rest := m;
    while rest.Keys != {}
      invariant total + SumValues(rest) == SumValues(m)
      decreases |rest.Keys|
    {
      var v :| v in rest.Keys;
      SumValuesRemove(rest, v);
      total := total + rest[v];
      assert (rest - {v}).Keys == rest.Keys - {v};
      rest := rest - {v};
    }
  }

  /** The travel-time list comprehension of `results()`, summed and counted. */
  method TravelSummary(arrivals: map<VehId, real>, departures: map<VehId, real>) returns (total: real, count: nat)
    ensures total == SumValues(TravelTimes(arrivals, departures))
    ensures count == |TravelTimes(arrivals, departures)|
  {
    total, count := 0.0, 0;
    var rest := arrivals;
    while rest.Keys != {}
      invariant total + SumValues(TravelTimes(rest, departures)) == SumValues(TravelTimes(arrivals, departures))
      invariant count + |TravelTimes(rest, departures)| == |TravelTimes(arrivals, departures)|
      decreases |rest.Keys|
    {
      var v :| v in rest.Keys;
      var before := TravelTimes(rest, departures);
      TravelTimesRemove(rest, departures, v);
      if v in departures {
        SumValuesRemove(before, v);
        assert (before - {v}).Keys == before.Keys - {v};
        total := total + (rest[v] - departures[v]);
        count := count + 1;
      } else {
        assert before - {v} == before;
      }
      assert (rest - {v}).Keys == rest.Keys - {v};
      rest := rest - {v};
    }
  }

  /** A logger that never saw a vehicle reports zeros. */
  lemma EmptyResults()
    ensures Mean(SumValues(EmptyTally.waitingTimes), |EmptyTally.waitingTimes|) == 0.0
    ensures Mean(SumValues(TravelTimes(EmptyTally.arrivalTimes, EmptyTally.departTimes)),
                 |TravelTimes(EmptyTally.arrivalTimes, EmptyTally.departTimes)|) == 0.0
  {
    assert TravelTimes(map[], map[]) == map[];
  }
}
