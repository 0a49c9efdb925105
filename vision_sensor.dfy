/** sensors/vision_sensor.py: a lane sensor that reads the next frame of a video, counts the
    vehicles the detector places in its lane, and turns the count into approximate lane
    metrics. At the end of the video it rewinds and reads the first frame again. */
module VisionSensor {

  datatype Option<T> = None | Some(value: T)

  /** What `assign_to_lanes(detector.detect(frame))` reports for one frame: vehicles per lane. */
  type LaneCounts = map<int, nat>

  /** `lane_counts.get(lane_id, 0)`. */
  function CountIn(counts: LaneCounts, lane: int): nat {
    if lane in counts then counts[lane] else 0
  }

  /** The dictionary `get_metrics()` returns. */
  datatype LaneMetrics = LaneMetrics(queue: nat, waiting: real, speed: real)

  /** `{"queue": c, "waiting": c * 10.0, "speed": max(1.0, 15.0 - c)}`. */
  function MetricsFor(count: nat): (m: LaneMetrics)
    ensures m.queue == count && m.waiting == 10.0 * (count as real)
    ensures 1.0 <= m.speed <= 15.0
    ensures count <= 14 ==> m.speed == 15.0 - (count as real)
    ensures count >= 14 ==> m.speed == 1.0
  {
    LaneMetrics(count, (count as real) * 10.0, if 15.0 - (count as real) >= 1.0 then 15.0 - (count as real) else 1.0)
  }

  /** More vehicles never lower the queue or waiting estimate, nor raise the speed estimate. */
  lemma MetricsMonotone(c1: nat, c2: nat)
    requires c1 <= c2
    ensures MetricsFor(c1).queue <= MetricsFor(c2).queue
    ensures MetricsFor(c1).waiting <= MetricsFor(c2).waiting
    ensures MetricsFor(c2).speed <= MetricsFor(c1).speed
  {
  }

  class VisionLaneSensor {
    /** The lane counts of each frame of the video, in order. */
    const video: seq<LaneCounts>
    const laneId: int
    /** The capture's position: the index of the next frame `read()` returns. */
    var position: nat
    /** How many times `get_metrics()` has been called. */
    ghost var calls: nat

    /** The capture position follows the calls: each call reads one frame, the video replayed
        from the start whenever it runs out. */
    ghost predicate Valid()
      reads this
    {
      && position <= |video|
      && (|video| == 0 ==> position == 0)
      && (|video| > 0 ==> position == if calls == 0 then 0 else (calls - 1) % |video| + 1)
    }

    /** `VisionLaneSensor(video_path, lane_id=0)`: the capture starts at the first frame. */
    constructor (video: seq<LaneCounts>, laneId: int)
      ensures Valid() && this.video == video && this.laneId == laneId && position == 0 && calls == 0
    {
      this.video := video;
      this.laneId := laneId;
      position := 0;
      calls := 0;
    }

    /** `get_metrics()`: read the next frame, or rewind once and read the first; `None` when the
        video has no frame at all, where the source would hand the detector no frame. The n-th
        call (from 0) reports frame n modulo the video's length. */
    method GetMetrics() returns (m: Option<LaneMetrics>)
      requires Valid()
      modifies this
      ensures Valid() && calls == old(calls) + 1
      ensures |video| > 0 ==> m == Some(MetricsFor(CountIn(video[old(calls) % |video|], laneId)))
      ensures |video| == 0 ==> m == None
    {
      calls := calls + 1;
      if position < |video| {
        ReadPosition(calls - 1, |video|, position);
        m := Some(MetricsFor(CountIn(video[position], laneId)));
        position := position + 1;
        return;
      }
      position := 0;
      if position < |video| {
        ReadPosition(calls - 1, |video|, |video|);
        m := Some(MetricsFor(CountIn(video[position], laneId)));
        position := position + 1;
      } else {
        m := None;
      }
    }
  }

  /** Division with remainder has one answer. */
  lemma ModUnique(n: nat, d: nat, q: nat, r: nat)
    requires d > 0 && r < d && n == q * d + r
    ensures n % d == r
  {
    var q', r' := n / d, n % d;
    assert n == q' * d + r';
    if q' < q {
      assert (q - q') * d >= d by { MulAtLeast(q - q', d); }
    } else if q < q' {
      assert (q' - q) * d >= d by { MulAtLeast(q' - q, d); }
    }
  }

  lemma MulAtLeast(k: nat, d: nat)
    requires k >= 1
    ensures k * d >= d
  {
  }

  /** Where the capture stands before call `n` and which frame that call reads. */
  lemma ReadPosition(n: nat, frames: nat, position: nat)
    requires frames > 0 && position == if n == 0 then 0 else (n - 1) % frames + 1
    ensures position < frames ==> n % frames == position
    ensures position == frames ==> n % frames == 0
  {
    if n > 0 {
      var q, r := (n - 1) / frames, (n - 1) % frames;
      assert n - 1 == q * frames + r;
      if r + 1 < frames {
        ModUnique(n, frames, q, r + 1);
      } else {
        assert n == (q + 1) * frames + 0;
        ModUnique(n, frames, q + 1, 0);
      }
    } else {
      ModUnique(0, frames, 0, 0);
    }
  }
}
