/** The module-level `log = defaultdict(list)` of control/hybrid_control.py and
    control/fixed_control.py: six lists, one entry appended to each per logged event. */
module ControlLog {

  class RunLog {
    var steps: seq<nat>
    var greens: seq<nat>
    var phases: seq<nat>
    var queues: seq<nat>
    var rewards: seq<real>
    var videoCounts: seq<nat>

    /** The six lists are always filled together. */
    ghost predicate Valid()
      reads this
    {
      |greens| == |steps| && |phases| == |steps| && |queues| == |steps|
      && |rewards| == |steps| && |videoCounts| == |steps|
    }

    function Size(): nat
      reads this
    {
      |steps|
    }

    /** A fresh `defaultdict(list)`: every list is empty. */
    constructor ()
      ensures Valid() && Size() == 0
      ensures steps == [] && greens == [] && phases == [] && queues == [] && rewards == [] && videoCounts == []
    {
      steps, greens, phases, queues, rewards, videoCounts := [], [], [], [], [], [];
    }

    /** `log["step"].append(...)` … `log["video_count"].append(...)`. */
    method Record(step: nat, green: nat, phase: nat, queue: nat, reward: real, videoCount: nat)
      requires Valid()
      modifies this
      ensures Valid() && Size() == old(Size()) + 1
      ensures steps == old(steps) + [step] && greens == old(greens) + [green]
      ensures phases == old(phases) + [phase] && queues == old(queues) + [queue]
      ensures rewards == old(rewards) + [reward] && videoCounts == old(videoCounts) + [videoCount]
    {
      steps := steps + [step];
      greens := greens + [green];
      phases := phases + [phase];
      queues := queues + [queue];
      rewards := rewards + [reward];
      videoCounts := videoCounts + [videoCount];
    }
  }
}
