/** Per-agent lanes: submitted jobs are run one at a time by a pump that is started on demand.
    Every method is one step under the queue's lock; pumps and submitters interleave freely. */
module TargetQueues {

  datatype Job = Job(agentName: string, prompt: string, peerID: int)

  /** The record that the code keeps for a lane. */
  datatype Lane = Lane(busy: bool, active: int, jobs: seq<Job>)

  function EmptyLane(): Lane { Lane(false, 0, []) }

  /** The next job of a pump, or the end of the pump. */
  datatype Next = NoJob | NextJob(job: Job)

  function Submitted(lane: Lane, job: Job): Lane { Lane(true, lane.active, lane.jobs + [job]) }

  function Taken(lane: Lane): (Lane, Next) {
    if lane.jobs == [] then (lane.(busy := false), NoJob)
    else (Lane(lane.busy, lane.active + 1, lane.jobs[1..]), NextJob(lane.jobs[0]))
  }

  function Finished(lane: Lane): Lane { lane.(active := lane.active - 1) }

  class TargetQueue {
    var lanes: map<string, Lane>

    constructor ()
      ensures lanes == map[]
    {
      lanes := map[];
    }

    function LaneOf(name: string): Lane
      reads this
    {
      if name in lanes then lanes[name] else EmptyLane()
    }

    /** Queues the job; tells how many are ahead, and whether a pump has to be started.
        `busyOutside` is the answer of the optional busy check. */
    method Submit(agentName: string, prompt: string, peerID: int, busyOutside: bool)
      returns (position: int, startPump: bool)
      modifies this
      ensures position == |old(LaneOf(agentName)).jobs| + old(LaneOf(agentName)).active + if busyOutside then 1 else 0
      ensures startPump == !old(LaneOf(agentName)).busy
      ensures lanes == old(lanes)[agentName := Submitted(old(LaneOf(agentName)), Job(agentName, prompt, peerID))]
    {
      var lane := LaneOf(agentName);
      position := |lane.jobs| + lane.active;
      if busyOutside {
        position := position + 1;
      }
      lane := lane.(jobs := lane.jobs + [Job(agentName, prompt, peerID)]);
      startPump := false;
      if !lane.busy {
        lane := lane.(busy := true);
        startPump := true;
      }
      lanes := lanes[agentName := lane];
    }

    method TakeNext(name: string) returns (next: Next)
      modifies this
      ensures next == Taken(old(LaneOf(name))).1
      ensures lanes == old(lanes)[name := Taken(old(LaneOf(name))).0]
    {
      var lane := LaneOf(name);
      if |lane.jobs| == 0 {
        lanes := lanes[name := lane.(busy := false)];
        return NoJob;
      }
      lane := lane.(active := lane.active + 1);
      next := NextJob(lane.jobs[0]);
      lane := lane.(jobs := lane.jobs[1..]);
      lanes := lanes[name := lane];
    }

    method NoteFinished(name: string)
      modifies this
      ensures lanes == old(lanes)[name := Finished(old(LaneOf(name)))]
    {
      var lane := LaneOf(name);
      lanes := lanes[name := lane.(active := lane.active - 1)];
    }
  }

  // ---- Interleavings ----

  /** Where a pump is: about to take a job, running one, about to note one that was delivered, or
      ended. */
  datatype Pump = AtTake | Running(job: Job) | Delivered(job: Job) | Ended

  /** A lane, all pumps ever started for it, and the history of its jobs. */
  datatype World = World(lane: Lane, pumps: seq<Pump>, submitted: seq<Job>, delivered: seq<Job>, noted: nat)

  datatype Event = SubmitJob(job: Job) | PumpStep(pump: nat)

  function Init(): World { World(EmptyLane(), [], [], [], 0) }

  function PumpStepped(w: World, i: nat): World
    requires i < |w.pumps|
  {
    match w.pumps[i]
    case AtTake =>
      var (lane, next) := Taken(w.lane);
      w.(lane := lane, pumps := w.pumps[i := if next.NoJob? then Ended else Running(next.job)])
    case Running(job) => w.(pumps := w.pumps[i := Delivered(job)], delivered := w.delivered + [job])
    case Delivered(job) => w.(lane := Finished(w.lane), pumps := w.pumps[i := AtTake], noted := w.noted + 1)
    case Ended => w
  }

  function Step(w: World, e: Event): World {
    match e
    case SubmitJob(job) =>
      World(Submitted(w.lane, job), if w.lane.busy then w.pumps else w.pumps + [AtTake],
        w.submitted + [job], w.delivered, w.noted)
    case PumpStep(i) => if i < |w.pumps| then PumpStepped(w, i) else w
  }

  function Run(w: World, events: seq<Event>): World {
    if events == [] then w else Step(Run(w, events[..|events| - 1]), events[|events| - 1])
  }

  predicate IsLive(p: Pump) { !p.Ended? }

  /** Only the last pump can be live. */
  ghost predicate OneLive(w: World) {
    forall i :: 0 <= i < |w.pumps| && IsLive(w.pumps[i]) ==> i == |w.pumps| - 1
  }

  /** The live pump, or a pump that ended. */
  function Current(w: World): Pump {
    if w.pumps == [] then Ended else w.pumps[|w.pumps| - 1]
  }

  /** The job that a pump is running, if any. */
  function InHand(w: World): seq<Job> {
    if Current(w).Running? then [Current(w).job] else []
  }

  ghost predicate Inv(w: World) {
    && OneLive(w)
    && (w.lane.busy <==> IsLive(Current(w)))
    && w.lane.active == (if Current(w).Running? || Current(w).Delivered? then 1 else 0)
    && w.submitted == w.delivered + InHand(w) + w.lane.jobs
    && (!w.lane.busy ==> w.lane.jobs == [])
    && |w.delivered| == w.noted + if Current(w).Delivered? then 1 else 0
  }

  lemma {:induction false} StepKeepsInv(w: World, e: Event)
    requires Inv(w)
    ensures Inv(Step(w, e))
  {
    if e.PumpStep? && e.pump < |w.pumps| && IsLive(w.pumps[e.pump]) {
      assert e.pump == |w.pumps| - 1;
      if w.pumps[e.pump].AtTake? && w.lane.jobs != [] {
        assert w.lane.jobs == [w.lane.jobs[0]] + w.lane.jobs[1..];
      }
    }
  }

  /** Under any interleaving of submissions and pump steps: at most one pump of a lane is live, it
      is live exactly while the lane is busy, and the jobs submitted are, in order, those
      delivered, the one in hand and those queued. */
  lemma {:induction false} RunKeepsInv(events: seq<Event>)
    ensures Inv(Run(Init(), events))
  {
    if events != [] {
      RunKeepsInv(events[..|events| - 1]);
      StepKeepsInv(Run(Init(), events[..|events| - 1]), events[|events| - 1]);
    }
  }

  /** Without a busy check, the position that `Submit` returns is exactly the number of jobs
      submitted before that have not finished. */
  lemma {:induction false} PositionIsJobsAhead(events: seq<Event>)
    ensures var w := Run(Init(), events);
      |w.lane.jobs| + w.lane.active == |w.submitted| - w.noted
  {
    RunKeepsInv(events);
  }

  /** A queued job is never stranded: there is a live pump, and it is the only one. */
  lemma {:induction false} QueuedJobHasPump(events: seq<Event>)
    requires Run(Init(), events).lane.jobs != []
    ensures var w := Run(Init(), events);
      w.pumps != [] && IsLive(w.pumps[|w.pumps| - 1]) && w.lane.busy
  {
    RunKeepsInv(events);
  }

  /** The work that remains for the live pump. */
  function Remaining(w: World): nat {
    3 * |w.lane.jobs| +
    match Current(w)
    case AtTake => 1
    case Running(_) => 3
    case Delivered(_) => 2
    case Ended => 0
  }

  /** Letting the live pump run. */
  function Pumped(w: World, n: nat): World
    decreases n
  {
    if n == 0 || w.pumps == [] then w else Pumped(PumpStepped(w, |w.pumps| - 1), n - 1)
  }

  /** Left alone, the pump delivers every submitted job in order of submission and then ends. */
  lemma {:induction false} PumpDeliversAll(w: World)
    requires Inv(w)
    ensures var end := Pumped(w, Remaining(w));
      Inv(end) && end.delivered == w.submitted && end.lane.jobs == [] && !end.lane.busy && end.lane.active == 0
    decreases Remaining(w)
  {
    if IsLive(Current(w)) {
      var next := PumpStepped(w, |w.pumps| - 1);
      StepKeepsInv(w, PumpStep(|w.pumps| - 1));
      assert Remaining(next) == Remaining(w) - 1;
      assert next.submitted == w.submitted;
      PumpDeliversAll(next);
    } else {
      assert w.delivered == w.submitted;
    }
  }
}
