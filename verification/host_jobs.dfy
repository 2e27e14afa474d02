/** The engine host's scheduling: a reader, pooled jobs, a growing set of worker threads and one control thread. */
module HostJobs {
  import opened Options

  /** Where a pooled job is. Started is a run that has not looked at the engine instance yet, Uses one inside the
      engine, Answered one whose final frame is out. */
  datatype Place = Free | Control | Serving | Queued | Started | Uses(instance: nat) | Answered

  datatype Job = Job(id: nat, cancel: bool, place: Place)

  /** `awake` and `sleeping` are the idle workers, `starting` those on their way to the queue. History: Run frames
      received, final frames sent, Cancel frames that came for a known run, which job got which run, instances
      destroyed. */
  datatype Host = Host(
    jobs: seq<Job>, queue: seq<nat>,
    starting: nat, awake: nat, sleeping: nat, workers: nat, cap: nat,
    instance: Option<nat>, leaving: Option<nat>, nextInstance: nat,
    received: set<nat>, sent: seq<nat>, cancelled: set<nat>, jobOf: map<nat, nat>, destroyed: set<nat>)

  predicate OnWorker(p: Place) {
    p.Started? || p.Uses? || p.Answered?
  }

  /** In the run queue or with a worker. */
  predicate Live(p: Place) {
    p.Queued? || OnWorker(p)
  }

  /** Still owed its final frame. */
  predicate Pending(p: Place) {
    p.Queued? || p.Started? || p.Uses?
  }

  datatype Step =
    | ReadRun(id: nat, j: nat) | ReadControl(id: nat, j: nat) | ReadCancel(id: nat)
    | WorkerArrives | WorkerTakes | WorkerSleeps | WorkerWakes
    | Load(j: nat) | Finish(j: nat) | Return(j: nat)
    | Serve(j: nat) | Served(j: nat) | Unset | Destroyed | Create

  /** A free job, or a new one at the end of the pool. */
  predicate Takeable(h: Host, j: nat) {
    j == |h.jobs| || (j < |h.jobs| && h.jobs[j].place.Free?)
  }

  predicate Is(h: Host, j: nat, p: Place) {
    j < |h.jobs| && h.jobs[j].place == p
  }

  predicate NoRuns(h: Host) {
    h.queue == [] && forall j :: 0 <= j < |h.jobs| ==> !OnWorker(h.jobs[j].place)
  }

  predicate Enabled(h: Host, s: Step) {
    match s
    case ReadRun(id, j) => id !in h.received && Takeable(h, j)
    case ReadControl(id, j) => Takeable(h, j)
    case ReadCancel(id) => true
    case WorkerArrives => h.starting > 0
    case WorkerTakes => h.awake > 0 && h.queue != [] && h.queue[0] < |h.jobs|
    case WorkerSleeps => h.awake > 0 && h.queue == []
    case WorkerWakes => h.sleeping > 0
    case Load(j) => Is(h, j, Started)
    case Finish(j) => j < |h.jobs| && h.jobs[j].place.Uses?
    case Return(j) => Is(h, j, Answered)
    case Serve(j) => Is(h, j, Control) && forall k :: 0 <= k < |h.jobs| ==> !h.jobs[k].place.Serving?
    case Served(j) => Is(h, j, Serving)
    case Unset => h.instance.Some? && h.leaving.None? && NoRuns(h)
    case Destroyed => h.leaving.Some?
    case Create => h.instance.None? && h.leaving.None?
  }

  function Put(h: Host, j: nat, job: Job): Host
    requires j <= |h.jobs|
  {
    h.(jobs := if j < |h.jobs| then h.jobs[j := job] else h.jobs + [job])
  }

  function Moved(h: Host, j: nat, p: Place): Host
    requires j < |h.jobs|
  {
    h.(jobs := h.jobs[j := h.jobs[j].(place := p)])
  }

  /** One more queued run: a new worker unless the idle ones suffice or the cap is reached, and one sleeper is woken. */
  function Staffed(h: Host): Host {
    var more := if |h.queue| > h.awake + h.sleeping && h.workers < h.cap
                then h.(starting := h.starting + 1, workers := h.workers + 1) else h;
    if more.sleeping > 0 then more.(sleeping := more.sleeping - 1, awake := more.awake + 1) else more
  }

  function CancelJob(job: Job, id: nat): Job {
    if Live(job.place) && job.id == id then job.(cancel := true) else job
  }

  function CancelAll(jobs: seq<Job>, id: nat): (r: seq<Job>)
    ensures |r| == |jobs| && forall j :: 0 <= j < |jobs| ==> r[j] == CancelJob(jobs[j], id)
  {
    seq(|jobs|, j requires 0 <= j < |jobs| => CancelJob(jobs[j], id))
  }

  function Next(h: Host, s: Step): Host
    requires Enabled(h, s)
  {
    match s
    case ReadRun(id, j) =>
      Staffed(Put(h, j, Job(id, false, Queued)).(
                queue := h.queue + [j], received := h.received + {id}, jobOf := h.jobOf[id := j]))
    case ReadControl(id, j) => Put(h, j, Job(id, false, Control))
    case ReadCancel(id) =>
      h.(jobs := CancelAll(h.jobs, id), cancelled := if id in h.received then h.cancelled + {id} else h.cancelled)
    case WorkerArrives => h.(starting := h.starting - 1, awake := h.awake + 1)
    case WorkerTakes => Moved(h, h.queue[0], Started).(queue := h.queue[1..], awake := h.awake - 1)
    case WorkerSleeps => h.(awake := h.awake - 1, sleeping := h.sleeping + 1)
    case WorkerWakes => h.(awake := h.awake + 1, sleeping := h.sleeping - 1)
    case Load(j) =>
      if h.instance.Some? then Moved(h, j, Uses(h.instance.value))
      else Moved(h, j, Answered).(sent := h.sent + [h.jobs[j].id])
    case Finish(j) => Moved(h, j, Answered).(sent := h.sent + [h.jobs[j].id])
    case Return(j) => Moved(h, j, Free).(starting := h.starting + 1)
    case Serve(j) => Moved(h, j, Serving)
    case Served(j) => Moved(h, j, Free)
    case Unset => h.(instance := None, leaving := h.instance)
    case Destroyed => h.(leaving := None, destroyed := h.destroyed + {h.leaving.value})
    case Create => h.(instance := Some(h.nextInstance), nextInstance := h.nextInstance + 1)
  }

  // ---- what holds in every state ----

  predicate QueueInv(h: Host) {
    && (forall i :: 0 <= i < |h.queue| ==> Is(h, h.queue[i], Queued))
    && (forall i, k :: 0 <= i < k < |h.queue| ==> h.queue[i] != h.queue[k])
    && (forall j :: 0 <= j < |h.jobs| && h.jobs[j].place.Queued? ==> j in h.queue)
  }

  function OnWorkers(jobs: seq<Job>): nat {
    if jobs == [] then 0 else OnWorkers(jobs[..|jobs| - 1]) + if OnWorker(jobs[|jobs| - 1].place) then 1 else 0
  }

  /** Workers are accounted for, within the cap; queued runs have idle or starting workers unless the cap is reached;
      and no worker sleeps while there are more queued runs than workers about to look. */
  predicate WorkerInv(h: Host) {
    && h.workers == h.starting + h.awake + h.sleeping + OnWorkers(h.jobs) && h.workers <= h.cap && h.cap > 0
    && (|h.queue| <= h.starting + h.awake + h.sleeping || h.workers == h.cap)
    && (h.sleeping == 0 || |h.queue| <= h.starting + h.awake)
  }

  predicate JobInv(h: Host, j: nat)
    requires j < |h.jobs|
  {
    var job := h.jobs[j];
    && (Live(job.place) ==>
          job.id in h.received && job.id in h.jobOf && h.jobOf[job.id] == j && (job.cancel <==> job.id in h.cancelled))
    && (Pending(job.place) ==> job.id !in h.sent)
    && (job.place.Uses? ==> h.instance == Some(job.place.instance))
  }

  /** Every run is pending or has had its one final frame. */
  predicate AccountInv(h: Host) {
    && (forall i, k :: 0 <= i < k < |h.sent| ==> h.sent[i] != h.sent[k])
    && (forall i :: 0 <= i < |h.sent| ==> h.sent[i] in h.received)
    && (forall id <- h.received :: id in h.sent || IsPending(h, id))
    && h.cancelled <= h.received
  }

  predicate IsPending(h: Host, id: nat) {
    id in h.jobOf && h.jobOf[id] < |h.jobs| && Pending(h.jobs[h.jobOf[id]].place) && h.jobs[h.jobOf[id]].id == id
  }

  predicate InstanceInv(h: Host) {
    && (h.instance.Some? ==>
          && h.instance.value < h.nextInstance && h.instance.value !in h.destroyed
          && h.leaving != h.instance)
    && (h.leaving.Some? ==> h.leaving.value < h.nextInstance && h.instance.None?)
    && (forall g <- h.destroyed :: g < h.nextInstance)
  }

  predicate JobsInv(h: Host) {
    forall j :: 0 <= j < |h.jobs| ==> JobInv(h, j)
  }

  predicate Inv(h: Host) {
    QueueInv(h) && WorkerInv(h) && JobsInv(h) && AccountInv(h) && InstanceInv(h)
  }
}
