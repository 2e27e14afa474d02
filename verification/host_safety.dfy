/** Exactly one final frame per run, cancels that reach their own run, workers for queued runs and no use of a destroyed
    instance, over every run of the host. */
module HostSafety {
  import opened Options
  import opened HostJobs

  // ---- counting workers ----

  lemma {:induction false} OneMoves(jobs: seq<Job>, j: nat, job: Job)
    requires j < |jobs|
    ensures OnWorkers(jobs[j := job]) + (if OnWorker(jobs[j].place) then 1 else 0)
         == OnWorkers(jobs) + (if OnWorker(job.place) then 1 else 0)
    decreases |jobs|
  {
    var n := |jobs| - 1;
    if j == n {
      assert jobs[j := job][..n] == jobs[..n];
    } else {
      assert jobs[j := job][..n] == jobs[..n][j := job];
      OneMoves(jobs[..n], j, job);
    }
  }

  lemma OneMore(jobs: seq<Job>, job: Job)
    ensures OnWorkers(jobs + [job]) == OnWorkers(jobs) + if OnWorker(job.place) then 1 else 0
  {
    assert (jobs + [job])[..|jobs|] == jobs;
  }

  lemma {:induction false} SamePlaces(a: seq<Job>, b: seq<Job>)
    requires |a| == |b| && forall j :: 0 <= j < |a| ==> a[j].place == b[j].place
    ensures OnWorkers(a) == OnWorkers(b)
    decreases |a|
  {
    if a != [] { SamePlaces(a[..|a| - 1], b[..|b| - 1]); }
  }

  lemma PutCount(h: Host, j: nat, job: Job)
    requires Takeable(h, j) && !OnWorker(job.place)
    ensures OnWorkers(Put(h, j, job).jobs) == OnWorkers(h.jobs)
  {
    if j < |h.jobs| { OneMoves(h.jobs, j, job); } else { OneMore(h.jobs, job); }
  }

  lemma WorkersKeepRun(h: Host, id: nat, j: nat)
    requires WorkerInv(h) && Enabled(h, ReadRun(id, j))
    ensures WorkerInv(Next(h, ReadRun(id, j)))
  {
    hide OnWorkers;
    PutCount(h, j, Job(id, false, Queued));
  }

  lemma WorkersKeep(h: Host, s: Step)
    requires Inv(h) && Enabled(h, s)
    ensures WorkerInv(Next(h, s))
  {
    hide JobsInv, AccountInv, InstanceInv, OnWorkers;
    match s
    case ReadRun(id, j) => WorkersKeepRun(h, id, j);
    case ReadControl(id, j) => PutCount(h, j, Job(id, false, Control));
    case ReadCancel(id) => SamePlaces(h.jobs, CancelAll(h.jobs, id));
    case WorkerTakes =>
      assert Is(h, h.queue[0], Queued);
      OneMoves(h.jobs, h.queue[0], h.jobs[h.queue[0]].(place := Started));
    case Load(j) => WorkersKeepJob(h, s, j);
    case Finish(j) => WorkersKeepJob(h, s, j);
    case Return(j) => WorkersKeepJob(h, s, j);
    case Serve(j) => WorkersKeepJob(h, s, j);
    case Served(j) => WorkersKeepJob(h, s, j);
    case _ =>
  }

  /** A step of one job that is with a worker or the control thread. */
  lemma WorkersKeepJob(h: Host, s: Step, j: nat)
    requires WorkerInv(h) && Enabled(h, s)
    requires s == Load(j) || s == Finish(j) || s == Return(j) || s == Serve(j) || s == Served(j)
    ensures WorkerInv(Next(h, s))
  {
    hide OnWorkers;
    OneMoves(h.jobs, j, Next(h, s).jobs[j]);
  }

  lemma QueueShrinks(h: Host)
    requires QueueInv(h) && Enabled(h, WorkerTakes)
    ensures QueueInv(Next(h, WorkerTakes))
  {
    var t := Next(h, WorkerTakes);
    assert forall i :: 0 <= i < |t.queue| ==> t.queue[i] == h.queue[i + 1];
    forall j | 0 <= j < |t.jobs| && t.jobs[j].place.Queued? ensures j in t.queue {
      assert j in h.queue && j != h.queue[0];
      var i :| 0 <= i < |h.queue| && h.queue[i] == j;
      assert t.queue[i - 1] == j;
    }
  }

  lemma QueueGrows(h: Host, id: nat, j: nat)
    requires QueueInv(h) && Enabled(h, ReadRun(id, j))
    ensures QueueInv(Next(h, ReadRun(id, j)))
  {
    var t := Next(h, ReadRun(id, j));
    assert t.queue == h.queue + [j] && t.queue[|h.queue|] == j;
    forall k | 0 <= k < |t.jobs| && t.jobs[k].place.Queued? ensures k in t.queue {
      if k != j { assert k in h.queue; }
    }
  }

  /** The queue and which jobs are queued stay the same. */
  lemma QueueSame(h: Host, t: Host)
    requires QueueInv(h) && t.queue == h.queue && |h.jobs| <= |t.jobs|
    requires forall j :: 0 <= j < |t.jobs| ==>
      (t.jobs[j].place.Queued? <==> j < |h.jobs| && h.jobs[j].place.Queued?)
    ensures QueueInv(t)
  {
  }

  lemma QueueKeeps(h: Host, s: Step)
    requires QueueInv(h) && Enabled(h, s)
    ensures QueueInv(Next(h, s))
  {
    hide QueueInv, NoRuns;
    match s
    case WorkerTakes => QueueShrinks(h);
    case ReadRun(id, j) => QueueGrows(h, id, j);
    case _ => QueueSame(h, Next(h, s));
  }

  lemma ReadRunJobs(h: Host, id: nat, k: nat, j: nat)
    requires Inv(h) && Enabled(h, ReadRun(id, k)) && j < |Next(h, ReadRun(id, k)).jobs|
    ensures JobInv(Next(h, ReadRun(id, k)), j)
  {
    hide OnWorkers, WorkerInv, QueueInv, InstanceInv;
    if j < |h.jobs| { assert JobInv(h, j); }
  }

  lemma ReadControlJobs(h: Host, id: nat, k: nat, j: nat)
    requires Inv(h) && Enabled(h, ReadControl(id, k)) && j < |Next(h, ReadControl(id, k)).jobs|
    ensures JobInv(Next(h, ReadControl(id, k)), j)
  {
    hide OnWorkers, WorkerInv, QueueInv, InstanceInv, AccountInv;
    if j < |h.jobs| { assert JobInv(h, j); }
  }

  lemma ReadCancelJobs(h: Host, id: nat, j: nat)
    requires Inv(h) && j < |h.jobs|
    ensures JobInv(Next(h, ReadCancel(id)), j)
  {
    hide OnWorkers, WorkerInv, QueueInv, InstanceInv, AccountInv;
    assert JobInv(h, j);
  }

  lemma WorkerJobs(h: Host, s: Step, j: nat)
    requires Inv(h) && Enabled(h, s) && j < |Next(h, s).jobs| && (s.Load? || s.Finish? || s.Return? || s.WorkerTakes?)
    ensures JobInv(Next(h, s), j)
  {
    hide OnWorkers, WorkerInv;
    assert JobInv(h, j);
    if !s.WorkerTakes? { assert JobInv(h, s.j); }
  }

  lemma OtherJobs(h: Host, s: Step, j: nat)
    requires Inv(h) && Enabled(h, s) && j < |Next(h, s).jobs|
    requires !(s.ReadRun? || s.ReadControl? || s.ReadCancel? || s.Load? || s.Finish? || s.Return? || s.WorkerTakes?)
    ensures JobInv(Next(h, s), j)
  {
    hide OnWorkers, WorkerInv, QueueInv, AccountInv;
    assert JobInv(h, j);
  }

  lemma JobsKeep(h: Host, s: Step, j: nat)
    requires Inv(h) && Enabled(h, s) && j < |Next(h, s).jobs|
    ensures JobInv(Next(h, s), j)
  {
    hide Inv, Enabled, JobInv, NoRuns;
    match s
    case ReadRun(id, k) => ReadRunJobs(h, id, k, j);
    case ReadControl(id, k) => ReadControlJobs(h, id, k, j);
    case ReadCancel(id) => ReadCancelJobs(h, id, j);
    case Load(_) => WorkerJobs(h, s, j);
    case Finish(_) => WorkerJobs(h, s, j);
    case Return(_) => WorkerJobs(h, s, j);
    case WorkerTakes => WorkerJobs(h, s, j);
    case _ => OtherJobs(h, s, j);
  }

  lemma AccountKeeps(h: Host, s: Step)
    requires Inv(h) && Enabled(h, s)
    ensures AccountInv(Next(h, s))
  {
    hide OnWorkers, WorkerInv, InstanceInv;
    var t := Next(h, s);
    if s.Load? || s.Finish? { assert JobInv(h, s.j); }
    if s.WorkerTakes? { assert JobInv(h, h.queue[0]); }
    forall id | id in t.received ensures id in t.sent || IsPending(t, id) {
      PendingStays(h, s, id);
    }
  }

  lemma PendingStays(h: Host, s: Step, id: nat)
    requires Inv(h) && Enabled(h, s) && id in Next(h, s).received
    ensures id in Next(h, s).sent || IsPending(Next(h, s), id)
  {
    hide OnWorkers, WorkerInv, InstanceInv;
    if id in h.received {
      assert id in h.sent || IsPending(h, id);
      if s.Load? || s.Finish? { AnswerStays(h, s, id); }
    }
  }

  lemma AnswerStays(h: Host, s: Step, id: nat)
    requires Enabled(h, s) && (s.Load? || s.Finish?) && JobsInv(h) && (id in h.sent || IsPending(h, id))
    ensures id in Next(h, s).sent || IsPending(Next(h, s), id)
  {
    assert JobInv(h, s.j);
    if id in h.sent {
      var k :| 0 <= k < |h.sent| && h.sent[k] == id;
      assert k < |Next(h, s).sent| && Next(h, s).sent[k] == id;
    } else if id == h.jobs[s.j].id {
      assert (h.sent + [id])[|h.sent|] == id;
    }
  }

  lemma InstanceKeeps(h: Host, s: Step)
    requires InstanceInv(h) && Enabled(h, s)
    ensures InstanceInv(Next(h, s))
  {
    hide OnWorkers, NoRuns;
  }

  lemma StepKeeps(h: Host, s: Step)
    requires Inv(h) && Enabled(h, s)
    ensures Inv(Next(h, s))
  {
    hide QueueInv, WorkerInv, JobInv, AccountInv, InstanceInv, Enabled, Next;
    QueueKeeps(h, s);
    WorkersKeep(h, s);
    forall j | 0 <= j < |Next(h, s).jobs| ensures JobInv(Next(h, s), j) {
      JobsKeep(h, s, j);
    }
    AccountKeeps(h, s);
    InstanceKeeps(h, s);
  }

  // ---- whole runs ----

  predicate Run(h: Host, steps: seq<Step>)
    decreases |steps|
  {
    steps == [] || (Enabled(h, steps[0]) && Run(Next(h, steps[0]), steps[1..]))
  }

  function After(h: Host, steps: seq<Step>): Host
    requires Run(h, steps)
    decreases |steps|
  {
    if steps == [] then h else After(Next(h, steps[0]), steps[1..])
  }

  function Fresh(cap: nat): Host {
    Host([], [], 0, 0, 0, 0, cap, None, None, 0, {}, [], {}, map[], {})
  }

  lemma {:induction false} RunKeeps(h: Host, steps: seq<Step>)
    requires Inv(h) && Run(h, steps)
    ensures Inv(After(h, steps))
    decreases |steps|
  {
    hide Inv, Enabled, Next;
    if steps != [] {
      StepKeeps(h, steps[0]);
      RunKeeps(Next(h, steps[0]), steps[1..]);
    }
  }

  /** At any time the runs received are those answered, each once, and those still with a job of their own, and no
      run is both. */
  lemma OneAnswerPerRun(cap: nat, steps: seq<Step>, id: nat)
    requires cap > 0 && Run(Fresh(cap), steps)
    ensures var h := After(Fresh(cap), steps);
            && (id in h.received <==> id in h.sent || IsPending(h, id))
            && !(id in h.sent && IsPending(h, id))
            && (forall i, k :: 0 <= i < k < |h.sent| ==> h.sent[i] != h.sent[k])
  {
    hide Run, After, OnWorkers;
    FreshHolds(cap);
    RunKeeps(Fresh(cap), steps);
    var h := After(Fresh(cap), steps);
    if IsPending(h, id) { assert JobInv(h, h.jobOf[id]); }
    if id in h.sent { var k :| 0 <= k < |h.sent| && h.sent[k] == id; }
  }

  lemma FreshHolds(cap: nat)
    requires cap > 0
    ensures Inv(Fresh(cap))
  {
  }

  /** A run is told to stop exactly if a Cancel with its number came while it was known; other runs, and other uses of
      the same pooled job, are not. */
  lemma CancelReachesItsRun(cap: nat, steps: seq<Step>, j: nat)
    requires cap > 0 && Run(Fresh(cap), steps)
    requires j < |After(Fresh(cap), steps).jobs| && Live(After(Fresh(cap), steps).jobs[j].place)
    ensures var h := After(Fresh(cap), steps); h.jobs[j].cancel <==> h.jobs[j].id in h.cancelled
  {
    hide Run, After, OnWorkers;
    FreshHolds(cap);
    RunKeeps(Fresh(cap), steps);
    assert JobInv(After(Fresh(cap), steps), j);
  }

  /** Queued runs have idle or starting workers, unless the cap is reached; and unless every worker is busy, one that is
      not asleep will look at the queue. */
  lemma QueuedRunsHaveWorkers(cap: nat, steps: seq<Step>)
    requires cap > 0 && Run(Fresh(cap), steps)
    ensures var h := After(Fresh(cap), steps);
            && h.workers <= cap
            && (|h.queue| <= h.starting + h.awake + h.sleeping || h.workers == h.cap)
            && (h.queue != [] ==> h.starting + h.awake > 0 || (h.sleeping == 0 && OnWorkers(h.jobs) == h.workers > 0))
  {
    hide Run, After, OnWorkers;
    FreshHolds(cap);
    RunKeeps(Fresh(cap), steps);
    CapStays(Fresh(cap), steps);
  }

  lemma {:induction false} CapStays(h: Host, steps: seq<Step>)
    requires Run(h, steps)
    ensures After(h, steps).cap == h.cap
    decreases |steps|
  {
    hide OnWorkers, NoRuns;
    if steps != [] { CapStays(Next(h, steps[0]), steps[1..]); }
  }

  /** No run is inside an instance that is destroyed or being destroyed. */
  lemma InstanceOutlivesRuns(cap: nat, steps: seq<Step>, j: nat)
    requires cap > 0 && Run(Fresh(cap), steps)
    requires j < |After(Fresh(cap), steps).jobs| && After(Fresh(cap), steps).jobs[j].place.Uses?
    ensures var h := After(Fresh(cap), steps);
            var g := h.jobs[j].place.instance;
            g !in h.destroyed && h.leaving != Some(g) && h.instance == Some(g)
  {
    hide Run, After, OnWorkers;
    FreshHolds(cap);
    RunKeeps(Fresh(cap), steps);
    assert JobInv(After(Fresh(cap), steps), j);
  }

  /** Every instance made so far is the one in use, is on its way out, or is destroyed, and only one of these. */
  ghost predicate InstancesAccounted(h: Host) {
    && (forall g: nat :: g < h.nextInstance <==> h.instance == Some(g) || h.leaving == Some(g) || g in h.destroyed)
    && (h.instance.Some? ==> h.instance.value !in h.destroyed && h.leaving != h.instance)
    && (h.leaving.Some? ==> h.leaving.value !in h.destroyed)
  }

  lemma StepAccounts(h: Host, s: Step)
    requires InstancesAccounted(h) && Enabled(h, s)
    ensures InstancesAccounted(Next(h, s))
  {
    hide NoRuns, CancelAll;
    var t := Next(h, s);
    match s {
      case Unset => assert t.instance == None && t.leaving == h.instance && t.destroyed == h.destroyed;
      case Destroyed => assert t.leaving == None && t.destroyed == h.destroyed + {h.leaving.value};
      case Create =>
        assert t.instance == Some(h.nextInstance) && t.nextInstance == h.nextInstance + 1;
        assert h.nextInstance !in h.destroyed;
      case _ =>
        assert t.instance == h.instance && t.leaving == h.leaving && t.destroyed == h.destroyed;
        assert t.nextInstance == h.nextInstance;
    }
  }

  lemma {:induction false} RunAccounts(h: Host, steps: seq<Step>)
    requires InstancesAccounted(h) && Run(h, steps)
    ensures InstancesAccounted(After(h, steps))
    decreases |steps|
  {
    hide Next, Enabled, InstancesAccounted;
    if steps != [] {
      StepAccounts(h, steps[0]);
      RunAccounts(Next(h, steps[0]), steps[1..]);
    }
  }

  /** No engine instance is lost or destroyed twice. */
  lemma InstancesEnd(cap: nat, steps: seq<Step>, g: nat)
    requires Run(Fresh(cap), steps)
    ensures var h := After(Fresh(cap), steps);
            && (g < h.nextInstance <==> h.instance == Some(g) || h.leaving == Some(g) || g in h.destroyed)
            && !(g in h.destroyed && (h.instance == Some(g) || h.leaving == Some(g)))
            && !(h.instance == Some(g) && h.leaving == Some(g))
  {
    hide Run, After;
    RunAccounts(Fresh(cap), steps);
  }

  lemma {:induction false} SomeoneWorks(jobs: seq<Job>) returns (j: nat)
    requires OnWorkers(jobs) > 0
    ensures j < |jobs| && OnWorker(jobs[j].place)
    decreases |jobs|
  {
    var n := |jobs| - 1;
    if OnWorker(jobs[n].place) {
      j := n;
    } else {
      j := SomeoneWorks(jobs[..n]);
      assert jobs[j] == jobs[..n][j];
    }
  }

  function WorkStep(job: Job, j: nat): Step
    requires OnWorker(job.place)
  {
    match job.place
    case Started => Load(j)
    case Uses(_) => Finish(j)
    case Answered => Return(j)
  }

  predicate ByWorker(s: Step) {
    s.WorkerArrives? || s.WorkerTakes? || s.Load? || s.Finish? || s.Return?
  }

  /** While a run is owed its final frame, some worker can go on, whatever the core sends or does not send. */
  lemma NeverStuck(cap: nat, steps: seq<Step>, id: nat) returns (s: Step)
    requires cap > 0 && Run(Fresh(cap), steps) && IsPending(After(Fresh(cap), steps), id)
    ensures ByWorker(s) && Enabled(After(Fresh(cap), steps), s)
  {
    hide Run, After, OnWorkers;
    FreshHolds(cap);
    RunKeeps(Fresh(cap), steps);
    var h := After(Fresh(cap), steps);
    var j := h.jobOf[id];
    if OnWorker(h.jobs[j].place) {
      s := WorkStep(h.jobs[j], j);
    } else {
      assert j in h.queue;
      assert Is(h, h.queue[0], Queued);
      if h.awake > 0 {
        s := WorkerTakes;
      } else if h.starting > 0 {
        s := WorkerArrives;
      } else {
        var k := SomeoneWorks(h.jobs);
        s := WorkStep(h.jobs[k], k);
      }
    }
  }
}
