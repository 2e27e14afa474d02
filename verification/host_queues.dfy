/** The host's lists under its mutex, against the steps of the scheduling model. */
module HostQueues {
  import opened HostJobs

  datatype Kind = InPool | InQueue | WithWorker

  predicate Belongs(kind: Kind, p: Place) {
    match kind
    case InPool => p.Free?
    case InQueue => p.Queued?
    case WithWorker => OnWorker(p)
  }

  /** The list has exactly the jobs of its kind, each once. */
  predicate Lists(list: seq<nat>, jobs: seq<Job>, kind: Kind) {
    && (forall i :: 0 <= i < |list| ==> list[i] < |jobs| && Belongs(kind, jobs[list[i]].place))
    && (forall i, k :: 0 <= i < k < |list| ==> list[i] != list[k])
    && (forall j :: 0 <= j < |jobs| && Belongs(kind, jobs[j].place) ==> j in list)
  }

  class Queues {
    var jobs: seq<Job>
    var queue: seq<nat>
    var running: seq<nat>
    var free: seq<nat>

    ghost predicate Valid()
      reads this
    {
      && Lists(queue, jobs, InQueue)
      && Lists(running, jobs, WithWorker)
      && Lists(free, jobs, InPool)
    }

    constructor ()
      ensures Valid() && jobs == []
    {
      jobs, queue, running, free := [], [], [], [];
    }

    /** A job from the pool, or a new one, takes the run; nothing of its last use is left. */
    method OnRun(id: nat) returns (j: nat)
      requires Valid()
      modifies this
      ensures Valid() && queue == old(queue) + [j] && running == old(running)
      ensures j == |old(jobs)| || (j < |old(jobs)| && old(jobs)[j].place.Free?)
      ensures var job := Job(id, false, Queued);
              jobs == if j < |old(jobs)| then old(jobs)[j := job] else old(jobs) + [job]
    {
      var job := Job(id, false, Queued);
      if free != [] {
        j := TakeFree(job);
      } else {
        j := |jobs|;
        Added(queue, running, free, jobs, job);
        hide Lists;
        jobs := jobs + [job];
        queue := queue + [j];
      }
    }

    /** The last job of the pool is queued. */
    method TakeFree(job: Job) returns (j: nat)
      requires Valid() && free != [] && job.place.Queued?
      modifies this
      ensures Valid() && queue == old(queue) + [j] && running == old(running)
      ensures j < |old(jobs)| && old(jobs)[j].place.Free? && jobs == old(jobs)[j := job]
    {
      j := free[|free| - 1];
      Popped(free, jobs, job);
      Pushed(queue, jobs, j, job);
      Elsewhere(running, jobs, j, job);
      hide Lists;
      free, jobs, queue := free[..|free| - 1], jobs[j := job], queue + [j];
    }

    /** Goes through the running jobs, then the queued ones. */
    method OnCancel(id: nat)
      requires Valid()
      modifies `jobs
      ensures Valid() && jobs == CancelAll(old(jobs), id)
    {
      ghost var before := jobs;
      CancelIn(running, id);
      CancelIn(queue, id);
      forall j | 0 <= j < |jobs| ensures jobs[j] == CancelJob(before[j], id) {
        assert Live(before[j].place) <==> j in running || j in queue by {
          assert j in running ==> OnWorker(before[j].place);
          assert j in queue ==> before[j].place.Queued?;
        }
      }
      assert jobs == CancelAll(before, id);
    }

    method CancelIn(list: seq<nat>, id: nat)
      requires forall i :: 0 <= i < |list| ==> list[i] < |jobs|
      modifies `jobs
      ensures |jobs| == |old(jobs)|
      ensures forall j :: 0 <= j < |jobs| ==>
        jobs[j] == if j in list && old(jobs)[j].id == id then old(jobs)[j].(cancel := true) else old(jobs)[j]
    {
      for i := 0 to |list|
        invariant |jobs| == |old(jobs)|
        invariant forall j :: 0 <= j < |jobs| ==>
          jobs[j] == if j in list[..i] && old(jobs)[j].id == id then old(jobs)[j].(cancel := true) else old(jobs)[j]
      {
        var j := list[i];
        if jobs[j].id == id { jobs := jobs[j := jobs[j].(cancel := true)]; }
        assert list[..i + 1] == list[..i] + [j];
      }
      assert list[..|list|] == list;
    }
  }

  lemma Added(queue: seq<nat>, running: seq<nat>, free: seq<nat>, jobs: seq<Job>, job: Job)
    requires Lists(queue, jobs, InQueue) && Lists(running, jobs, WithWorker) && Lists(free, jobs, InPool)
    requires job.place.Queued?
    ensures Lists(queue + [|jobs|], jobs + [job], InQueue)
    ensures Lists(running, jobs + [job], WithWorker) && Lists(free, jobs + [job], InPool)
  {
  }

  lemma Popped(free: seq<nat>, jobs: seq<Job>, job: Job)
    requires free != [] && Lists(free, jobs, InPool) && job.place.Queued?
    ensures Lists(free[..|free| - 1], jobs[free[|free| - 1] := job], InPool)
  {
    var n := |free| - 1;
    var t := jobs[free[n] := job];
    forall j | 0 <= j < |t| && t[j].place.Free? ensures j in free[..n] {
      assert j in free;
      var i :| 0 <= i < |free| && free[i] == j;
      assert free[..n][i] == j;
    }
  }

  lemma Pushed(queue: seq<nat>, jobs: seq<Job>, j: nat, job: Job)
    requires j < |jobs| && jobs[j].place.Free? && job.place.Queued? && Lists(queue, jobs, InQueue)
    ensures Lists(queue + [j], jobs[j := job], InQueue)
  {
  }

  lemma Elsewhere(running: seq<nat>, jobs: seq<Job>, j: nat, job: Job)
    requires j < |jobs| && jobs[j].place.Free? && job.place.Queued? && Lists(running, jobs, WithWorker)
    ensures Lists(running, jobs[j := job], WithWorker)
  {
  }
}
