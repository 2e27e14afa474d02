/** The background writer of checkpoints and events: a bounded queue, one writing thread, and flush. */
module AsyncWriter {
  import opened Options

  type Job = int
  type Error = int

  /** Where the writing thread is: waiting at the queue, writing a job, or past a write whose result it has not
      noted. */
  datatype Hand = Empty | Taken(job: Job) | Done(error: Option<Error>) | Exited

  /** History: every job enqueued, every job applied to the store, every result noted, how many were noted at the last
      flush that returned. */
  datatype Writer = Writer(
    capacity: nat, queue: seq<Job>, hand: Hand, queued: nat, written: nat, error: Option<Error>, stop: bool,
    enqueued: seq<Job>, applied: seq<Job>, results: seq<Option<Error>>, flushed: nat)

  datatype Step =
    | Enqueue(job: Job) | Take | Apply(error: Option<Error>) | Note | FlushReturns(target: nat) | Stop | Exit

  predicate Enabled(w: Writer, s: Step) {
    match s
    case Enqueue(_) => |w.queue| < w.capacity && !w.stop
    case Take => w.hand.Empty? && w.queue != []
    case Apply(_) => w.hand.Taken?
    case Note => w.hand.Done?
    case FlushReturns(target) => target <= w.queued && w.written >= target && !w.stop
    case Stop => true
    case Exit => w.hand.Empty? && w.stop && w.queue == []
  }

  function Next(w: Writer, s: Step): Writer
    requires Enabled(w, s)
  {
    match s
    case Enqueue(job) => w.(queue := w.queue + [job], queued := w.queued + 1, enqueued := w.enqueued + [job])
    case Take => w.(queue := w.queue[1..], hand := Taken(w.queue[0]))
    case Apply(error) => w.(hand := Done(error), applied := w.applied + [w.hand.job])
    case Note =>
      w.(hand := Empty, written := w.written + 1, error := if w.error.None? then w.hand.error else w.error,
         results := w.results + [w.hand.error])
    case FlushReturns(_) => w.(error := None, flushed := w.written)
    case Stop => w.(stop := true)
    case Exit => w.(hand := Exited)
  }

  function FirstError(results: seq<Option<Error>>): Option<Error> {
    if results == [] then None else if results[0].Some? then results[0] else FirstError(results[1..])
  }

  lemma {:induction false} FirstErrorMore(results: seq<Option<Error>>, e: Option<Error>)
    ensures FirstError(results + [e]) == if FirstError(results).Some? then FirstError(results) else e
    decreases |results|
  {
    if results == [] {
      assert results + [e] == [e];
    } else {
      assert (results + [e])[1..] == results[1..] + [e];
      FirstErrorMore(results[1..], e);
    }
  }

  lemma NoError()
    ensures FirstError([]) == None
  {
  }

  function InHand(h: Hand): seq<Job> {
    if h.Taken? then [h.job] else []
  }

  predicate Inv(w: Writer) {
    && w.capacity > 0 && |w.queue| <= w.capacity
    && w.enqueued == w.applied + InHand(w.hand) + w.queue && w.queued == |w.enqueued|
    && w.written == |w.results| && |w.applied| == w.written + (if w.hand.Done? then 1 else 0)
    && w.flushed <= w.written && w.error == FirstError(w.results[w.flushed..])
    && (w.hand.Exited? ==> w.stop && w.queue == [])
  }

  lemma StepKeeps(w: Writer, s: Step)
    requires Inv(w) && Enabled(w, s)
    ensures Inv(Next(w, s))
  {
    hide FirstError;
    match s
    case Enqueue(job) =>
      assert w.applied + InHand(w.hand) + (w.queue + [job]) == w.enqueued + [job];
    case Take =>
      assert [w.queue[0]] + w.queue[1..] == w.queue;
      assert w.applied + [w.queue[0]] + w.queue[1..] == w.enqueued;
    case Apply(error) =>
      assert w.applied + [w.hand.job] + [] + w.queue == w.enqueued;
    case Note =>
      assert (w.results + [w.hand.error])[w.flushed..] == w.results[w.flushed..] + [w.hand.error];
      FirstErrorMore(w.results[w.flushed..], w.hand.error);
    case FlushReturns(_) =>
      assert w.results[w.written..] == [];
      NoError();
    case Stop =>
    case Exit =>
  }

  predicate Run(w: Writer, steps: seq<Step>)
    decreases |steps|
  {
    steps == [] || (Enabled(w, steps[0]) && Run(Next(w, steps[0]), steps[1..]))
  }

  function After(w: Writer, steps: seq<Step>): Writer
    requires Run(w, steps)
    decreases |steps|
  {
    if steps == [] then w else After(Next(w, steps[0]), steps[1..])
  }

  function Fresh(capacity: nat): Writer {
    Writer(capacity, [], Empty, 0, 0, None, false, [], [], [], 0)
  }

  lemma {:induction false} RunKeeps(w: Writer, steps: seq<Step>)
    requires Inv(w) && Run(w, steps)
    ensures Inv(After(w, steps)) && After(w, steps).capacity == w.capacity
    decreases |steps|
  {
    if steps != [] {
      StepKeeps(w, steps[0]);
      RunKeeps(Next(w, steps[0]), steps[1..]);
    }
  }

  /** Jobs reach the store in the order they were enqueued, all but at most capacity + 1 of them; a flush that may
      return finds all that was queued before it in the store and returns the first error since the flush before; and
      once the thread has left, everything is in the store. */
  lemma WritesInOrder(capacity: nat, steps: seq<Step>)
    requires capacity > 0 && Run(Fresh(capacity), steps)
    ensures var w := After(Fresh(capacity), steps);
            && w.applied <= w.enqueued && |w.enqueued| - |w.applied| <= capacity + 1
            && (forall target :: 0 <= target <= w.queued && w.written >= target ==>
                  target <= |w.enqueued| && target <= |w.applied| && w.enqueued[..target] == w.applied[..target])
            && w.flushed <= |w.results| && w.error == FirstError(w.results[w.flushed..])
            && (w.hand.Exited? ==> w.applied == w.enqueued)
  {
    RunKeeps(Fresh(capacity), steps);
  }

  lemma {:induction false} StopStays(w: Writer, steps: seq<Step>)
    requires Run(w, steps)
    ensures After(w, steps).stop <==> w.stop || Stop in steps
    ensures After(w, steps).hand.Exited? <==> w.hand.Exited? || Exit in steps
    ensures w.stop ==> forall i :: 0 <= i < |steps| ==> !steps[i].Enqueue?
    decreases |steps|
  {
    if steps != [] {
      StopStays(Next(w, steps[0]), steps[1..]);
      assert forall i :: 0 < i < |steps| ==> steps[i] == steps[1..][i - 1];
      assert forall s: Step :: s in steps <==> s == steps[0] || s in steps[1..];
    }
  }

  /** After a stop request nothing more is queued, and the thread has left exactly if it took its leave, which it does
      with everything in the store. */
  lemma {:induction false} StopsForGood(capacity: nat, steps: seq<Step>, i: nat, j: nat)
    requires capacity > 0 && Run(Fresh(capacity), steps) && i < j < |steps| && steps[i] == Stop
    ensures !steps[j].Enqueue? && After(Fresh(capacity), steps).stop
    ensures var w := After(Fresh(capacity), steps); w.hand.Exited? <==> Exit in steps
    ensures steps[j] == Exit ==> After(Fresh(capacity), steps).applied == After(Fresh(capacity), steps).enqueued
  {
    StopStays(Fresh(capacity), steps);
    WritesInOrder(capacity, steps);
    NoneAfterStop(Fresh(capacity), steps, i, j);
  }

  lemma {:induction false} NoneAfterStop(w: Writer, steps: seq<Step>, i: nat, j: nat)
    requires Run(w, steps) && i < j < |steps| && steps[i] == Stop
    ensures !steps[j].Enqueue?
    decreases |steps|
  {
    var next := Next(w, steps[0]);
    if i == 0 { StopStays(next, steps[1..]); } else { NoneAfterStop(next, steps[1..], i - 1, j - 1); }
    assert steps[j] == steps[1..][j - 1];
  }

  /** While something is queued and nobody writes, the writing thread can take it; so a flush or a full queue waits only
      for the store. */
  lemma NeverStuck(capacity: nat, steps: seq<Step>)
    requires capacity > 0 && Run(Fresh(capacity), steps)
    ensures var w := After(Fresh(capacity), steps);
            w.written < w.queued ==> Enabled(w, Take) || w.hand.Taken? || w.hand.Done?
    ensures var w := After(Fresh(capacity), steps);
            |w.queue| == w.capacity ==> Enabled(w, Take) || w.hand.Taken? || w.hand.Done?
  {
    RunKeeps(Fresh(capacity), steps);
  }

  /** The thread's loop from the stop request on: it leaves with the queue drained and every job applied. */
  class Thread {
    var queue: seq<Job>
    var written: nat
    var error: Option<Error>
    var store: seq<Job>

    method Drain(result: Job -> Option<Error>)
      modifies this
      ensures queue == [] && store == old(store) + old(queue) && written == old(written) + |old(queue)|
      ensures error == if old(error).Some? then old(error)
        else FirstError(seq(|old(queue)|, i requires 0 <= i < |old(queue)| => result(old(queue)[i])))
    {
      ghost var jobs := queue;
      ghost var outcomes := seq(|jobs|, i requires 0 <= i < |jobs| => result(jobs[i]));
      ghost var k := 0;
      while queue != []
        invariant k <= |jobs| && queue == jobs[k..] && store == old(store) + jobs[..k] && written == old(written) + k
        invariant error == if old(error).Some? then old(error) else FirstError(outcomes[..k])
        decreases |queue|
      {
        var job := queue[0];
        queue := queue[1..];
        store := store + [job];
        var failed := result(job);
        if failed.Some? && error.None? { error := failed; }
        written := written + 1;
        assert jobs[..k + 1] == jobs[..k] + [job];
        assert outcomes[..k + 1] == outcomes[..k] + [failed];
        FirstErrorMore(outcomes[..k], failed);
        k := k + 1;
      }
      assert jobs[..k] == jobs && outcomes[..k] == outcomes;
    }
  }
}
