/** The worker pool's condition-variable protocol: a step is one critical section, one notification or
    one spurious wakeup. Tasks are numbered in the order they are dispatched.
    Source: src/server/thread_pool.hpp:28-81. */
module ThreadPools {
  import opened Sequences

  /** Ready: about to take the mutex and test the wait predicate. Sleeping: blocked in wait. Woken: out
      of wait, but the predicate is not tested again yet. */
  datatype Worker = Ready | Sleeping | Woken | Running(task: nat) | Exited

  /** pending counts dispatches that have queued their task and not yet called notify_one. The last four
      are history: tasks dispatched, tasks taken, tasks that ran, whether one was dispatched after stop. */
  datatype Pool = Pool(tasks: seq<nat>, stop: bool, allNotified: bool, pending: nat, workers: seq<Worker>,
                       dispatched: nat, taken: nat, done: set<nat>, late: bool)

  datatype Step =
    | Dispatch
    | NotifyOne(w: nat)
    | Spurious(w: nat)
    | Recheck(w: nat)
    | Complete(w: nat)
    | SetStop
    | NotifyAll

  ghost predicate SomeSleeping(workers: seq<Worker>) {
    exists w :: 0 <= w < |workers| && workers[w].Sleeping?
  }

  function Started(n: nat): Pool {
    Pool([], false, false, 0, seq(n, _ => Ready), 0, 0, {}, false)
  }

  ghost predicate Enabled(p: Pool, step: Step) {
    match step
    case Dispatch => true
    case NotifyOne(w) =>
      p.pending > 0 && if SomeSleeping(p.workers) then w < |p.workers| && p.workers[w].Sleeping? else true
    case Spurious(w) => w < |p.workers| && p.workers[w].Sleeping?
    case Recheck(w) => w < |p.workers| && (p.workers[w].Ready? || p.workers[w].Woken?)
    case Complete(w) => w < |p.workers| && p.workers[w].Running?
    case SetStop => true
    case NotifyAll => p.stop
  }

  function SetWorker(p: Pool, w: nat, x: Worker): Pool
    requires w < |p.workers|
  {
    p.(workers := p.workers[w := x])
  }

  function Wake(workers: seq<Worker>): (r: seq<Worker>)
    ensures |r| == |workers|
    ensures forall w :: 0 <= w < |r| ==> r[w] == if workers[w].Sleeping? then Woken else workers[w]
  {
    seq(|workers|, w requires 0 <= w < |workers| => if workers[w].Sleeping? then Woken else workers[w])
  }

  ghost function Apply(p: Pool, step: Step): Pool
    requires Enabled(p, step)
  {
    match step
    case Dispatch =>
      p.(tasks := p.tasks + [p.dispatched], dispatched := p.dispatched + 1, pending := p.pending + 1,
         late := p.late || p.stop)
    case NotifyOne(w) =>
      var q := p.(pending := p.pending - 1);
      if SomeSleeping(p.workers) then SetWorker(q, w, Woken) else q
    case Spurious(w) => SetWorker(p, w, Woken)
    case Recheck(w) =>
      if !p.stop && p.tasks == [] then SetWorker(p, w, Sleeping)
      else if p.tasks == [] then SetWorker(p, w, Exited)
      else SetWorker(p, w, Running(p.tasks[0])).(tasks := p.tasks[1..], taken := p.taken + 1)
    case Complete(w) => SetWorker(p, w, Ready).(done := p.done + {p.workers[w].task})
    case SetStop => p.(stop := true)
    case NotifyAll => p.(workers := Wake(p.workers), allNotified := true)
  }

  // ---------- the invariant ----------

  function CountWoken(workers: seq<Worker>): nat {
    if workers == [] then 0 else (if workers[0].Woken? then 1 else 0) + CountWoken(workers[1..])
  }

  lemma {:induction false} CountWokenUpdate(workers: seq<Worker>, w: nat, x: Worker)
    requires w < |workers|
    ensures CountWoken(workers[w := x]) ==
            CountWoken(workers) - (if workers[w].Woken? then 1 else 0) + (if x.Woken? then 1 else 0)
  {
    if w > 0 {
      CountWokenUpdate(workers[1..], w - 1, x);
      assert workers[w := x][1..] == workers[1..][w - 1 := x];
    } else {
      assert workers[w := x][1..] == workers[1..];
    }
  }

  /** The queue is the dispatched tasks not yet taken, in dispatch order. */
  ghost predicate Fifo(p: Pool) {
    p.taken + |p.tasks| == p.dispatched && forall k :: 0 <= k < |p.tasks| ==> p.tasks[k] == p.taken + k
  }

  /** A worker runs a task that was taken and is not done, and no two workers run the same one. */
  ghost predicate Once(p: Pool) {
    && (forall t :: t in p.done ==> t < p.taken)
    && (forall w :: 0 <= w < |p.workers| && p.workers[w].Running? ==>
          p.workers[w].task < p.taken && p.workers[w].task !in p.done)
    && (forall v, w :: 0 <= v < w < |p.workers| && p.workers[v].Running? ==> p.workers[v] != p.workers[w])
  }

  ghost predicate OnSomeWorker(workers: seq<Worker>, t: nat) {
    exists w :: 0 <= w < |workers| && workers[w] == Running(t)
  }

  /** Every task taken is done or running. */
  ghost predicate Accounted(p: Pool) {
    forall t: nat :: t < p.taken && t !in p.done ==> OnSomeWorker(p.workers, t)
  }

  /** No wakeup is lost: while a worker sleeps, each queued task has a notification or a woken worker coming. */
  ghost predicate Covered(p: Pool) {
    SomeSleeping(p.workers) ==> |p.tasks| <= p.pending + CountWoken(p.workers)
  }

  ghost predicate Stopping(p: Pool) {
    && (p.late ==> p.stop)
    && (p.allNotified ==> p.stop && !SomeSleeping(p.workers))
    && (forall w :: 0 <= w < |p.workers| && p.workers[w].Exited? ==> p.stop && (!p.late ==> p.tasks == []))
  }

  ghost predicate Inv(p: Pool) {
    Fifo(p) && Once(p) && Accounted(p) && Covered(p) && Stopping(p)
  }

  lemma FifoStep(p: Pool, step: Step)
    requires Fifo(p) && Enabled(p, step)
    ensures Fifo(Apply(p, step))
  {
  }

  lemma OnceStep(p: Pool, step: Step)
    requires Fifo(p) && Once(p) && Enabled(p, step)
    ensures Once(Apply(p, step))
  {
  }

  lemma AccountedStep(p: Pool, step: Step)
    requires Fifo(p) && Accounted(p) && Enabled(p, step)
    ensures Accounted(Apply(p, step))
  {
    var q := Apply(p, step);
    forall t: nat | t < q.taken && t !in q.done ensures OnSomeWorker(q.workers, t) {
      if t < p.taken {
        var w :| 0 <= w < |p.workers| && p.workers[w] == Running(t);
        assert q.workers[w] == Running(t);
      } else {
        assert q.workers[step.w] == Running(t);
      }
    }
  }

  lemma CoveredStep(p: Pool, step: Step)
    requires Inv(p) && Enabled(p, step)
    ensures Covered(Apply(p, step))
  {
    var q := Apply(p, step);
    if SomeSleeping(q.workers) {
      var s :| 0 <= s < |q.workers| && q.workers[s].Sleeping?;
      if !(step.Recheck? && step.w == s) {
        assert p.workers[s].Sleeping?;
      }
      if step.NotifyOne? || step.Spurious? || step.Recheck? || step.Complete? {
        CountWokenUpdate(p.workers, step.w, q.workers[step.w]);
      }
    }
  }

  /** Once all have been notified no step puts a worker to sleep. */
  lemma NoneFallsAsleep(p: Pool, step: Step, w: nat)
    requires Enabled(p, step) && p.stop && w < |p.workers| && !p.workers[w].Sleeping?
    ensures !Apply(p, step).workers[w].Sleeping?
  {
  }

  lemma StoppingStep(p: Pool, step: Step)
    requires Inv(p) && Enabled(p, step)
    ensures Stopping(Apply(p, step))
  {
    var q := Apply(p, step);
    if p.allNotified {
      forall w | 0 <= w < |q.workers| ensures !q.workers[w].Sleeping? {
        NoneFallsAsleep(p, step, w);
      }
    }
  }

  lemma StepKeeps(p: Pool, step: Step)
    requires Inv(p) && Enabled(p, step)
    ensures Inv(Apply(p, step))
  {
    FifoStep(p, step);
    OnceStep(p, step);
    AccountedStep(p, step);
    CoveredStep(p, step);
    StoppingStep(p, step);
  }

  // ---------- runs ----------

  ghost predicate IsRun(p: Pool, steps: seq<Step>)
    decreases |steps|
  {
    steps == [] || (Enabled(p, steps[0]) && IsRun(Apply(p, steps[0]), steps[1..]))
  }

  ghost function After(p: Pool, steps: seq<Step>): Pool
    requires IsRun(p, steps)
    decreases |steps|
  {
    if steps == [] then p else After(Apply(p, steps[0]), steps[1..])
  }

  lemma {:induction false} RunKeeps(p: Pool, steps: seq<Step>)
    requires Inv(p) && IsRun(p, steps)
    ensures Inv(After(p, steps)) && |After(p, steps).workers| == |p.workers|
    decreases |steps|
  {
    if steps != [] {
      StepKeeps(p, steps[0]);
      RunKeeps(Apply(p, steps[0]), steps[1..]);
    }
  }

  lemma ReachableInv(n: nat, steps: seq<Step>)
    requires IsRun(Started(n), steps)
    ensures Inv(After(Started(n), steps)) && |After(Started(n), steps).workers| == n
  {
    RunKeeps(Started(n), steps);
  }

  /** In every reachable state, spurious wakeups included, queued tasks that a sleeping worker could take
      are all accounted for; with every notification delivered and no worker in between, none are queued. */
  lemma NoLostWakeup(n: nat, steps: seq<Step>)
    requires IsRun(Started(n), steps) && SomeSleeping(After(Started(n), steps).workers)
    ensures var p := After(Started(n), steps);
            && |p.tasks| <= p.pending + CountWoken(p.workers)
            && (p.pending == 0 && (forall w :: 0 <= w < |p.workers| ==> !p.workers[w].Woken?) ==> p.tasks == [])
  {
    ReachableInv(n, steps);
    NoneWoken(After(Started(n), steps).workers);
  }

  lemma {:induction false} NoneWoken(workers: seq<Worker>)
    ensures (forall w :: 0 <= w < |workers| ==> !workers[w].Woken?) ==> CountWoken(workers) == 0
  {
    if workers != [] {
      NoneWoken(workers[1..]);
      assert (forall w :: 0 <= w < |workers| ==> !workers[w].Woken?) ==>
             (forall w :: 0 <= w < |workers| - 1 ==> !workers[1..][w].Woken?);
    }
  }

  /** Each task leaves the queue in its turn and is run by one worker only: nothing a worker runs is
      queued, done, or with another worker. */
  lemma ExactlyOnce(n: nat, steps: seq<Step>, w: nat)
    requires IsRun(Started(n), steps)
    requires w < |After(Started(n), steps).workers| && After(Started(n), steps).workers[w].Running?
    ensures var p := After(Started(n), steps);
            var t := p.workers[w].task;
            && t < p.dispatched && t !in p.tasks && t !in p.done
            && (forall v :: 0 <= v < |p.workers| && p.workers[v] == Running(t) ==> v == w)
            && (forall k :: 0 <= k < |p.tasks| ==> t < p.tasks[k])
  {
    ReachableInv(n, steps);
  }

  /** After stop has notified every worker, none can go back to sleep. */
  lemma NoSleepAfterNotifyAll(n: nat, steps: seq<Step>, w: nat)
    requires IsRun(Started(n), steps) && After(Started(n), steps).allNotified
    requires w < |After(Started(n), steps).workers|
    ensures var p := After(Started(n), steps);
            && !p.workers[w].Sleeping?
            && (Enabled(p, Recheck(w)) ==> !Apply(p, Recheck(w)).workers[w].Sleeping?)
  {
    ReachableInv(n, steps);
  }

  ghost predicate AllExited(p: Pool) {
    forall w :: 0 <= w < |p.workers| ==> p.workers[w].Exited?
  }

  /** A task is dispatched at a moment when every worker has already left. */
  ghost predicate DispatchedTooLate(p: Pool, steps: seq<Step>)
    requires IsRun(p, steps)
    decreases |steps|
  {
    steps != [] && ((steps[0].Dispatch? && AllExited(p)) || DispatchedTooLate(Apply(p, steps[0]), steps[1..]))
  }

  lemma ExitedStayExited(p: Pool, step: Step)
    requires |p.workers| > 0 && Enabled(p, step) && AllExited(p)
    ensures AllExited(Apply(p, step))
    ensures Apply(p, step).tasks == if step.Dispatch? then p.tasks + [p.dispatched] else p.tasks
  {
    assert p.workers[0].Exited?;
  }

  /** The last worker to leave leaves an empty queue behind. */
  lemma LastOneOut(p: Pool, step: Step)
    requires |p.workers| > 0 && Enabled(p, step) && !AllExited(p) && AllExited(Apply(p, step))
    ensures Apply(p, step).tasks == []
  {
    var q := Apply(p, step);
    assert q.workers[0].Exited?;
    var w :| 0 <= w < |p.workers| && !p.workers[w].Exited?;
    assert q.workers[w].Exited?;
  }

  lemma {:induction false} QueueAtEnd(p: Pool, steps: seq<Step>)
    requires |p.workers| > 0 && IsRun(p, steps) && AllExited(After(p, steps))
    ensures After(p, steps).tasks == [] <==> !DispatchedTooLate(p, steps) && (AllExited(p) ==> p.tasks == [])
    decreases |steps|
  {
    hide Apply, AllExited, Enabled;
    if steps != [] {
      QueueRest(p, steps[0]);
      QueueAtEnd(Apply(p, steps[0]), steps[1..]);
      if AllExited(p) {
        ExitedStayExited(p, steps[0]);
      } else if AllExited(Apply(p, steps[0])) {
        LastOneOut(p, steps[0]);
      }
    }
  }

  lemma QueueRest(p: Pool, step: Step)
    requires Enabled(p, step)
    ensures |Apply(p, step).workers| == |p.workers|
  {
  }

  /** Stopping drains: when every worker has left, every task ever dispatched has run if and only if no
      task was dispatched when all had already left. A task dispatched after stop, but while a worker is
      still there, does run. */
  lemma StopDrains(n: nat, steps: seq<Step>)
    requires n > 0 && IsRun(Started(n), steps) && AllExited(After(Started(n), steps))
    ensures var p := After(Started(n), steps);
            (forall t: nat :: t < p.dispatched <==> t in p.done) <==> !DispatchedTooLate(Started(n), steps)
  {
    ReachableInv(n, steps);
    var p := After(Started(n), steps);
    assert Started(n).workers[0] == Ready;
    QueueAtEnd(Started(n), steps);
    DoneIffEmpty(p);
  }

  lemma DoneIffEmpty(p: Pool)
    requires Inv(p) && AllExited(p)
    ensures p.tasks == [] <==> forall t: nat :: t < p.dispatched <==> t in p.done
  {
    if p.tasks != [] {
      assert p.taken < p.dispatched && p.taken !in p.done;
    }
  }

  /** With nothing dispatched after stop there is no such moment. */
  lemma NoLateTaskLost(n: nat, steps: seq<Step>)
    requires n > 0 && IsRun(Started(n), steps) && AllExited(After(Started(n), steps))
    requires !After(Started(n), steps).late
    ensures !DispatchedTooLate(Started(n), steps)
  {
    ReachableInv(n, steps);
    var p := After(Started(n), steps);
    assert p.workers[0].Exited?;
    assert Started(n).workers[0] == Ready;
    QueueAtEnd(Started(n), steps);
  }

  /** Such a run: a task dispatched once the only worker has gone stays in the queue. */
  lemma LateTaskIsStranded() returns (steps: seq<Step>)
    ensures IsRun(Started(1), steps)
    ensures var p := After(Started(1), steps);
            |p.workers| == 1 && AllExited(p) && p.late && p.dispatched == 1 && p.tasks == [0] && p.done == {}
  {
    var p0 := Started(1);
    var p1, s1 := Apply(p0, SetStop), [SetStop, Recheck(0), Dispatch];
    var p2, s2 := Apply(p1, Recheck(0)), [Recheck(0), Dispatch];
    var p3, s3 := Apply(p2, Dispatch), [Dispatch];
    steps := s1;
    assert s1[1..] == s2 && s2[1..] == s3 && |s3[1..]| == 0;
    assert IsRun(p3, s3[1..]) && After(p3, s3[1..]) == p3;
    assert IsRun(p2, s3) && After(p2, s3) == p3;
    assert IsRun(p1, s2) && After(p1, s2) == p3;
  }

  // ---------- the object ----------

  /** The pool itself; each method is one critical section or notification and takes one step. */
  class ThreadPool {
    var tasks: seq<nat>
    var stopFlag: bool
    var workers: seq<Worker>
    ghost var history: Pool

    ghost function View(): Pool
      reads this
    {
      history.(tasks := tasks, stop := stopFlag, workers := workers)
    }

    constructor (n: nat)
      ensures View() == Started(n)
    {
      tasks, stopFlag, workers := [], false, seq(n, _ => Ready);
      history := Started(n);
    }

    /** dispatch_async up to the end of its locked block. */
    method Dispatch(task: nat)
      requires task == View().dispatched
      modifies this
      ensures View() == Apply(old(View()), Step.Dispatch)
    {
      history := Apply(View(), Step.Dispatch);
      tasks := tasks + [task];
    }

    /** condition.notify_one. */
    method NotifyOne()
      requires View().pending > 0
      modifies this
      ensures exists w :: Enabled(old(View()), Step.NotifyOne(w)) && View() == Apply(old(View()), Step.NotifyOne(w))
    {
      ghost var before := View();
      var w := 0;
      while w < |workers| && !workers[w].Sleeping?
        invariant 0 <= w <= |workers|
        invariant forall v :: 0 <= v < w ==> !workers[v].Sleeping?
      {
        w := w + 1;
      }
      assert SomeSleeping(workers) <==> w < |workers|;
      assert Enabled(before, Step.NotifyOne(w));
      history := Apply(View(), Step.NotifyOne(w));
      if w < |workers| {
        workers := workers[w := Woken];
      }
    }

    /** One evaluation of the wait predicate under the mutex, and what follows it: sleep, leave, or
        take the first task. */
    method Recheck(w: nat) returns (task: Option<nat>)
      requires Enabled(View(), Step.Recheck(w))
      modifies this
      ensures View() == Apply(old(View()), Step.Recheck(w))
      ensures task == if View().workers[w].Running? then Some(View().workers[w].task) else None
    {
      history := Apply(View(), Step.Recheck(w));
      task := None;
      if !(stopFlag || tasks != []) {
        workers := workers[w := Sleeping];
        return;
      }
      if stopFlag && tasks == [] {
        workers := workers[w := Exited];
        return;
      }
      task := Some(tasks[0]);
      workers := workers[w := Running(tasks[0])];
      tasks := tasks[1..];
    }

    /** The locked block of stop. */
    method SetStop()
      modifies this
      ensures View() == Apply(old(View()), Step.SetStop)
    {
      history := Apply(View(), Step.SetStop);
      stopFlag := true;
    }

    /** condition.notify_all in stop. */
    method NotifyAll()
      requires stopFlag
      modifies this
      ensures View() == Apply(old(View()), Step.NotifyAll)
    {
      history := Apply(View(), Step.NotifyAll);
      workers := Wake(workers);
    }
  }
}
