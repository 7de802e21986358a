/** The step system with the real pool in place of an ideal one: workers sleep on the condition variable,
    notifications are pending, wakeups may be spurious. It refines the system whose workers are always
    awake, and is as live. Source: src/server/thread_pool.hpp:28-66, src/server/main.cpp:25-38. */
module PooledSystems {
  import opened Sequences
  import opened Handlers
  import opened Systems
  import opened Lockstep
  import opened Pipelines
  import opened Termination
  import T = ThreadPools

  /** jobs is history: the packet each task stands for, by task number. */
  datatype Pooled = Pooled(sys: System, pool: T.Pool, jobs: seq<Job>)

  /** Enqueue is the locked part of dispatch_async, Notify its notify_one, which may come later. */
  datatype PooledStep = Plain(step: Step) | Enqueue | Notify(w: nat) | Wake(w: nat) | Recheck(w: nat) | Done(w: nat)

  /** What a step does to the system underneath, if anything. */
  function Shadow(p: Pooled, step: PooledStep): (r: seq<Step>)
    ensures |r| <= 1
  {
    match step
    case Plain(s) => [s]
    case Enqueue => [Dispatch]
    case Recheck(w) => if p.pool.tasks == [] then [] else [Take(w)]
    case Done(w) => [Finish(w)]
    case _ => []
  }

  /** What it does to the pool, if anything. */
  function PoolStep(step: PooledStep): Option<T.Step> {
    match step
    case Plain(_) => None
    case Enqueue => Some(T.Dispatch)
    case Notify(w) => Some(T.NotifyOne(w))
    case Wake(w) => Some(T.Spurious(w))
    case Recheck(w) => Some(T.Recheck(w))
    case Done(w) => Some(T.Complete(w))
  }

  ghost predicate CanStep(p: Pooled, step: PooledStep) {
    && (step.Plain? ==> !step.step.Dispatch? && !step.step.Take? && !step.step.Finish?)
    && (Shadow(p, step) != [] ==> Enabled(p.sys, Shadow(p, step)[0]))
    && (PoolStep(step).Some? ==> T.Enabled(p.pool, PoolStep(step).value))
  }

  ghost function Next(cfg: Config, p: Pooled, step: PooledStep): Pooled
    requires CanStep(p, step)
  {
    Pooled(if Shadow(p, step) == [] then p.sys else Apply(cfg, p.sys, Shadow(p, step)[0]),
           if PoolStep(step).None? then p.pool else T.Apply(p.pool, PoolStep(step).value),
           if step.Enqueue? then p.jobs + [p.sys.stack[|p.sys.stack| - 1]] else p.jobs)
  }

  ghost predicate IsPooledRun(cfg: Config, p: Pooled, steps: seq<PooledStep>)
    decreases |steps|
  {
    steps == [] || (CanStep(p, steps[0]) && IsPooledRun(cfg, Next(cfg, p, steps[0]), steps[1..]))
  }

  ghost function Reached(cfg: Config, p: Pooled, steps: seq<PooledStep>): Pooled
    requires IsPooledRun(cfg, p, steps)
    decreases |steps|
  {
    if steps == [] then p else Reached(cfg, Next(cfg, p, steps[0]), steps[1..])
  }

  // ---------- refinement ----------

  /** The run of the system underneath. */
  ghost function Projection(cfg: Config, p: Pooled, steps: seq<PooledStep>): seq<Step>
    requires IsPooledRun(cfg, p, steps)
    decreases |steps|
  {
    if steps == [] then [] else Shadow(p, steps[0]) + Projection(cfg, Next(cfg, p, steps[0]), steps[1..])
  }

  /** Every run with a real pool is, underneath, a run with the ideal one: whatever holds of every run of
      the step system holds with sleeping workers too. */
  lemma {:induction false} Refines(cfg: Config, p: Pooled, steps: seq<PooledStep>)
    requires IsPooledRun(cfg, p, steps)
    ensures IsRun(cfg, p.sys, Projection(cfg, p, steps))
    ensures After(cfg, p.sys, Projection(cfg, p, steps)) == Reached(cfg, p, steps).sys
    decreases |steps|
  {
    hide Apply, Enabled, T.Apply, T.Enabled, PoolStep;
    if steps != [] {
      var q := Next(cfg, p, steps[0]);
      Refines(cfg, q, steps[1..]);
      var rest := Projection(cfg, q, steps[1..]);
      if Shadow(p, steps[0]) == [] {
        assert [] + rest == rest;
      } else {
        assert (Shadow(p, steps[0]) + rest)[1..] == rest;
      }
    }
  }

  // ---------- what ties the two together ----------

  /** A busy worker is busy with the given packet. */
  ghost predicate Carries(x: Worker, job: Job) {
    match x
    case Idle => false
    case Took(j) => j == job
    case Typed(j, _) => j == job
    case Sending(conn, _) => conn == job.conn
  }

  /** The queue holds the packets of the pool's tasks, in the same order. */
  ghost predicate SameQueue(p: Pooled) {
    && |p.jobs| == p.pool.dispatched && |p.pool.tasks| == |p.sys.queue|
    && forall k :: 0 <= k < |p.sys.queue| ==> p.pool.tasks[k] < |p.jobs| && p.sys.queue[k] == p.jobs[p.pool.tasks[k]]
  }

  /** A worker runs a task in the pool exactly when it is busy in the system, with that task's packet. */
  ghost predicate SameWorkers(p: Pooled) {
    && |p.pool.workers| == |p.sys.workers|
    && forall w :: 0 <= w < |p.pool.workers| ==>
         if p.pool.workers[w].Running? then
           p.pool.workers[w].task < |p.jobs| && Carries(p.sys.workers[w], p.jobs[p.pool.workers[w].task])
         else p.sys.workers[w] == Idle
  }

  ghost predicate Matched(p: Pooled) {
    T.Inv(p.pool) && !p.pool.stop && SameQueue(p) && SameWorkers(p)
  }

  function Pool0(init: System): Pooled {
    Pooled(init, T.Started(|init.workers|), [])
  }

  /** Steps of the system that are no business of the pool's. */
  lemma PlainMatches(cfg: Config, p: Pooled, step: PooledStep)
    requires Matched(p) && CanStep(p, step) && step.Plain?
    ensures Matched(Next(cfg, p, step))
  {
    hide T.Inv, Handle, Asking, Polled, Executed, Fed, Read, Moved, Result, OtherResult, OtherMay;
  }

  lemma QueueMatches(cfg: Config, p: Pooled, step: PooledStep)
    requires Matched(p) && CanStep(p, step) && !step.Plain?
    ensures SameQueue(Next(cfg, p, step))
  {
    hide T.Once, T.Accounted, T.Covered, T.Stopping, SameWorkers, Carries;
  }

  lemma WorkersMatch(cfg: Config, p: Pooled, step: PooledStep)
    requires Matched(p) && CanStep(p, step) && !step.Plain?
    ensures SameWorkers(Next(cfg, p, step))
  {
    hide T.Once, T.Accounted, T.Covered, T.Stopping;
  }

  lemma PoolMatches(cfg: Config, p: Pooled, step: PooledStep)
    requires Matched(p) && CanStep(p, step) && !step.Plain?
    ensures Matched(Next(cfg, p, step))
  {
    hide T.Inv, SameQueue, SameWorkers;
    T.StepKeeps(p.pool, PoolStep(step).value);
    QueueMatches(cfg, p, step);
    WorkersMatch(cfg, p, step);
  }

  /** In every run the queue is the pool's, packet by packet, and a worker running a task has its packet: so
      packets are taken in the order they were dispatched, each by one worker. */
  lemma PacketsAreTasks(cfg: Config, init: System, steps: seq<PooledStep>)
    requires Initial(cfg, init) && IsPooledRun(cfg, Pool0(init), steps)
    ensures var p := Reached(cfg, Pool0(init), steps);
            SameQueue(p) && SameWorkers(p) && T.Fifo(p.pool) && T.Once(p.pool)
  {
    hide CanStep, Next, SameQueue, SameWorkers, T.Fifo, T.Once;
    StartMatched(cfg, init);
    StaysMatched(cfg, Pool0(init), steps);
  }

  /** The system's own guard never holds the pool up: a worker the pool lets test its predicate can. */
  lemma GuardNeverBlocks(cfg: Config, o: Oracle, p: Pooled, w: nat)
    requires Matched(p) && PipeOk(cfg, o, p.sys) && T.Enabled(p.pool, T.Recheck(w))
    ensures CanStep(p, Recheck(w))
  {
    hide T.Inv, Sound;
    if p.pool.tasks != [] {
      assert JobOk(p.sys.links, p.sys.queue[0], Queued);
    }
  }

  lemma {:induction false} StaysMatched(cfg: Config, p: Pooled, steps: seq<PooledStep>)
    requires Matched(p) && IsPooledRun(cfg, p, steps)
    ensures Matched(Reached(cfg, p, steps))
    decreases |steps|
  {
    hide Matched, CanStep, Next;
    if steps != [] {
      if steps[0].Plain? {
        PlainMatches(cfg, p, steps[0]);
      } else {
        PoolMatches(cfg, p, steps[0]);
      }
      StaysMatched(cfg, Next(cfg, p, steps[0]), steps[1..]);
    }
  }

  // ---------- liveness ----------

  /** A queued packet and an idle worker: some worker can test the predicate and find the packet, or a
      notification is still to come. This is where no lost wakeup is needed. */
  lemma IdleMeetsTask(p: Pooled, w: nat) returns (step: PooledStep)
    requires Matched(p) && Enabled(p.sys, Take(w))
    ensures CanStep(p, step) && (step.Recheck? || step.Notify?)
  {
    hide T.Fifo, T.Once, T.Accounted;
    if !p.pool.workers[w].Sleeping? {
      step := Recheck(w);
    } else if p.pool.pending > 0 {
      step := Notify(w);
    } else {
      assert T.SomeSleeping(p.pool.workers);
      T.NoneWoken(p.pool.workers);
      var v :| 0 <= v < |p.pool.workers| && p.pool.workers[v].Woken?;
      step := Recheck(v);
    }
  }

  /** Deadlock freedom with a real pool: until every client is done some step other than a spurious wakeup
      can be taken. */
  lemma PooledProgress(cfg: Config, init: System, steps: seq<PooledStep>) returns (step: PooledStep)
    requires Initial(cfg, init) && AllAnswerable(init.links) && IsPooledRun(cfg, Pool0(init), steps)
    ensures var p := Reached(cfg, Pool0(init), steps);
            Finished(p.sys) || (CanStep(p, step) && !step.Wake?)
  {
    hide Apply, Finished, PipeOk, Enabled, T.Apply, T.Inv, Matched, CanStep, Next, AllAnswerable;
    var p := Reached(cfg, Pool0(init), steps);
    StartMatched(cfg, init);
    StaysMatched(cfg, Pool0(init), steps);
    Refines(cfg, Pool0(init), steps);
    AnswerableRun(cfg, init, Projection(cfg, Pool0(init), steps));
    var o := Reachable(cfg, init, Projection(cfg, Pool0(init), steps));
    var s := Progress(cfg, o, p.sys);
    step := Enqueue;
    if Enabled(p.sys, s) {
      step := Lift(p, s);
    }
  }

  lemma StartMatched(cfg: Config, init: System)
    requires Initial(cfg, init)
    ensures Matched(Pool0(init))
  {
  }

  /** A step of the system underneath can be taken, or what it waits for in the pool can. */
  lemma Lift(p: Pooled, s: Step) returns (step: PooledStep)
    requires Matched(p) && Enabled(p.sys, s)
    ensures CanStep(p, step) && !step.Wake?
  {
    hide T.Inv;
    match s
    case Dispatch => step := Enqueue;
    case Finish(w) => step := Done(w);
    case Take(w) => step := IdleMeetsTask(p, w);
    case _ => step := Plain(s);
  }

  // ---------- every run ends ----------

  function PoolWorkerCost(x: T.Worker): nat {
    if x.Ready? || x.Woken? then 2 else 0
  }

  function PoolWorkersCost(workers: seq<T.Worker>): nat {
    if workers == [] then 0 else PoolWorkerCost(workers[0]) + PoolWorkersCost(workers[1..])
  }

  lemma {:induction false} PoolWorkersCostUpdate(workers: seq<T.Worker>, w: nat, x: T.Worker)
    requires w < |workers|
    ensures PoolWorkersCost(workers[w := x]) ==
            PoolWorkersCost(workers) - PoolWorkerCost(workers[w]) + PoolWorkerCost(x)
  {
    hide PoolWorkerCost;
    if w > 0 {
      PoolWorkersCostUpdate(workers[1..], w - 1, x);
      assert workers[w := x][1..] == workers[1..][w - 1 := x];
    } else {
      assert workers[w := x][1..] == workers[1..];
    }
  }

  /** The system's measure, and behind it the notifications still to come and the workers still to look. */
  function PoolCost(pool: T.Pool): nat {
    3 * pool.pending + PoolWorkersCost(pool.workers)
  }

  function PooledMeasure(p: Pooled): nat {
    4 * Measure(p.sys) + PoolCost(p.pool)
  }

  /** What each step of the pool costs or saves. */
  lemma PoolStepCost(pool: T.Pool, step: T.Step)
    requires T.Enabled(pool, step) && !pool.stop && !step.SetStop? && !step.NotifyAll?
    ensures var q := T.Apply(pool, step);
            match step
            case Dispatch => PoolCost(q) == PoolCost(pool) + 3
            case Complete(w) => PoolCost(q) == PoolCost(pool) + 2
            case Spurious(w) => PoolCost(q) == PoolCost(pool) + 2
            case _ => PoolCost(q) < PoolCost(pool)
  {
    if step.NotifyOne? {
      if T.SomeSleeping(pool.workers) {
        PoolWorkersCostUpdate(pool.workers, step.w, T.Woken);
      }
    } else if step.Spurious? || step.Recheck? || step.Complete? {
      PoolWorkersCostUpdate(pool.workers, step.w, T.Apply(pool, step).workers[step.w]);
    }
  }

  lemma PooledStepCost(cfg: Config, o: Oracle, p: Pooled, step: PooledStep)
    requires Matched(p) && PipeOk(cfg, o, p.sys) && CanStep(p, step)
    ensures PooledMeasure(Next(cfg, p, step)) <= PooledMeasure(p) + (if step.Wake? then 2 else -1)
  {
    hide Apply, Measure, PipeOk, Enabled, PoolCost, T.Apply, T.Enabled, T.Inv;
    if Shadow(p, step) != [] {
      StepDecreases(cfg, o, p.sys, Shadow(p, step)[0]);
    }
    if PoolStep(step).Some? {
      PoolStepCost(p.pool, PoolStep(step).value);
    }
  }

  function Spurious(steps: seq<PooledStep>): nat {
    if steps == [] then 0 else (if steps[0].Wake? then 1 else 0) + Spurious(steps[1..])
  }

  lemma {:induction false} PooledBound(cfg: Config, o: Oracle, p: Pooled, steps: seq<PooledStep>)
    requires Matched(p) && PipeOk(cfg, o, p.sys) && IsPooledRun(cfg, p, steps)
    ensures |steps| <= PooledMeasure(p) + 3 * Spurious(steps)
    decreases |steps|
  {
    hide PipeOk, Matched, PooledMeasure, CanStep, Next;
    if steps != [] {
      PooledStepCost(cfg, o, p, steps[0]);
      if steps[0].Plain? {
        PlainMatches(cfg, p, steps[0]);
      } else {
        PoolMatches(cfg, p, steps[0]);
      }
      var q := PooledStepOk(cfg, o, p, steps[0]);
      PooledBound(cfg, q, Next(cfg, p, steps[0]), steps[1..]);
    }
  }

  lemma PooledStepOk(cfg: Config, o: Oracle, p: Pooled, step: PooledStep) returns (q: Oracle)
    requires PipeOk(cfg, o, p.sys) && CanStep(p, step)
    ensures PipeOk(cfg, q, Next(cfg, p, step).sys)
  {
    hide PipeOk, Apply, Enabled, T.Apply, T.Enabled;
    q := o;
    if Shadow(p, step) != [] {
      q := StepExtends(cfg, o, p.sys, Shadow(p, step)[0]);
    }
  }

  /** With a real pool too no schedule runs for ever, but for spurious wakeups: a run is no longer than a
      bound read off its start and three steps for each of them. */
  lemma PooledRunsEnd(cfg: Config, init: System, steps: seq<PooledStep>)
    requires Initial(cfg, init) && IsPooledRun(cfg, Pool0(init), steps)
    ensures |steps| <= PooledMeasure(Pool0(init)) + 3 * Spurious(steps)
  {
    hide PipeOk, Matched, PooledMeasure, CanStep, Next, Apply;
    var none: seq<Step> := [];
    var o := Reachable(cfg, init, none);
    StartMatched(cfg, init);
    PooledBound(cfg, o, Pool0(init), steps);
  }
}
