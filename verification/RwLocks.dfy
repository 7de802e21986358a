/** The ReadWriteLock protocol under guard-style use: a thread arrives, holds the lock and releases it in
    the kind it took it. Source: src/server/rw_lock.hpp:15-49. */
module RwLocks {

  datatype Kind = Reader | Writer

  /** Arriving: about to test the wait predicate for the first time; Awake: about to test it again. */
  datatype Thread = Outside | Arriving(kind: Kind) | Asleep(kind: Kind) | Awake(kind: Kind) | Inside(kind: Kind)

  datatype Lock = Lock(isLocked: bool, isWriterActive: bool, threads: seq<Thread>)

  datatype Step =
    | Arrive(t: nat, kind: Kind)
    | Recheck(t: nat)
    | Release(t: nat, woken: nat)
    | Spurious(t: nat)

  ghost predicate SomeAsleep(threads: seq<Thread>) {
    exists t :: 0 <= t < |threads| && threads[t].Asleep?
  }

  function Wake(x: Thread): Thread {
    if x.Asleep? then Awake(x.kind) else x
  }

  function WakeAll(threads: seq<Thread>): (r: seq<Thread>)
    ensures |r| == |threads| && forall t :: 0 <= t < |r| ==> r[t] == Wake(threads[t])
  {
    seq(|threads|, t requires 0 <= t < |threads| => Wake(threads[t]))
  }

  /** notify_one may wake any sleeper, and must wake one if there is one. */
  ghost predicate Enabled(l: Lock, step: Step) {
    step.t < |l.threads| &&
    match step
    case Arrive(t, _) => l.threads[t].Outside?
    case Recheck(t) => l.threads[t].Arriving? || l.threads[t].Awake?
    case Release(t, woken) =>
      l.threads[t].Inside? && (SomeAsleep(l.threads) ==> woken < |l.threads| && l.threads[woken].Asleep?)
    case Spurious(t) => l.threads[t].Asleep?
  }

  ghost function Apply(l: Lock, step: Step): Lock
    requires Enabled(l, step)
  {
    match step
    case Arrive(t, kind) => l.(threads := l.threads[t := Arriving(kind)])
    case Recheck(t) =>
      var kind := l.threads[t].kind;
      if l.isLocked || l.isWriterActive then l.(threads := l.threads[t := Asleep(kind)])
      else Lock(true, if kind.Writer? then true else l.isWriterActive, l.threads[t := Inside(kind)])
    case Release(t, woken) =>
      var out := l.threads[t := Outside];
      if l.threads[t].kind.Reader? then
        l.(isLocked := false,
           threads := if SomeAsleep(l.threads) then out[woken := Wake(out[woken])] else out)
      else Lock(false, false, WakeAll(out))
    case Spurious(t) => l.(threads := l.threads[t := Wake(l.threads[t])])
  }

  ghost predicate Held(l: Lock, t: nat) {
    t < |l.threads| && l.threads[t].Inside?
  }

  ghost predicate Inv(l: Lock) {
    && (forall s, t :: 0 <= s < |l.threads| && 0 <= t < |l.threads| && l.threads[s].Inside? && l.threads[t].Inside? ==>
          s == t)
    && (l.isLocked <==> exists t :: 0 <= t < |l.threads| && l.threads[t].Inside?)
    && (l.isWriterActive <==> exists t :: 0 <= t < |l.threads| && l.threads[t] == Inside(Writer))
    && (!l.isLocked && SomeAsleep(l.threads) ==> exists t :: 0 <= t < |l.threads| && l.threads[t].Awake?)
  }

  ghost predicate Initial(l: Lock) {
    !l.isLocked && !l.isWriterActive && forall t :: 0 <= t < |l.threads| ==> l.threads[t].Outside?
  }

  lemma ArriveKeeps(l: Lock, t: nat, kind: Kind)
    requires Inv(l) && Enabled(l, Arrive(t, kind))
    ensures Inv(Apply(l, Arrive(t, kind)))
  {
    var m := Apply(l, Arrive(t, kind));
    assert forall s :: 0 <= s < |l.threads| && s != t ==> m.threads[s] == l.threads[s];
    assert forall s :: 0 <= s < |l.threads| && l.threads[s] != Outside ==> m.threads[s] == l.threads[s];
  }

  lemma RecheckKeeps(l: Lock, t: nat)
    requires Inv(l) && Enabled(l, Recheck(t))
    ensures Inv(Apply(l, Recheck(t)))
  {
    var m := Apply(l, Recheck(t));
    assert forall s :: 0 <= s < |l.threads| && s != t ==> m.threads[s] == l.threads[s];
    var kind := l.threads[t].kind;
    assert m.threads[t] == if l.isLocked || l.isWriterActive then Asleep(kind) else Inside(kind);
    if l.isLocked || l.isWriterActive {
      assert l.isLocked;
      assert forall s :: 0 <= s < |l.threads| && l.threads[s].Inside? ==> m.threads[s].Inside?;
      assert forall s :: 0 <= s < |l.threads| && l.threads[s] == Inside(Writer) ==> m.threads[s] == Inside(Writer);
    }
  }

  lemma ReleaseKeeps(l: Lock, t: nat, woken: nat)
    requires Inv(l) && Enabled(l, Release(t, woken))
    ensures Inv(Apply(l, Release(t, woken)))
  {
    var m := Apply(l, Release(t, woken));
    assert forall s :: 0 <= s < |l.threads| ==> !m.threads[s].Inside? by {
      forall s | 0 <= s < |l.threads| ensures !m.threads[s].Inside? {
        assert s != t ==> !l.threads[s].Inside?;
      }
    }
    if SomeAsleep(m.threads) {
      var s :| 0 <= s < |m.threads| && m.threads[s].Asleep?;
      assert l.threads[s].Asleep?;
      assert m.threads[woken].Awake?;
    }
  }

  lemma SpuriousKeeps(l: Lock, t: nat)
    requires Inv(l) && Enabled(l, Spurious(t))
    ensures Inv(Apply(l, Spurious(t)))
  {
    var m := Apply(l, Spurious(t));
    assert m.threads[t].Awake?;
    assert forall s :: 0 <= s < |l.threads| && s != t ==> m.threads[s] == l.threads[s];
    assert forall s :: 0 <= s < |l.threads| && !l.threads[s].Asleep? ==> m.threads[s] == l.threads[s];
  }

  lemma StepKeeps(l: Lock, step: Step)
    requires Inv(l) && Enabled(l, step)
    ensures Inv(Apply(l, step))
  {
    match step
    case Arrive(t, kind) => ArriveKeeps(l, t, kind);
    case Recheck(t) => RecheckKeeps(l, t);
    case Release(t, woken) => ReleaseKeeps(l, t, woken);
    case Spurious(t) => SpuriousKeeps(l, t);
  }

  ghost predicate IsRun(l: Lock, steps: seq<Step>)
    decreases |steps|
  {
    steps == [] || (Enabled(l, steps[0]) && IsRun(Apply(l, steps[0]), steps[1..]))
  }

  ghost function After(l: Lock, steps: seq<Step>): Lock
    requires IsRun(l, steps)
    decreases |steps|
  {
    if steps == [] then l else After(Apply(l, steps[0]), steps[1..])
  }

  lemma {:induction false} RunKeeps(l: Lock, steps: seq<Step>)
    requires Inv(l) && IsRun(l, steps)
    ensures Inv(After(l, steps))
    decreases |steps|
  {
    if steps != [] {
      StepKeeps(l, steps[0]);
      RunKeeps(Apply(l, steps[0]), steps[1..]);
    }
  }

  /** At most one thread is inside, whatever its kind: readers exclude each other too. The flags say
      exactly whether the lock is held and whether by a writer. */
  lemma MutualExclusion(l: Lock, steps: seq<Step>)
    requires Initial(l) && IsRun(l, steps)
    ensures var m := After(l, steps);
            && (forall s: nat, t: nat :: Held(m, s) && Held(m, t) ==> s == t)
            && (m.isLocked <==> exists t: nat :: Held(m, t))
            && (m.isWriterActive <==> exists t: nat :: Held(m, t) && m.threads[t].kind.Writer?)
  {
    RunKeeps(l, steps);
    var m := After(l, steps);
    if m.isLocked {
      var t :| 0 <= t < |m.threads| && m.threads[t].Inside?;
      assert Held(m, t);
    }
    if m.isWriterActive {
      var t :| 0 <= t < |m.threads| && m.threads[t] == Inside(Writer);
      assert Held(m, t);
    }
    if t: nat :| Held(m, t) && m.threads[t].kind.Writer? {
      assert m.threads[t] == Inside(Writer);
    }
  }

  /** notify_one suffices: while a thread sleeps, the lock is held and its holder will release it, or
      some thread is already on its way to test the predicate again. So no one sleeps for want of a step. */
  lemma SleeperHasHope(l: Lock, steps: seq<Step>) returns (step: Step)
    requires Initial(l) && IsRun(l, steps) && SomeAsleep(After(l, steps).threads)
    ensures var m := After(l, steps);
            && Enabled(m, step)
            && (if m.isLocked then step.Release?
                else step.Recheck? && m.threads[step.t].Awake? && Apply(m, step).threads[step.t].Inside?)
  {
    RunKeeps(l, steps);
    var m := After(l, steps);
    if m.isLocked {
      var t :| 0 <= t < |m.threads| && m.threads[t].Inside?;
      var w :| 0 <= w < |m.threads| && m.threads[w].Asleep?;
      step := Release(t, w);
    } else {
      var t :| 0 <= t < |m.threads| && m.threads[t].Awake?;
      step := Recheck(t);
    }
  }

  // ---------- the object ----------

  /** The lock itself; each method is one critical section. wait's loop shows as repeated calls. */
  class ReadWriteLock {
    var isLocked: bool
    var isWriterActive: bool
    var threads: seq<Thread>

    ghost function View(): Lock
      reads this
    {
      Lock(isLocked, isWriterActive, threads)
    }

    constructor (n: nat)
      ensures Initial(View()) && |threads| == n
    {
      isLocked, isWriterActive, threads := false, false, seq(n, _ => Outside);
    }

    /** One test of the predicate in read_lock or write_lock; true when the lock is taken. */
    method TryLock(t: nat) returns (taken: bool)
      requires Enabled(View(), Recheck(t))
      modifies this
      ensures View() == Apply(old(View()), Recheck(t))
      ensures taken <==> threads[t].Inside?
    {
      var kind := threads[t].kind;
      if !isLocked && !isWriterActive {
        if kind.Writer? {
          isWriterActive := true;
        }
        isLocked := true;
        threads := threads[t := Inside(kind)];
        return true;
      }
      threads := threads[t := Asleep(kind)];
      return false;
    }

    /** read_unlock: clear the flag, wake one sleeper. */
    method ReadUnlock(t: nat)
      requires t < |threads| && threads[t] == Inside(Reader)
      modifies this
      ensures exists w :: Enabled(old(View()), Release(t, w)) && View() == Apply(old(View()), Release(t, w))
      ensures !isLocked && isWriterActive == old(isWriterActive)
      ensures old(SomeAsleep(threads)) ==>
                exists w :: 0 <= w < |old(threads)| && old(threads)[w].Asleep? &&
                            threads == old(threads)[t := Outside][w := Awake(old(threads)[w].kind)]
    {
      ghost var before := View();
      isLocked := false;
      var w := 0;
      while w < |threads| && !threads[w].Asleep?
        invariant 0 <= w <= |threads|
        invariant forall v :: 0 <= v < w ==> !threads[v].Asleep?
      {
        w := w + 1;
      }
      assert SomeAsleep(threads) <==> w < |threads|;
      assert Enabled(before, Release(t, w));
      threads := threads[t := Outside];
      if w < |threads| {
        threads := threads[w := Wake(threads[w])];
      }
    }

    /** write_unlock: clear both flags, wake every sleeper. */
    method WriteUnlock(t: nat)
      requires t < |threads| && threads[t] == Inside(Writer)
      modifies this
      ensures exists w :: Enabled(old(View()), Release(t, w)) && View() == Apply(old(View()), Release(t, w))
      ensures !isLocked && !isWriterActive && !SomeAsleep(threads)
    {
      ghost var before := View();
      ghost var w := t;
      if SomeAsleep(threads) {
        w :| 0 <= w < |threads| && threads[w].Asleep?;
      }
      assert Enabled(before, Release(t, w));
      isWriterActive := false;
      isLocked := false;
      threads := WakeAll(threads[t := Outside]);
    }
  }
}
