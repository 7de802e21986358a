/** The server thread's turn, as its object runs it, is a run of the step system: polls in list order, then
    the stack dispatched last-in first-out. Source: src/server/main.cpp:25-38, 85-197. */
module Turns {
  import opened Protocol
  import opened Sequences
  import opened Handlers
  import opened Connection
  import opened Systems
  import Server

  type Numbering = ConnectionWrapper -> nat

  /** The packets handed over, as the step system writes them. */
  ghost function JobsOf(number: Numbering, packets: seq<Server.Completed>): (r: seq<Job>)
    ensures |r| == |packets|
  {
    seq(|packets|, k requires 0 <= k < |packets| => Job(number(packets[k].conn), packets[k].data))
  }

  lemma JobsOfAppend(number: Numbering, a: seq<Server.Completed>, b: seq<Server.Completed>)
    ensures JobsOf(number, a + b) == JobsOf(number, a) + JobsOf(number, b)
  {
  }

  lemma JobsOfTagged(number: Numbering, c: ConnectionWrapper, packets: seq<seq<byte>>)
    ensures JobsOf(number, Server.Tagged(c, packets)) == Jobs(number(c), packets)
  {
  }

  lemma {:induction false} JobsOfReverse(number: Numbering, packets: seq<Server.Completed>)
    ensures JobsOf(number, Reverse(packets)) == Reverse(JobsOf(number, packets))
  {
    if packets != [] {
      JobsOfReverse(number, packets[1..]);
      JobsOfAppend(number, Reverse(packets[1..]), [packets[0]]);
      assert JobsOf(number, packets)[1..] == JobsOf(number, packets[1..]);
      assert JobsOf(number, [packets[0]]) == [JobsOf(number, packets)[0]];
    }
  }

  // ---------- runs one step longer ----------

  lemma {:induction false} RunThen(cfg: Config, s: System, steps: seq<Step>, step: Step)
    requires IsRun(cfg, s, steps) && Enabled(After(cfg, s, steps), step)
    ensures IsRun(cfg, s, steps + [step])
    ensures After(cfg, s, steps + [step]) == Apply(cfg, After(cfg, s, steps), step)
    decreases |steps|
  {
    hide Apply, Enabled;
    if steps == [] {
      assert ([] + [step])[1..] == [];
    } else {
      RunThen(cfg, Apply(cfg, s, steps[0]), steps[1..], step);
      assert (steps + [step])[1..] == steps[1..] + [step];
    }
  }

  lemma {:induction false} RunRun(cfg: Config, s: System, a: seq<Step>, b: seq<Step>)
    requires IsRun(cfg, s, a) && IsRun(cfg, After(cfg, s, a), b)
    ensures IsRun(cfg, s, a + b) && After(cfg, s, a + b) == After(cfg, After(cfg, s, a), b)
    decreases |a|
  {
    hide Apply, Enabled;
    if a == [] {
      assert a + b == b;
    } else {
      RunRun(cfg, Apply(cfg, s, a[0]), a[1..], b);
      assert (a + b)[1..] == a[1..] + b;
    }
  }

  // ---------- the polls ----------

  ghost predicate Mirrors(l: Link, now: Server.Snapshot) {
    l.buf == now.buf && l.pos == now.pos
  }

  /** Each connection of the list is a link of its own, and what recv brings is what its client has sent. */
  ghost predicate Ready(s: System, number: Numbering, conns: seq<ConnectionWrapper>, was: seq<Server.Snapshot>,
                        results: seq<Server.RecvResult>) {
    && |conns| == |was| && Server.AllFit(was, results)
    && (forall k :: 0 <= k < |conns| ==>
          && number(conns[k]) < |s.links| && Mirrors(s.links[number(conns[k])], was[k])
          && (results[k].Data? ==> results[k].bytes <= s.links[number(conns[k])].up))
    && (forall j, k :: 0 <= j < k < |conns| ==> number(conns[j]) != number(conns[k]))
  }

  ghost predicate Elsewhere(number: Numbering, conns: seq<ConnectionWrapper>, i: nat) {
    forall k :: 0 <= k < |conns| ==> number(conns[k]) != i
  }

  /** The connections have been polled: their packets are stacked and their buffers as the poll leaves them,
      and nothing else has changed. */
  ghost predicate PolledTo(s: System, number: Numbering, conns: seq<ConnectionWrapper>, was: seq<Server.Snapshot>,
                           results: seq<Server.RecvResult>, t: System)
    requires Ready(s, number, conns, was, results)
  {
    && t.stack == s.stack + JobsOf(number, Server.Emitted(conns, was, results))
    && t.queue == s.queue && t.workers == s.workers && t.shared == s.shared && |t.links| == |s.links|
    && (forall k :: 0 <= k < |conns| ==> Mirrors(t.links[number(conns[k])], Server.AfterRecv(was[k], results[k])))
    && (forall i: nat :: i < |s.links| && Elsewhere(number, conns, i) ==> t.links[i] == s.links[i])
  }

  /** One connection more. */
  lemma PollOne(cfg: Config, s: System, number: Numbering, conns: seq<ConnectionWrapper>, was: seq<Server.Snapshot>,
                results: seq<Server.RecvResult>, t: System) returns (u: System, more: seq<Step>)
    requires conns != [] && Ready(s, number, conns, was, results)
    requires var n := |conns| - 1;
             Ready(s, number, conns[..n], was[..n], results[..n]) &&
             PolledTo(s, number, conns[..n], was[..n], results[..n], t)
    ensures if more == [] then u == t
            else |more| == 1 && Enabled(t, more[0]) && u == Apply(cfg, t, more[0])
    ensures PolledTo(s, number, conns, was, results, u)
  {
    hide Server.Fits, Server.Emitted, Server.Cut, Server.AfterRecv, Polled, PollResult, Server.Tagged, JobsOf;
    var n := |conns| - 1;
    var i := number(conns[n]);
    assert Elsewhere(number, conns[..n], i);
    EmittedSnoc(number, conns, was, results);
    JobsOfTagged(number, conns[n], Server.Cut(was[n], results[n]));
    var front := JobsOf(number, Server.Emitted(conns[..n], was[..n], results[..n]));
    Regroup(s.stack, front, Jobs(i, Server.Cut(was[n], results[n])));
    if results[n].Data? {
      var k := |results[n].bytes|;
      OneLink(t.links[i], was[n], results[n]);
      more := [Poll(i, k)];
      u := Apply(cfg, t, more[0]);
    } else {
      u, more := t, [];
      NothingCut(was[n], results[n]);
      NoJobs(i);
    }
    forall k | 0 <= k < |conns|
      ensures Mirrors(u.links[number(conns[k])], Server.AfterRecv(was[k], results[k]))
    {
      assert k < n ==> conns[..n][k] == conns[k] && was[..n][k] == was[k] && results[..n][k] == results[k];
    }
    forall j: nat | j < |s.links| && Elsewhere(number, conns, j) ensures u.links[j] == s.links[j] {
      assert Elsewhere(number, conns[..n], j);
    }
  }

  lemma OneLink(l: Link, was: Server.Snapshot, r: Server.RecvResult)
    requires Server.Fits(was, r) && r.Data? && Mirrors(l, was) && r.bytes <= l.up
    ensures var k := |r.bytes|;
            && 0 < k <= |l.up| && l.pos + k <= |l.buf|
            && PollResult(l, k).packets == Server.Cut(was, r) && Mirrors(Polled(l, k), Server.AfterRecv(was, r))
  {
    assert l.up[..|r.bytes|] == r.bytes;
  }

  lemma NothingCut(was: Server.Snapshot, r: Server.RecvResult)
    requires Server.Fits(was, r) && !r.Data?
    ensures Server.Cut(was, r) == [] && Server.AfterRecv(was, r) == was
  {
  }

  lemma NoJobs(i: nat)
    ensures Jobs(i, []) == []
  {
  }

  lemma EmittedSnoc(number: Numbering, conns: seq<ConnectionWrapper>, was: seq<Server.Snapshot>,
                    results: seq<Server.RecvResult>)
    requires conns != [] && |conns| == |was| && Server.AllFit(was, results)
    ensures var n := |conns| - 1;
            JobsOf(number, Server.Emitted(conns, was, results)) ==
            JobsOf(number, Server.Emitted(conns[..n], was[..n], results[..n])) +
            JobsOf(number, Server.Tagged(conns[n], Server.Cut(was[n], results[n])))
  {
    hide Server.Cut;
    var n := |conns| - 1;
    JobsOfAppend(number, Server.Emitted(conns[..n], was[..n], results[..n]),
                 Server.Tagged(conns[n], Server.Cut(was[n], results[n])));
  }

  lemma {:induction false} PollPhase(cfg: Config, s: System, number: Numbering, conns: seq<ConnectionWrapper>,
                                     was: seq<Server.Snapshot>, results: seq<Server.RecvResult>)
    returns (steps: seq<Step>)
    requires Ready(s, number, conns, was, results)
    ensures IsRun(cfg, s, steps) && PolledTo(s, number, conns, was, results, After(cfg, s, steps))
    decreases |conns|
  {
    hide Apply, Enabled, Server.Fits, Server.AfterRecv;
    steps := [];
    if conns == [] {
      assert s.stack + [] == s.stack;
    } else {
      var n := |conns| - 1;
      steps := PollPhase(cfg, s, number, conns[..n], was[..n], results[..n]);
      var u, more := PollOne(cfg, s, number, conns, was, results, After(cfg, s, steps));
      if more != [] {
        RunThen(cfg, s, steps, more[0]);
        steps := steps + [more[0]];
      }
    }
  }

  // ---------- the dispatches ----------

  /** Nothing but where its exchange stands has changed of a link. */
  ghost predicate SameBytes(l: Link, m: Link) {
    m == l.(stage := m.stage)
  }

  /** handle_packets in the step system: dispatching until the stack is empty reverses it into the queue. */
  lemma {:induction false} DispatchPhase(cfg: Config, s: System) returns (steps: seq<Step>)
    requires forall a :: 0 <= a < |s.stack| ==> s.stack[a].conn < |s.links|
    ensures IsRun(cfg, s, steps)
    ensures var t := After(cfg, s, steps);
            && t.stack == [] && t.queue == s.queue + Reverse(s.stack) && t.workers == s.workers && t.shared == s.shared
            && |t.links| == |s.links| && forall i :: 0 <= i < |s.links| ==> SameBytes(s.links[i], t.links[i])
    decreases |s.stack|
  {
    hide Reverse;
    steps := [];
    if s.stack == [] {
      NothingReversed(s.queue);
    } else {
      Server.LastFirst(s.queue, s.stack);
      var t := Apply(cfg, s, Dispatch);
      var rest := DispatchPhase(cfg, t);
      steps := [Dispatch] + rest;
      assert steps[1..] == rest;
    }
  }

  lemma NothingReversed(queue: seq<Job>)
    ensures queue + Reverse([]) == queue
  {
  }

  /** The whole turn, for what its polls and its stack hold. */
  lemma TurnIsRun(cfg: Config, s: System, number: Numbering, conns: seq<ConnectionWrapper>,
                  was: seq<Server.Snapshot>, results: seq<Server.RecvResult>, completed: seq<Server.Completed>)
    returns (steps: seq<Step>)
    requires Ready(s, number, conns, was, results) && s.stack == JobsOf(number, completed)
    requires forall a :: 0 <= a < |completed| ==> number(completed[a].conn) < |s.links|
    ensures IsRun(cfg, s, steps)
    ensures var t := After(cfg, s, steps);
            && t.stack == []
            && t.queue == s.queue + JobsOf(number, Reverse(completed + Server.Emitted(conns, was, results)))
            && t.workers == s.workers && t.shared == s.shared && |t.links| == |s.links|
            && (forall k :: 0 <= k < |conns| ==>
                  Mirrors(t.links[number(conns[k])], Server.AfterRecv(was[k], results[k])))
            && (forall i: nat :: i < |s.links| && Elsewhere(number, conns, i) ==> SameBytes(s.links[i], t.links[i]))
  {
    hide Apply, Enabled, Server.Fits, Server.AfterRecv, Server.Emitted, Reverse;
    var polls := PollPhase(cfg, s, number, conns, was, results);
    var u := After(cfg, s, polls);
    var all := completed + Server.Emitted(conns, was, results);
    JobsOfAppend(number, completed, Server.Emitted(conns, was, results));
    forall a | 0 <= a < |u.stack| ensures u.stack[a].conn < |u.links| {
      if a >= |completed| {
        Server.EmittedAreListed(conns, was, results, a - |completed|);
      }
    }
    var dispatches := DispatchPhase(cfg, u);
    RunRun(cfg, s, polls, dispatches);
    steps := polls + dispatches;
    JobsOfReverse(number, all);
  }

  // ---------- the object and the step system side by side ----------

  /** The object's connections, stack and queue are the step system's. */
  ghost predicate Mirrored(st: Server.ServerState, s: System, number: Numbering)
    reads st, st.known, Server.BuffersOf(st.known)
  {
    && s.stack == JobsOf(number, st.completed) && s.queue == JobsOf(number, st.queue)
    && (forall c :: c in st.known ==> number(c) < |s.links| && Mirrors(s.links[number(c)], Server.Now(c)))
    && (forall c, d :: c in st.known && d in st.known && number(c) == number(d) ==> c == d)
    && (forall a :: 0 <= a < |st.completed| ==> st.completed[a].conn in st.known)
  }

  /** The connections by number, with their buffers as they are. */
  ghost predicate Numbered(known: set<ConnectionWrapper>, s: System, number: Numbering,
                           now: map<ConnectionWrapper, Server.Snapshot>) {
    && (forall c :: c in known ==> c in now && number(c) < |s.links| && Mirrors(s.links[number(c)], now[c]))
    && (forall c, d :: c in known && d in known && number(c) == number(d) ==> c == d)
  }

  /** Each connection polled has moved on, and no other link's bytes have. */
  ghost predicate Advanced(s: System, number: Numbering, conns: seq<ConnectionWrapper>, was: seq<Server.Snapshot>,
                           results: seq<Server.RecvResult>, t: System) {
    && |conns| == |was| && Server.AllFit(was, results) && |t.links| == |s.links|
    && (forall k :: 0 <= k < |conns| ==>
          number(conns[k]) < |t.links| && Mirrors(t.links[number(conns[k])], Server.AfterRecv(was[k], results[k])))
    && (forall i: nat :: i < |s.links| && Elsewhere(number, conns, i) ==> SameBytes(s.links[i], t.links[i]))
  }

  lemma MirroredReady(st: Server.ServerState, s: System, number: Numbering, offers: seq<Server.RecvResult>)
    requires st.Valid() && Mirrored(st, s, number)
    requires forall k :: 0 <= k < |st.active| && st.Polls(offers)[k].Data? && number(st.active[k]) < |s.links| ==>
               st.Polls(offers)[k].bytes <= s.links[number(st.active[k])].up
    ensures Ready(s, number, st.active, st.Snapshots(), st.Polls(offers))
    ensures forall c :: c in st.known && c !in st.active ==> c.buffer !in Server.Buffers(st.active)
  {
    hide Server.From, ConnectionWrapper.Valid, Server.Fits, JobsOf;
    forall k | 0 <= k < |st.active| ensures st.active[k] in st.known {
    }
  }

  /** The run that mirrors the turn to come. */
  lemma TurnSteps(cfg: Config, st: Server.ServerState, offers: seq<Server.RecvResult>, s: System, number: Numbering)
    returns (steps: seq<Step>)
    requires st.Valid() && Mirrored(st, s, number)
    requires forall k :: 0 <= k < |st.active| && st.Polls(offers)[k].Data? && number(st.active[k]) < |s.links| ==>
               st.Polls(offers)[k].bytes <= s.links[number(st.active[k])].up
    ensures IsRun(cfg, s, steps)
    ensures forall c :: c in st.known && c !in st.active ==> c.buffer !in Server.Buffers(st.active)
    ensures var t := After(cfg, s, steps);
            var all := st.completed + Server.Emitted(st.active, st.Snapshots(), st.Polls(offers));
            && t.stack == [] && t.queue == JobsOf(number, st.queue + Reverse(all))
            && t.workers == s.workers && t.shared == s.shared
            && Advanced(s, number, st.active, st.Snapshots(), st.Polls(offers), t)
  {
    hide Server.From, ConnectionWrapper.Valid, Server.Fits, Server.AfterRecv, Server.Emitted;
    hide Reverse, JobsOf, Apply, Enabled, Server.KeepsAll;
    MirroredReady(st, s, number, offers);
    steps := TurnIsRun(cfg, s, number, st.active, st.Snapshots(), st.Polls(offers), st.completed);
    JobsOfAppend(number, st.queue, Reverse(st.completed + Server.Emitted(st.active, st.Snapshots(), st.Polls(offers))));
  }

  lemma MirroredAgain(st: Server.ServerState, s: System, number: Numbering, conns: seq<ConnectionWrapper>,
                      was: seq<Server.Snapshot>, results: seq<Server.RecvResult>,
                      before: map<ConnectionWrapper, Server.Snapshot>, t: System)
    requires Advanced(s, number, conns, was, results, t) && Numbered(st.known, s, number, before)
    requires t.stack == [] && t.queue == JobsOf(number, st.queue) && st.completed == []
    requires Server.Polled(conns, was, results, |conns|)
    requires forall c :: c in st.known && c !in conns ==> Server.Now(c) == before[c]
    requires forall c :: c in conns ==> c in st.known
    ensures Mirrored(st, t, number)
  {
    hide Server.AfterRecv, Server.Fits, ConnectionWrapper.Valid;
    forall c | c in st.known ensures number(c) < |t.links| && Mirrors(t.links[number(c)], Server.Now(c)) {
      if k :| 0 <= k < |conns| && conns[k] == c {
        assert Server.Now(conns[k]) == Server.AfterRecv(was[k], results[k]);
      } else {
        assert forall k :: 0 <= k < |conns| ==> conns[k] in conns;
        assert Elsewhere(number, conns, number(c));
      }
    }
  }

  lemma MirroredNumbers(st: Server.ServerState, s: System, number: Numbering,
                        before: map<ConnectionWrapper, Server.Snapshot>)
    requires Mirrored(st, s, number)
    requires forall c :: c in st.known ==> c in before && before[c] == Server.Now(c)
    ensures Numbered(st.known, s, number, before)
  {
  }

  /** One turn of the server thread is a run of the step system, whatever the network does: the two have the
      same buffers, stack and queue afterwards, and each listed connection has been polled once. */
  method Turn(cfg: Config, st: Server.ServerState, offers: seq<Server.RecvResult>, ghost s: System,
              ghost number: Numbering) returns (ghost steps: seq<Step>)
    requires st.Valid() && Mirrored(st, s, number)
    requires forall k :: 0 <= k < |st.active| && st.Polls(offers)[k].Data? && number(st.active[k]) < |s.links| ==>
               st.Polls(offers)[k].bytes <= s.links[number(st.active[k])].up
    modifies st`pending, st`active, st`completed, st`queue, st`handed, st`polled, st.active, Server.Buffers(st.active)
    ensures st.Valid() && IsRun(cfg, s, steps) && Mirrored(st, After(cfg, s, steps), number)
    ensures After(cfg, s, steps).workers == s.workers && After(cfg, s, steps).shared == s.shared
    ensures st.polled == old(st.polled) + Server.Recvs(old(st.active), old(st.Polls(offers)))
    ensures st.completed == [] && st.pending == []
  {
    hide Server.From, ConnectionWrapper.Valid, Server.Fits, Server.AfterRecv, Server.Emitted, Server.Survivors;
    hide Reverse, JobsOf, Apply, Enabled, Server.KeepsAll, Mirrored, Numbered, Advanced, IsRun, After, Server.Polled;
    ghost var conns, was, results := st.active, st.Snapshots(), st.Polls(offers);
    ghost var before: map<ConnectionWrapper, Server.Snapshot> := map c | c in st.known :: Server.Now(c);
    steps := TurnSteps(cfg, st, offers, s, number);
    MirroredNumbers(st, s, number, before);
    st.ActiveIsKnown();
    st.ServerTurn(offers);
    MirroredAgain(st, s, number, conns, was, results, before, After(cfg, s, steps));
  }
}
