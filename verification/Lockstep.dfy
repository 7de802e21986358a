/** The invariant that makes the server's unordered pipeline correct for clients that send one request
    and then read one reply: each connection has its exchange in exactly one place, and that place
    holds what an oracle says of the client's requests so far. */
module Lockstep {
  import opened Protocol
  import opened Sequences
  import opened Framing
  import opened Handlers
  import opened Clients
  import opened SoloRuns
  import opened Systems

  /** What each client and its session are after k requests, and the reply to request k. The files an
      oracle speaks of play no part in the invariant. */
  datatype Oracle = Oracle(solo: (nat, nat) -> Solo, reply: (nat, nat) -> seq<byte>)

  // ---------- one connection ----------

  ghost predicate Asked(o: Oracle, i: nat, l: Link) {
    && l.client == o.solo(i, l.served).client
    && Request(l.client).Some? && IsPacket(Request(l.client).value)
    && l.phase == Waiting([]) && l.down == []
  }

  ghost predicate Travelling(o: Oracle, i: nat, l: Link) {
    Asked(o, i, l) && l.pos < |Request(l.client).value| && l.pos <= |l.buf| &&
    l.buf[..l.pos] + l.up == Request(l.client).value
  }

  /** The whole request is in, and its bytes still stand at the front of the receive buffer. */
  ghost predicate Arrived(o: Oracle, i: nat, l: Link) {
    Asked(o, i, l) && l.up == [] && l.pos == 0 && Request(l.client).value <= l.buf
  }

  ghost predicate GotOk(got: seq<byte>, reply: seq<byte>) {
    IsPacket(reply) && got <= reply && (got == [] || |got| >= HEADER_SIZE)
  }

  /** The handler has run; a prefix of its reply is read or in the channel. */
  ghost predicate Answered(o: Oracle, i: nat, l: Link) {
    && l.served > 0 && l.phase.Waiting? && l.up == [] && l.pos == 0
    && l.client == o.solo(i, l.served - 1).client && Request(l.client).Some?
    && GotOk(l.phase.got, o.reply(i, l.served - 1))
    && l.phase.got + l.down <= o.reply(i, l.served - 1)
  }

  ghost predicate LinkOk(o: Oracle, i: nat, l: Link) {
    && |l.buf| == BUFFER_SIZE
    && l.sess == o.solo(i, l.served).sess
    && match l.stage
       case AtClient =>
         l.client == o.solo(i, l.served).client && l.phase == Ready && l.up == [] && l.down == [] && l.pos == 0
       case OnWire => Travelling(o, i, l)
       case Stacked => Arrived(o, i, l)
       case Queued => Arrived(o, i, l)
       case AtWorker(_) => Arrived(o, i, l)
       case Replying(_) => Answered(o, i, l)
       case Unanswered => Arrived(o, i, l) && Request(l.client).value[1] == REQ_CRC_VERIFY
       case Replied => Answered(o, i, l) && l.phase.got + l.down == o.reply(i, l.served - 1)
  }

  ghost predicate LinksOk(o: Oracle, links: seq<Link>) {
    forall i :: 0 <= i < |links| ==> LinkOk(o, i, links[i])
  }

  // ---------- the server's stack, queue and workers ----------

  /** A job carries the request its connection's client is waiting on. */
  ghost predicate JobOk(links: seq<Link>, job: Job, stage: Stage) {
    job.conn < |links| && links[job.conn].stage == stage && Request(links[job.conn].client) == Some(job.data)
  }

  ghost predicate JobsOk(links: seq<Link>, jobs: seq<Job>, stage: Stage) {
    && (forall a :: 0 <= a < |jobs| ==> JobOk(links, jobs[a], stage))
    && (forall a, b :: 0 <= a < b < |jobs| ==> jobs[a].conn != jobs[b].conn)
  }

  ghost predicate WorkerOk(o: Oracle, links: seq<Link>, w: nat, x: Worker) {
    match x
    case Idle => true
    case Took(job) => JobOk(links, job, AtWorker(w))
    case Typed(job, command) => JobOk(links, job, AtWorker(w)) && |job.data| >= HEADER_SIZE && command == job.data[1]
    case Sending(i, rest) =>
      i < |links| &&
      (rest != [] ==>
         var l := links[i];
         l.stage == Replying(w) && l.served > 0 && l.phase.Waiting? &&
         l.phase.got + l.down + rest == o.reply(i, l.served - 1))
  }

  ghost predicate WorkersOk(o: Oracle, links: seq<Link>, workers: seq<Worker>) {
    forall w :: 0 <= w < |workers| ==> WorkerOk(o, links, w, workers[w])
  }

  /** Every exchange that has reached the server is held somewhere. */
  ghost predicate Held(s: System, i: nat, stage: Stage) {
    match stage
    case Stacked => exists a :: 0 <= a < |s.stack| && s.stack[a].conn == i
    case Queued => exists a :: 0 <= a < |s.queue| && s.queue[a].conn == i
    case AtWorker(w) => w < |s.workers| && (s.workers[w].Took? || s.workers[w].Typed?) && s.workers[w].job.conn == i
    case Replying(w) => w < |s.workers| && s.workers[w].Sending? && s.workers[w].conn == i && s.workers[w].rest != []
    case _ => true
  }

  ghost predicate AllHeld(s: System) {
    forall i :: 0 <= i < |s.links| ==> Held(s, i, s.links[i].stage)
  }

  ghost predicate Inv(o: Oracle, s: System) {
    && LinksOk(o, s.links)
    && JobsOk(s.links, s.stack, Stacked)
    && JobsOk(s.links, s.queue, Queued)
    && WorkersOk(o, s.links, s.workers)
    && AllHeld(s)
  }

  // ---------- changing one connection ----------

  lemma JobsStay(links: seq<Link>, jobs: seq<Job>, stage: Stage, i: nat, l: Link)
    requires JobsOk(links, jobs, stage) && i < |links|
    requires links[i].stage != stage
    ensures JobsOk(links[i := l], jobs, stage)
  {
    forall a | 0 <= a < |jobs| ensures JobOk(links[i := l], jobs[a], stage) {
      assert JobOk(links, jobs[a], stage);
    }
  }

  lemma JobsPush(links: seq<Link>, jobs: seq<Job>, stage: Stage, i: nat, l: Link, job: Job)
    requires JobsOk(links, jobs, stage) && i < |links| && job.conn == i
    requires links[i].stage != stage && JobOk(links[i := l], job, stage)
    ensures JobsOk(links[i := l], jobs + [job], stage)
  {
    JobsStay(links, jobs, stage, i, l);
    forall a | 0 <= a < |jobs| ensures jobs[a].conn != i {
      assert JobOk(links, jobs[a], stage);
    }
  }

  lemma JobsRemove(links: seq<Link>, before: seq<Job>, job: Job, after: seq<Job>, stage: Stage, l: Link)
    requires JobsOk(links, before + [job] + after, stage)
    ensures job.conn < |links| && links[job.conn].stage == stage && Request(links[job.conn].client) == Some(job.data)
    ensures JobsOk(links[job.conn := l], before + after, stage)
  {
    var all := before + [job] + after;
    assert all[|before|] == job;
    assert JobOk(links, all[|before|], stage);
    var left := before + after;
    forall a | 0 <= a < |left| ensures JobOk(links[job.conn := l], left[a], stage) {
      var b := if a < |before| then a else a + 1;
      assert left[a] == all[b];
      assert JobOk(links, all[b], stage);
    }
    forall a, b | 0 <= a < b < |left| ensures left[a].conn != left[b].conn {
      var a', b' := if a < |before| then a else a + 1, if b < |before| then b else b + 1;
      assert left[a] == all[a'] && left[b] == all[b'];
    }
  }

  /** Worker w and link i change together; no other worker has business with the link. */
  lemma WorkersChange(o: Oracle, links: seq<Link>, workers: seq<Worker>, i: nat, l: Link, w: nat, x: Worker)
    requires WorkersOk(o, links, workers) && i < |links| && w < |workers|
    requires links[i].stage.AtWorker? || links[i].stage.Replying? ==> links[i].stage.w == w
    requires WorkerOk(o, links[i := l], w, x)
    ensures WorkersOk(o, links[i := l], workers[w := x])
  {
    var links', workers' := links[i := l], workers[w := x];
    forall v | 0 <= v < |workers'| ensures WorkerOk(o, links', v, workers'[v]) {
      assert WorkerOk(o, links, v, workers[v]);
    }
  }

  lemma WorkersStay(o: Oracle, links: seq<Link>, workers: seq<Worker>, i: nat, l: Link)
    requires WorkersOk(o, links, workers) && i < |links|
    requires !links[i].stage.AtWorker? && !links[i].stage.Replying?
    ensures WorkersOk(o, links[i := l], workers)
  {
    forall v | 0 <= v < |workers| ensures WorkerOk(o, links[i := l], v, workers[v]) {
      assert WorkerOk(o, links, v, workers[v]);
    }
  }

  /** A link that no job and no worker holds is replaced by another such link. */
  lemma FreeLink(o: Oracle, s: System, i: nat, l: Link)
    requires Inv(o, s) && i < |s.links| && LinkOk(o, i, l)
    requires s.links[i].stage in {AtClient, OnWire, Replied} && l.stage in {AtClient, OnWire, Replied}
    ensures Inv(o, SetLink(s, i, l))
  {
    JobsStay(s.links, s.stack, Stacked, i, l);
    JobsStay(s.links, s.queue, Queued, i, l);
    WorkersStay(o, s.links, s.workers, i, l);
    var t := SetLink(s, i, l);
    forall j | 0 <= j < |t.links| ensures Held(t, j, t.links[j].stage) {
      assert Held(s, j, s.links[j].stage);
    }
  }

  /** The pieces of the invariant around one changed link. */
  lemma Assemble(o: Oracle, s: System, t: System, i: nat, m: Link)
    requires LinksOk(o, s.links) && AllHeld(s) && i < |s.links| && LinkOk(o, i, m) && t.links == s.links[i := m]
    requires JobsOk(t.links, t.stack, Stacked) && JobsOk(t.links, t.queue, Queued) && WorkersOk(o, t.links, t.workers)
    requires forall j :: 0 <= j < |s.links| && Held(s, j, s.links[j].stage) ==> Held(t, j, t.links[j].stage)
    ensures Inv(o, t)
  {
  }

  /** Worker x keeps the exchange of connection i if it is at stage. */
  predicate Keeps(x: Worker, i: nat, w: nat, stage: Stage) {
    match stage
    case AtWorker(v) => v == w && (x.Took? || x.Typed?) && x.job.conn == i
    case Replying(v) => v == w && x.Sending? && x.conn == i && x.rest != []
    case Replied => true
    case Unanswered => true
    case _ => false
  }

  /** Worker w and the link whose exchange it holds change together. */
  lemma WorkerMove(o: Oracle, s: System, i: nat, m: Link, w: nat, x: Worker, shared: Shared)
    requires Inv(o, s) && i < |s.links| && w < |s.workers|
    requires s.links[i].stage == AtWorker(w) || s.links[i].stage == Replying(w)
    requires LinkOk(o, i, m) && WorkerOk(o, s.links[i := m], w, x) && Keeps(x, i, w, m.stage)
    ensures Inv(o, SetWorker(SetLink(s, i, m), w, x).(shared := shared))
  {
    JobsStay(s.links, s.stack, Stacked, i, m);
    JobsStay(s.links, s.queue, Queued, i, m);
    WorkersChange(o, s.links, s.workers, i, m, w, x);
    var t := SetWorker(SetLink(s, i, m), w, x).(shared := shared);
    forall j | 0 <= j < |s.links| && Held(s, j, s.links[j].stage) ensures Held(t, j, t.links[j].stage) {
      assert Held(s, i, s.links[i].stage);
      HeldStays(s, t, i, m, w, x, j);
    }
    Assemble(o, s, t, i, m);
  }

  lemma HeldStays(s: System, t: System, i: nat, m: Link, w: nat, x: Worker, j: nat)
    requires i < |s.links| && j < |s.links| && w < |s.workers|
    requires t == SetWorker(SetLink(s, i, m), w, x).(shared := t.shared)
    requires s.links[i].stage == AtWorker(w) || s.links[i].stage == Replying(w)
    requires Held(s, i, s.links[i].stage) && Held(s, j, s.links[j].stage) && Keeps(x, i, w, m.stage)
    ensures Held(t, j, t.links[j].stage)
  {
  }

  // ---------- the steps ----------

  lemma AskingLink(o: Oracle, i: nat, l: Link)
    requires LinkOk(o, i, l) && l.phase == Ready && Request(l.client).Some? && IsPacket(Request(l.client).value)
    ensures LinkOk(o, i, Asking(l)) && l.stage == AtClient
  {
    var req := Request(l.client).value;
    assert l.buf[..0] + req == req && l.up + req == req;
  }

  lemma SendKeeps(o: Oracle, cfg: Config, s: System, i: nat)
    requires Inv(o, s) && Enabled(s, ClientSend(i)) && IsPacket(Request(s.links[i].client).value)
    ensures Inv(o, Apply(cfg, s, ClientSend(i)))
  {
    AskingLink(o, i, s.links[i]);
    FreeLink(o, s, i, Asking(s.links[i]));
  }

  /** Bytes arrive only for a request on the wire; they complete it exactly or leave it incomplete. */
  lemma PollReceives(o: Oracle, i: nat, l: Link, k: nat)
    requires LinkOk(o, i, l) && 0 < k <= |l.up| && l.pos + k <= |l.buf|
    ensures l.stage == OnWire
    ensures var d := PollResult(l, k);
            var req := Request(l.client).value;
            if k < |l.up| then
              d.packets == [] && d.pos == l.pos + k < |req| && d.buf[..d.pos] + l.up[k..] == req
            else
              d.packets == [req] && d.pos == 0 && req <= d.buf && l.up[k..] == []
  {
    Pieces(l.buf, l.pos, l.up, Request(l.client).value, k);
  }

  lemma Pieces(buf: seq<byte>, pos: nat, up: seq<byte>, req: seq<byte>, k: nat)
    requires pos <= |buf| && 0 < k <= |up| && pos + k <= |buf| && IsPacket(req) && buf[..pos] + up == req
    ensures var d := Receive(buf, pos, up[..k]);
            if k < |up| then
              d.packets == [] && d.pos == pos + k < |req| && d.buf[..d.pos] + up[k..] == req
            else
              d.packets == [req] && d.pos == 0 && req <= d.buf && up[k..] == []
  {
    if k < |up| {
      assert buf[..pos] + up[..k] == req[..pos + k];
      ReceivePartial(buf, pos, up[..k], req, pos + k);
      assert req[pos + k..] == up[k..];
    } else {
      assert up[..k] == up;
      ReceiveExact(buf, pos, up, req);
    }
  }

  lemma PolledLink(o: Oracle, i: nat, l: Link, k: nat)
    requires LinkOk(o, i, l) && 0 < k <= |l.up| && l.pos + k <= |l.buf|
    ensures LinkOk(o, i, Polled(l, k))
    ensures l.stage == OnWire && Request(l.client).Some?
    ensures Polled(l, k).stage == (if k < |l.up| then OnWire else Stacked)
    ensures PollResult(l, k).packets == if k < |l.up| then [] else [Request(l.client).value]
  {
    PollReceives(o, i, l, k);
  }

  lemma PushKeeps(o: Oracle, s: System, i: nat, m: Link, job: Job)
    requires Inv(o, s) && i < |s.links| && LinkOk(o, i, m) && s.links[i].stage == OnWire && m.stage == Stacked
    requires job.conn == i && Request(m.client) == Some(job.data)
    ensures Inv(o, SetLink(s, i, m).(stack := s.stack + [job]))
  {
    JobsPush(s.links, s.stack, Stacked, i, m, job);
    JobsStay(s.links, s.queue, Queued, i, m);
    WorkersStay(o, s.links, s.workers, i, m);
    var t := SetLink(s, i, m).(stack := s.stack + [job]);
    forall j | 0 <= j < |s.links| && Held(s, j, s.links[j].stage) ensures Held(t, j, t.links[j].stage) {
      assert t.stack[|s.stack|].conn == i;
      assert forall a :: 0 <= a < |s.stack| ==> t.stack[a] == s.stack[a];
    }
    Assemble(o, s, t, i, m);
  }

  /** The packets a poll cut, none or the request itself, go onto the stack. */
  lemma StackKeeps(o: Oracle, s: System, i: nat, m: Link, packets: seq<seq<byte>>)
    requires Inv(o, s) && i < |s.links| && LinkOk(o, i, m) && s.links[i].stage == OnWire
    requires packets == [] ==> m.stage == OnWire
    requires packets != [] ==> m.stage == Stacked && |packets| == 1 && Request(m.client) == Some(packets[0])
    ensures Inv(o, SetLink(s, i, m).(stack := s.stack + Jobs(i, packets)))
  {
    if packets == [] {
      FreeLink(o, s, i, m);
      assert s.stack + Jobs(i, packets) == s.stack;
    } else {
      PushKeeps(o, s, i, m, Job(i, packets[0]));
      assert Jobs(i, packets) == [Job(i, packets[0])];
    }
  }

  lemma PollKeeps(o: Oracle, cfg: Config, s: System, i: nat, k: nat)
    requires Inv(o, s) && Enabled(s, Poll(i, k))
    ensures Inv(o, Apply(cfg, s, Poll(i, k)))
  {
    PolledLink(o, i, s.links[i], k);
    StackKeeps(o, s, i, Polled(s.links[i], k), PollResult(s.links[i], k).packets);
  }

  lemma DispatchKeeps(o: Oracle, cfg: Config, s: System)
    requires Inv(o, s) && Enabled(s, Dispatch)
    ensures Inv(o, Apply(cfg, s, Dispatch))
  {
    var last := |s.stack| - 1;
    var job := s.stack[last];
    var i := job.conn;
    var l := s.links[i].(stage := Queued);
    var t := Apply(cfg, s, Dispatch);
    JobsPop(s.links, s.stack, Stacked, l);
    StageOnly(o, i, s.links[i], l);
    JobsPush(s.links, s.queue, Queued, i, l, job);
    WorkersStay(o, s.links, s.workers, i, l);
    forall j | 0 <= j < |s.links| && Held(s, j, s.links[j].stage) ensures Held(t, j, t.links[j].stage) {
      DispatchHeld(cfg, s, j);
    }
    Assemble(o, s, t, i, l);
  }

  lemma JobsPop(links: seq<Link>, jobs: seq<Job>, stage: Stage, l: Link)
    requires JobsOk(links, jobs, stage) && jobs != []
    ensures var job := jobs[|jobs| - 1];
            && job.conn < |links| && links[job.conn].stage == stage
            && Request(links[job.conn].client) == Some(job.data)
            && JobsOk(links[job.conn := l], jobs[..|jobs| - 1], stage)
  {
    var last := |jobs| - 1;
    assert jobs == jobs[..last] + [jobs[last]] + [];
    assert jobs[..last] + [] == jobs[..last];
    JobsRemove(links, jobs[..last], jobs[last], [], stage, l);
  }

  lemma JobsShift(links: seq<Link>, jobs: seq<Job>, stage: Stage, l: Link)
    requires JobsOk(links, jobs, stage) && jobs != []
    ensures var job := jobs[0];
            && job.conn < |links| && links[job.conn].stage == stage
            && Request(links[job.conn].client) == Some(job.data)
            && JobsOk(links[job.conn := l], jobs[1..], stage)
  {
    assert jobs == [] + [jobs[0]] + jobs[1..];
    assert [] + jobs[1..] == jobs[1..];
    JobsRemove(links, [], jobs[0], jobs[1..], stage, l);
  }

  /** A request that has arrived stays arrived as it is handed on. */
  lemma StageOnly(o: Oracle, i: nat, l: Link, m: Link)
    requires LinkOk(o, i, l) && (l.stage.Stacked? || l.stage.Queued?) && (m.stage.Queued? || m.stage.AtWorker?)
    requires m == l.(stage := m.stage)
    ensures LinkOk(o, i, m)
  {
  }

  lemma DispatchHeld(cfg: Config, s: System, j: nat)
    requires Enabled(s, Dispatch) && j < |s.links| && Held(s, j, s.links[j].stage)
    ensures var t := Apply(cfg, s, Dispatch); Held(t, j, t.links[j].stage)
  {
    var t := Apply(cfg, s, Dispatch);
    var last := |s.stack| - 1;
    assert t.queue[|s.queue|] == s.stack[last];
    assert forall a :: 0 <= a < |s.queue| ==> t.queue[a] == s.queue[a];
    assert forall a :: 0 <= a < last ==> t.stack[a] == s.stack[a];
  }

  lemma TakeKeeps(o: Oracle, cfg: Config, s: System, w: nat)
    requires Inv(o, s) && Enabled(s, Take(w))
    ensures Inv(o, Apply(cfg, s, Take(w)))
  {
    var job := s.queue[0];
    var i := job.conn;
    var l := s.links[i].(stage := AtWorker(w));
    var t := Apply(cfg, s, Take(w));
    JobsShift(s.links, s.queue, Queued, l);
    StageOnly(o, i, s.links[i], l);
    JobsStay(s.links, s.stack, Stacked, i, l);
    WorkersChange(o, s.links, s.workers, i, l, w, Took(job));
    forall j | 0 <= j < |s.links| && Held(s, j, s.links[j].stage) ensures Held(t, j, t.links[j].stage) {
      TakeHeld(cfg, s, w, j);
    }
    Assemble(o, s, t, i, l);
  }

  lemma TakeHeld(cfg: Config, s: System, w: nat, j: nat)
    requires Enabled(s, Take(w)) && j < |s.links| && Held(s, j, s.links[j].stage)
    ensures var t := Apply(cfg, s, Take(w)); Held(t, j, t.links[j].stage)
  {
    var t := Apply(cfg, s, Take(w));
    var stage := s.links[j].stage;
    if j != s.queue[0].conn && stage.Queued? {
      var a :| 0 <= a < |s.queue| && s.queue[a].conn == j;
      assert t.queue[a - 1] == s.queue[a];
    }
  }

  /** When a handler starts, the live buffer still holds its packet, whole. */
  lemma LiveBufferIsSnapshot(o: Oracle, s: System, w: nat)
    requires Inv(o, s) && w < |s.workers| && (s.workers[w].Took? || s.workers[w].Typed?)
    ensures var job := s.workers[w].job;
            && job.conn < |s.links| && IsPacket(job.data)
            && job.data <= s.links[job.conn].buf && |s.links[job.conn].buf| == BUFFER_SIZE
            && (job.data[1] <= RESP_FILE_LIST ==> LiveType(s.links[job.conn].buf) == job.data[1])
  {
    assert WorkerOk(o, s.links, w, s.workers[w]);
    var job := s.workers[w].job;
    assert LinkOk(o, job.conn, s.links[job.conn]);
    var buf := s.links[job.conn].buf;
    assert buf[..|job.data|] == job.data;
    assert buf[1] == buf[..|job.data|][1];
  }

  lemma ReadTypeKeeps(o: Oracle, cfg: Config, s: System, w: nat)
    requires Inv(o, s) && Enabled(s, ReadType(w))
    requires |s.workers[w].job.data| >= HEADER_SIZE && s.workers[w].job.data[1] <= RESP_FILE_LIST
    ensures Inv(o, Apply(cfg, s, ReadType(w)))
  {
    hide LinkOk, JobsOk, AllHeld;
    var job := s.workers[w].job;
    var i := job.conn;
    LiveBufferIsSnapshot(o, s, w);
    assert WorkerOk(o, s.links, w, s.workers[w]);
    assert s.links[i := s.links[i]] == s.links;
    WorkerMove(o, s, i, s.links[i], w, Typed(job, LiveType(s.links[i].buf)), s.shared);
  }

  /** The handler's result is the one the oracle gives. */
  ghost predicate HandlerAgrees(o: Oracle, s: System, w: nat, out: Outcome)
    requires Facing(s, w)
  {
    var i := s.workers[w].job.conn;
    var l := s.links[i];
    out.sess == o.solo(i, l.served + 1).sess && out.reply == o.reply(i, l.served) && IsPacket(out.reply)
  }

  /** A worker hands over the given result: the link is charged with it, the worker starts sending. */
  lemma ResultKeeps(o: Oracle, s: System, w: nat, m: Link, shared: Shared)
    requires Inv(o, s) && w < |s.workers| && s.workers[w].Typed? && s.workers[w].job.conn < |s.links|
    requires var i := s.workers[w].job.conn;
             var l := s.links[i];
             && IsPacket(o.reply(i, l.served))
             && m == l.(sess := o.solo(i, l.served + 1).sess, served := l.served + 1, stage := Replying(w))
    ensures var i := s.workers[w].job.conn;
            Inv(o, SetWorker(SetLink(s, i, m), w, Sending(i, o.reply(i, m.served - 1))).(shared := shared))
  {
    var i := s.workers[w].job.conn;
    var l := s.links[i];
    assert WorkerOk(o, s.links, w, s.workers[w]);
    ExecutedLink(o, i, l, m);
    WorkerMove(o, s, i, m, w, Sending(i, o.reply(i, l.served)), shared);
  }

  lemma SettleKeeps(o: Oracle, s: System, w: nat, out: Outcome)
    requires Inv(o, s) && Facing(s, w) && HandlerAgrees(o, s, w, out)
    ensures Inv(o, Settle(s, w, out))
  {
    hide LinkOk, JobsOk, AllHeld, WorkerOk;
    ResultKeeps(o, s, w, Executed(s.links[s.workers[w].job.conn], w, out), out.shared);
  }

  /** A request that is never answered stays with its client. */
  lemma IgnoreKeeps(o: Oracle, cfg: Config, s: System, w: nat)
    requires Inv(o, s) && Enabled(s, Ignore(w))
    ensures Inv(o, Apply(cfg, s, Ignore(w)))
  {
    hide JobsOk, AllHeld;
    var i := s.workers[w].job.conn;
    assert WorkerOk(o, s.links, w, s.workers[w]);
    assert LinkOk(o, i, s.links[i]);
    WorkerMove(o, s, i, s.links[i].(stage := Unanswered), w, Sending(i, []), s.shared);
  }

  lemma ExecutedLink(o: Oracle, i: nat, l: Link, m: Link)
    requires LinkOk(o, i, l) && l.stage.AtWorker? && m.stage.Replying?
    requires m == l.(sess := o.solo(i, l.served + 1).sess, served := l.served + 1, stage := m.stage)
    requires IsPacket(o.reply(i, l.served))
    ensures LinkOk(o, i, m)
    ensures m.phase == Waiting([]) && m.down == []
    ensures m.phase.got + m.down + o.reply(i, m.served - 1) == o.reply(i, m.served - 1)
  {
    assert m.phase.got + m.down == [];
  }

  lemma FeedKeeps(o: Oracle, s: System, i: nat, m: Link, w: nat, left: seq<byte>)
    requires Inv(o, s) && i < |s.links| && w < |s.workers| && s.links[i].stage == Replying(w)
    requires LinkOk(o, i, m) && m.stage == (if left == [] then Replied else Replying(w))
    requires m.served > 0 && m.phase.Waiting? && m.phase.got + m.down + left == o.reply(i, m.served - 1)
    ensures Inv(o, SetWorker(SetLink(s, i, m), w, Sending(i, left)))
  {
    WorkerMove(o, s, i, m, w, Sending(i, left), s.shared);
  }

  lemma TransmitKeeps(o: Oracle, cfg: Config, s: System, w: nat, k: nat)
    requires Inv(o, s) && Enabled(s, Transmit(w, k))
    ensures Inv(o, Apply(cfg, s, Transmit(w, k)))
  {
    hide LinkOk, JobsOk, AllHeld;
    var Sending(i, rest) := s.workers[w];
    assert WorkerOk(o, s.links, w, s.workers[w]);
    TransmittedLink(o, i, s.links[i], Fed(s.links[i], rest, k), rest, k);
    FeedKeeps(o, s, i, Fed(s.links[i], rest, k), w, rest[k..]);
  }

  lemma TransmittedLink(o: Oracle, i: nat, l: Link, m: Link, rest: seq<byte>, k: nat)
    requires LinkOk(o, i, l) && l.stage.Replying? && 0 < k <= |rest|
    requires l.phase.got + l.down + rest == o.reply(i, l.served - 1)
    requires m == Fed(l, rest, k)
    ensures LinkOk(o, i, m) && m.phase.Waiting? && m.served > 0
    ensures m.phase.got + m.down + rest[k..] == o.reply(i, m.served - 1)
  {
    var reply := o.reply(i, l.served - 1);
    assert m.phase.got + m.down == reply[..|reply| - |rest| + k];
    assert reply[|reply| - |rest| + k..] == rest[k..];
  }

  lemma FinishKeeps(o: Oracle, cfg: Config, s: System, w: nat)
    requires Inv(o, s) && Enabled(s, Finish(w))
    ensures Inv(o, Apply(cfg, s, Finish(w)))
  {
    hide LinkOk, JobsOk;
    var t := Apply(cfg, s, Finish(w));
    forall v | 0 <= v < |t.workers| ensures WorkerOk(o, t.links, v, t.workers[v]) {
      assert WorkerOk(o, s.links, v, s.workers[v]);
    }
    forall j | 0 <= j < |t.links| ensures Held(t, j, t.links[j].stage) {
      assert Held(s, j, s.links[j].stage);
    }
  }

  /** A link whose client reads on: what is read and what is in the channel together stay the same. */
  lemma ReadKeeps(o: Oracle, s: System, i: nat, m: Link)
    requires Inv(o, s) && i < |s.links| && LinkOk(o, i, m)
    requires var l := s.links[i];
             && l.phase.Waiting? && m.phase.Waiting? && (l.stage.Replying? || l.stage.Replied?)
             && m.stage == l.stage && m.client == l.client && m.served == l.served
             && m.phase.got + m.down == l.phase.got + l.down
    ensures Inv(o, SetLink(s, i, m))
  {
    if s.links[i].stage.Replied? {
      FreeLink(o, s, i, m);
    } else {
      assert Held(s, i, s.links[i].stage);
      var w := s.links[i].stage.w;
      assert WorkerOk(o, s.links, w, s.workers[w]);
      assert s.workers[w := s.workers[w]] == s.workers;
      WorkerMove(o, s, i, m, w, s.workers[w], s.shared);
    }
  }

  lemma RecvKeeps(o: Oracle, cfg: Config, s: System, i: nat, k: nat)
    requires Inv(o, s) && Enabled(s, ClientRecv(i, k))
    ensures Inv(o, Apply(cfg, s, ClientRecv(i, k)))
  {
    ReadLink(o, i, s.links[i], Read(s.links[i], k), k);
    ReadKeeps(o, s, i, Read(s.links[i], k));
  }

  /** The client only ever holds a prefix of its reply, the whole header or nothing, and reads no further. */
  lemma ReadLink(o: Oracle, i: nat, l: Link, m: Link, k: nat)
    requires LinkOk(o, i, l) && l.phase.Waiting? && 0 < k <= |l.down| && k <= Missing(l.phase.got)
    requires l.phase.got == [] ==> k == HEADER_SIZE
    requires m == Read(l, k)
    ensures LinkOk(o, i, m) && (l.stage.Replying? || l.stage.Replied?)
    ensures m.phase.got + m.down == l.phase.got + l.down
  {
    hide GotOk, Missing;
    ReadOn(l.phase.got, l.down, o.reply(i, l.served - 1), k);
  }

  lemma ReadOn(got: seq<byte>, down: seq<byte>, reply: seq<byte>, k: nat)
    requires GotOk(got, reply) && got + down <= reply && 0 < k <= |down| && k <= Missing(got)
    requires got == [] ==> k == HEADER_SIZE
    ensures GotOk(got + down[..k], reply) && (got + down[..k]) + down[k..] == got + down
  {
    assert (got + down[..k]) + down[k..] == got + down;
    assert got + down[..k] == (got + down)[..|got| + k];
    assert got + down[..k] == reply[..|got| + k];
  }

  /** A complete packet in the client's hands is the reply, and nothing of it is left anywhere. */
  lemma ReplyIsWhole(o: Oracle, s: System, i: nat)
    requires Inv(o, s) && Enabled(s, ClientDone(i))
    ensures var l := s.links[i];
            l.stage == Replied && l.served > 0 && l.phase.got == o.reply(i, l.served - 1) && l.down == []
  {
    hide WorkerOk, JobsOk, AllHeld;
    var l := s.links[i];
    if l.stage.Replying? {
      UnsentIsMissing(o, s, i);
    }
    assert LinkOk(o, i, l);
    WholeReply(l.phase.got, l.down, o.reply(i, l.served - 1));
  }

  lemma WholeReply(got: seq<byte>, down: seq<byte>, reply: seq<byte>)
    requires IsPacket(got) && IsPacket(reply) && got + down <= reply
    ensures got == reply && down == []
  {
    assert got == reply[..|got|];
    assert |got + down| <= |reply|;
  }

  /** While a worker still has some of the reply to send, the client cannot have it all. */
  lemma UnsentIsMissing(o: Oracle, s: System, i: nat)
    requires Inv(o, s) && i < |s.links| && s.links[i].stage.Replying?
    ensures var l := s.links[i];
            l.served > 0 && l.phase.Waiting? && |l.phase.got + l.down| < |o.reply(i, l.served - 1)|
  {
    var l := s.links[i];
    assert Held(s, i, l.stage);
    assert WorkerOk(o, s.links, l.stage.w, s.workers[l.stage.w]);
    assert |l.phase.got + l.down + s.workers[l.stage.w].rest| == |o.reply(i, l.served - 1)|;
  }

  /** The client's run alone goes on by taking in the reply to request k - 1. */
  ghost predicate MovesOn(o: Oracle, i: nat, k: nat) {
    k > 0 && IsPacket(o.reply(i, k - 1)) && Request(o.solo(i, k - 1).client).Some? ==>
      Advance(o.solo(i, k - 1).client, o.reply(i, k - 1)) == o.solo(i, k).client
  }

  lemma DoneKeeps(o: Oracle, cfg: Config, s: System, i: nat)
    requires Inv(o, s) && Enabled(s, ClientDone(i))
    requires MovesOn(o, i, s.links[i].served)
    ensures Inv(o, Apply(cfg, s, ClientDone(i)))
  {
    var l := s.links[i];
    ReplyIsWhole(o, s, i);
    assert LinkOk(o, i, l);
    FreeLink(o, s, i, Moved(l));
  }

  // ---------- what the invariant says ----------

  /** A place on the server that can hold a request. */
  datatype Place = OnStack(a: nat) | InQueue(a: nat) | WithWorker(w: nat)

  ghost predicate Holds(s: System, p: Place, i: nat) {
    match p
    case OnStack(a) => a < |s.stack| && s.stack[a].conn == i
    case InQueue(a) => a < |s.queue| && s.queue[a].conn == i
    case WithWorker(w) => w < |s.workers| && (s.workers[w].Took? || s.workers[w].Typed?) && s.workers[w].job.conn == i
  }

  /** At most one request of a connection is on the server, and while one is, none of it is left in the
      channel or the buffer's cursor range and no reply is under way. */
  lemma OneRequest(o: Oracle, s: System, i: nat, p: Place, q: Place)
    requires Inv(o, s) && Holds(s, p, i) && Holds(s, q, i)
    ensures p == q
    ensures i < |s.links| && s.links[i].up == [] && s.links[i].pos == 0 && s.links[i].down == []
  {
    PlaceStage(o, s, i, p);
    PlaceStage(o, s, i, q);
    assert LinkOk(o, i, s.links[i]);
  }

  /** Bytes in the channel or under the cursor are the request the client is waiting on, and then it is
      in no place on the server. */
  lemma BytesInFlight(o: Oracle, s: System, i: nat)
    requires Inv(o, s) && i < |s.links|
    ensures var l := s.links[i];
            && l.pos <= |l.buf|
            && var bytes := l.buf[..l.pos] + l.up;
               bytes == [] ||
               (l.phase.Waiting? && Request(l.client) == Some(bytes) && l.down == [] && forall p :: !Holds(s, p, i))
  {
    LinkBytes(o, i, s.links[i]);
    if s.links[i].stage == OnWire {
      forall p: Place ensures !Holds(s, p, i) {
        if Holds(s, p, i) {
          PlaceStage(o, s, i, p);
        }
      }
    }
  }

  lemma LinkBytes(o: Oracle, i: nat, l: Link)
    requires LinkOk(o, i, l)
    ensures l.pos <= |l.buf|
    ensures if l.stage == OnWire then
              l.phase.Waiting? && Request(l.client) == Some(l.buf[..l.pos] + l.up) && l.down == []
            else l.buf[..l.pos] + l.up == []
  {
  }

  lemma PlaceStage(o: Oracle, s: System, i: nat, p: Place)
    requires Inv(o, s) && Holds(s, p, i)
    ensures i < |s.links|
    ensures s.links[i].stage ==
            match p case OnStack(_) => Stacked case InQueue(_) => Queued case WithWorker(w) => AtWorker(w)
  {
    match p
    case OnStack(a) => assert JobOk(s.links, s.stack[a], Stacked);
    case InQueue(a) => assert JobOk(s.links, s.queue[a], Queued);
    case WithWorker(w) => assert WorkerOk(o, s.links, w, s.workers[w]);
  }
}
