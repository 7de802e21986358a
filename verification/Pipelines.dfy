/** Lockstep clients in general, whatever they ask for, whatever files they share and whoever logs in: in
    every interleaving a connection has its one exchange in one place, a handler reads its own packet, and,
    where there is a handler to answer, nothing is stuck. */
module Pipelines {
  import opened Protocol
  import opened Sequences
  import opened Handlers
  import opened Clients
  import opened Responses
  import opened SoloRuns
  import opened Systems
  import opened Lockstep

  /** Client i and its session as they start. */
  ghost function Alone(init: System, i: nat): Solo {
    if i < |init.links| then Solo(init.links[i].client, init.links[i].sess, init.shared)
    else Solo(Client([], NoFetch, map[]), FRESH, init.shared)
  }

  /** Clients connected and idle, the pipeline empty, at least one worker. */
  ghost predicate Initial(cfg: Config, s: System) {
    && s.stack == [] && s.queue == [] && |s.workers| > 0
    && (forall w :: 0 <= w < |s.workers| ==> s.workers[w] == Idle)
    && (forall i :: 0 <= i < |s.links| ==>
          var l := s.links[i];
          && l.phase == Ready && l.up == [] && l.down == [] && l.pos == 0 && |l.buf| == BUFFER_SIZE
          && l.served == 0 && l.stage == AtClient && SoloOk(cfg, Alone(s, i)))
  }

  /** The oracle is right about a connection as it stands: its requests are the client's to make, and the
      last reply led to where it is. */
  ghost predicate SoundAt(cfg: Config, o: Oracle, i: nat, k: nat) {
    SoloOk(cfg, o.solo(i, k)) && MovesOn(o, i, k) && (k > 0 ==> SoloOk(cfg, o.solo(i, k - 1)))
  }

  ghost predicate Sound(cfg: Config, o: Oracle, links: seq<Link>) {
    forall i :: 0 <= i < |links| ==> SoundAt(cfg, o, i, links[i].served)
  }

  ghost predicate PipeOk(cfg: Config, o: Oracle, s: System) {
    Inv(o, s) && Sound(cfg, o, s.links) && |s.workers| > 0
  }

  lemma InitialOk(cfg: Config, o: Oracle, s: System)
    requires Initial(cfg, s) && forall i: nat :: i < |s.links| ==> o.solo(i, 0) == Alone(s, i)
    ensures PipeOk(cfg, o, s)
  {
    hide SoloOk;
    forall i | 0 <= i < |s.links| ensures LinkOk(o, i, s.links[i]) && SoundAt(cfg, o, i, 0) {
      assert o.solo(i, 0) == Alone(s, i);
    }
  }

  // ---------- requests ----------

  lemma PendingIsExpected(o: Oracle, s: System, w: nat)
    requires Inv(o, s) && w < |s.workers| && (s.workers[w].Took? || s.workers[w].Typed?)
    ensures var job := s.workers[w].job;
            && job.conn < |s.links|
            && Request(o.solo(job.conn, s.links[job.conn].served).client) == Some(job.data)
            && s.links[job.conn].sess == o.solo(job.conn, s.links[job.conn].served).sess
            && (s.workers[w].Typed? ==> |job.data| >= HEADER_SIZE && s.workers[w].command == job.data[1])
  {
    assert WorkerOk(o, s.links, w, s.workers[w]);
    var job := s.workers[w].job;
    assert LinkOk(o, job.conn, s.links[job.conn]);
  }

  /** The packet a worker holds is in range. */
  lemma PendingIsGood(cfg: Config, o: Oracle, s: System, w: nat)
    requires PipeOk(cfg, o, s) && w < |s.workers| && (s.workers[w].Took? || s.workers[w].Typed?)
    ensures var job := s.workers[w].job;
            && job.conn < |s.links| && IsPacket(job.data) && job.data[1] <= RESP_FILE_LIST
            && (s.workers[w].Typed? ==> s.workers[w].command == job.data[1])
  {
    hide SoloOk, Inv, MovesOn;
    PendingIsExpected(o, s, w);
    var i := s.workers[w].job.conn;
    assert SoundAt(cfg, o, i, s.links[i].served);
    RequestIsPacket(cfg, o.solo(i, s.links[i].served));
  }

  lemma ReadyClient(o: Oracle, s: System, i: nat)
    requires Inv(o, s) && i < |s.links| && s.links[i].phase.Ready?
    ensures s.links[i].client == o.solo(i, s.links[i].served).client
  {
    assert LinkOk(o, i, s.links[i]);
  }

  lemma ReadyRequest(cfg: Config, o: Oracle, s: System, i: nat)
    requires PipeOk(cfg, o, s) && i < |s.links| && s.links[i].phase.Ready? && Request(s.links[i].client).Some?
    ensures IsPacket(Request(s.links[i].client).value)
  {
    hide SoloOk, Inv, MovesOn;
    ReadyClient(o, s, i);
    assert SoundAt(cfg, o, i, s.links[i].served);
    RequestIsPacket(cfg, o.solo(i, s.links[i].served));
  }

  // ---------- steps that run no handler ----------

  lemma ServedStays(cfg: Config, s: System, step: Step)
    requires Enabled(s, step) && !step.Execute? && !step.ExecuteOther?
    ensures var t := Apply(cfg, s, step);
            && t.shared == s.shared && |t.links| == |s.links| && |t.workers| == |s.workers|
            && forall i :: 0 <= i < |s.links| ==> t.links[i].served == s.links[i].served
  {
    hide Handle;
  }

  lemma ReadTypeStep(cfg: Config, o: Oracle, s: System, step: Step)
    requires PipeOk(cfg, o, s) && Enabled(s, step) && step.ReadType?
    ensures Inv(o, Apply(cfg, s, step))
  {
    hide Inv, Sound;
    PendingIsGood(cfg, o, s, step.w);
    ReadTypeKeeps(o, cfg, s, step.w);
  }

  lemma SendStep(cfg: Config, o: Oracle, s: System, step: Step)
    requires PipeOk(cfg, o, s) && Enabled(s, step) && step.ClientSend?
    ensures Inv(o, Apply(cfg, s, step))
  {
    hide Inv, Sound;
    ReadyRequest(cfg, o, s, step.i);
    SendKeeps(o, cfg, s, step.i);
  }

  lemma DoneStep(cfg: Config, o: Oracle, s: System, step: Step)
    requires PipeOk(cfg, o, s) && Enabled(s, step) && step.ClientDone?
    ensures Inv(o, Apply(cfg, s, step))
  {
    hide Inv, MovesOn, SoloOk;
    assert SoundAt(cfg, o, step.i, s.links[step.i].served);
    DoneKeeps(o, cfg, s, step.i);
  }

  /** The steps that need only the invariant itself. */
  lemma PlainStep(o: Oracle, cfg: Config, s: System, step: Step)
    requires Inv(o, s) && Enabled(s, step)
    requires !step.ClientSend? && !step.ReadType? && !step.Execute? && !step.ExecuteOther? && !step.ClientDone?
    ensures Inv(o, Apply(cfg, s, step))
  {
    hide Inv, Apply;
    match step
    case Poll(i, k) => PollKeeps(o, cfg, s, i, k);
    case Dispatch => DispatchKeeps(o, cfg, s);
    case Take(w) => TakeKeeps(o, cfg, s, w);
    case Ignore(w) => IgnoreKeeps(o, cfg, s, w);
    case Transmit(w, k) => TransmitKeeps(o, cfg, s, w, k);
    case Finish(w) => FinishKeeps(o, cfg, s, w);
    case ClientRecv(i, k) => RecvKeeps(o, cfg, s, i, k);
  }

  /** A step that runs no handler keeps the invariant for the oracle as it is. */
  lemma OtherStepKeeps(cfg: Config, o: Oracle, s: System, step: Step)
    requires PipeOk(cfg, o, s) && Enabled(s, step) && !step.Execute? && !step.ExecuteOther?
    ensures PipeOk(cfg, o, Apply(cfg, s, step))
  {
    hide Inv, Apply, SoundAt;
    ServedStays(cfg, s, step);
    if step.ClientSend? {
      SendStep(cfg, o, s, step);
    } else if step.ReadType? {
      ReadTypeStep(cfg, o, s, step);
    } else if step.ClientDone? {
      DoneStep(cfg, o, s, step);
    } else {
      PlainStep(o, cfg, s, step);
    }
  }

  // ---------- a handler runs ----------

  /** What a handler's outcome changes: the shared state as it says, and one link's count. */
  lemma SettleEffect(s: System, w: nat, out: Outcome)
    requires Facing(s, w)
    ensures var t := Settle(s, w, out);
            var i := s.workers[w].job.conn;
            && t.shared == out.shared
            && |t.links| == |s.links| && |t.workers| == |s.workers| && t.links[i].served == s.links[i].served + 1
            && (forall j :: 0 <= j < |s.links| && j != i ==> t.links[j].served == s.links[j].served)
  {
  }

  lemma HandlerKeeps(cfg: Config, o: Oracle, s: System, w: nat, out: Outcome)
    requires PipeOk(cfg, o, s) && Facing(s, w) && HandlerAgrees(o, s, w, out)
    requires SoundAt(cfg, o, s.workers[w].job.conn, s.links[s.workers[w].job.conn].served + 1)
    ensures PipeOk(cfg, o, Settle(s, w, out))
  {
    hide Inv, Settle, SoundAt, HandlerAgrees;
    SettleEffect(s, w, out);
    SettleKeeps(o, s, w, out);
  }

  /** Two oracles say the same of everything the invariant looks at. */
  ghost predicate AgreeAt(o: Oracle, p: Oracle, i: nat, k: nat) {
    o.solo(i, k) == p.solo(i, k) &&
    (k > 0 ==> o.solo(i, k - 1) == p.solo(i, k - 1) && o.reply(i, k - 1) == p.reply(i, k - 1))
  }

  ghost predicate Agree(o: Oracle, p: Oracle, links: seq<Link>) {
    forall i :: 0 <= i < |links| ==> AgreeAt(o, p, i, links[i].served)
  }

  lemma LinkAgrees(o: Oracle, p: Oracle, i: nat, l: Link)
    requires LinkOk(o, i, l) && AgreeAt(o, p, i, l.served)
    ensures LinkOk(p, i, l)
  {
  }

  lemma WorkerAgrees(o: Oracle, p: Oracle, links: seq<Link>, w: nat, x: Worker)
    requires WorkerOk(o, links, w, x) && Agree(o, p, links)
    ensures WorkerOk(p, links, w, x)
  {
    if x.Sending? {
      assert AgreeAt(o, p, x.conn, links[x.conn].served);
    }
  }

  lemma AgreeKeeps(cfg: Config, o: Oracle, p: Oracle, s: System)
    requires PipeOk(cfg, o, s) && Agree(o, p, s.links)
    ensures PipeOk(cfg, p, s)
  {
    hide SoloOk, LinkOk, WorkerOk, JobsOk, AllHeld, Advance;
    forall i | 0 <= i < |s.links| ensures LinkOk(p, i, s.links[i]) && SoundAt(cfg, p, i, s.links[i].served) {
      assert AgreeAt(o, p, i, s.links[i].served) && LinkOk(o, i, s.links[i]) && SoundAt(cfg, o, i, s.links[i].served);
      LinkAgrees(o, p, i, s.links[i]);
    }
    forall w | 0 <= w < |s.workers| ensures WorkerOk(p, s.links, w, s.workers[w]) {
      assert WorkerOk(o, s.links, w, s.workers[w]);
      WorkerAgrees(o, p, s.links, w, s.workers[w]);
    }
  }

  /** The oracle told that client i goes on to next, its request k answered with reply. */
  ghost function Extend(o: Oracle, i: nat, k: nat, next: Solo, reply: seq<byte>): Oracle {
    Oracle((a: nat, b: nat) => if a == i && b == k + 1 then next else o.solo(a, b),
           (a: nat, b: nat) => if a == i && b == k then reply else o.reply(a, b))
  }

  lemma ExtendAgrees(o: Oracle, links: seq<Link>, i: nat, next: Solo, reply: seq<byte>)
    requires i < |links|
    ensures var p := Extend(o, i, links[i].served, next, reply);
            && Agree(o, p, links) && p.solo(i, links[i].served + 1) == next && p.reply(i, links[i].served) == reply
            && p.solo(i, links[i].served) == o.solo(i, links[i].served)
  {
  }

  /** The client and the session a handler is about to serve, with the files as they really are. */
  ghost function AtHandler(o: Oracle, s: System, w: nat): Solo
    requires Facing(s, w)
  {
    var i := s.workers[w].job.conn;
    Solo(o.solo(i, s.links[i].served).client, s.links[i].sess, s.shared)
  }

  /** Where a handler's outcome leads client and session. */
  ghost function Onward(t: Solo, out: Outcome): Solo
    requires Request(t.client).Some? && IsPacket(out.reply)
  {
    Solo(Advance(t.client, out.reply), out.sess, out.shared)
  }

  /** The outcome answers the client with one packet and leaves it fit to go on. */
  ghost predicate Answers(cfg: Config, o: Oracle, s: System, w: nat, out: Outcome)
    requires Facing(s, w)
  {
    var t := AtHandler(o, s, w);
    Request(t.client).Some? && IsPacket(out.reply) && SoloOk(cfg, Onward(t, out))
  }

  /** What a handler faces is a client fit to be served, with the request its worker holds. */
  lemma HandlerFaces(cfg: Config, o: Oracle, s: System, w: nat)
    requires PipeOk(cfg, o, s) && Facing(s, w)
    ensures var t := AtHandler(o, s, w);
            && SoloOk(cfg, t) && Request(t.client) == Some(s.workers[w].job.data)
            && IsPacket(s.workers[w].job.data) && s.workers[w].command == s.workers[w].job.data[1]
  {
    hide Inv, MovesOn, GoodPlan;
    var i := s.workers[w].job.conn;
    PendingIsExpected(o, s, w);
    PendingIsGood(cfg, o, s, w);
    assert SoundAt(cfg, o, i, s.links[i].served);
  }

  /** A modelled handler answers. */
  lemma ModelledAnswers(cfg: Config, o: Oracle, s: System, w: nat)
    requires PipeOk(cfg, o, s) && Enabled(s, Execute(w))
    ensures Answers(cfg, o, s, w, Result(cfg, s, w))
  {
    hide Inv, Sound, Handle, Advance, SoloOk;
    HandlerFaces(cfg, o, s, w);
    SoloOkStep(cfg, AtHandler(o, s, w));
  }

  /** So does any other, by the table of replies: no download is under way or begins. */
  lemma OtherAnswers(cfg: Config, o: Oracle, s: System, w: nat, io: Io, download: Fd, files: Disk)
    requires PipeOk(cfg, o, s) && Facing(s, w) && !Modelled(s.workers[w].command) && OtherMay(s, w, download, files)
    requires Possible(Other(s, w, io)) && !Misanswers(Other(s, w, io))
    ensures Answers(cfg, o, s, w, OtherResult(s, w, io, download, files))
  {
    hide Inv, Sound, Reply, Possible, Misanswers, AdminLogin;
    HandlerFaces(cfg, o, s, w);
    OpenedOnlyByOpen(Other(s, w, io));
    AdvanceAsks(AtHandler(o, s, w).client, OtherResult(s, w, io, download, files).reply);
  }

  /** A handler that answers keeps the invariant for the oracle told of its outcome. */
  lemma SettleExtends(cfg: Config, o: Oracle, s: System, w: nat, out: Outcome) returns (p: Oracle)
    requires PipeOk(cfg, o, s) && Facing(s, w) && Answers(cfg, o, s, w, out)
    ensures PipeOk(cfg, p, Settle(s, w, out))
  {
    hide Inv, Advance, Settle, Extend, Sound, SoloOk;
    var i := s.workers[w].job.conn;
    var next := Onward(AtHandler(o, s, w), out);
    p := Extend(o, i, s.links[i].served, next, out.reply);
    ExtendAgrees(o, s.links, i, next, out.reply);
    AgreeKeeps(cfg, o, p, s);
    PresentIsSound(cfg, o, s, i);
    HandlerKeeps(cfg, p, s, w, out);
  }

  lemma PresentIsSound(cfg: Config, o: Oracle, s: System, i: nat)
    requires PipeOk(cfg, o, s) && i < |s.links|
    ensures SoloOk(cfg, o.solo(i, s.links[i].served))
  {
    hide Inv, SoloOk;
    assert SoundAt(cfg, o, i, s.links[i].served);
  }

  // ---------- every run ----------

  lemma StepExtends(cfg: Config, o: Oracle, s: System, step: Step) returns (p: Oracle)
    requires PipeOk(cfg, o, s) && Enabled(s, step)
    ensures PipeOk(cfg, p, Apply(cfg, s, step))
  {
    hide PipeOk, Answers, Result, OtherResult, Settle, Facing, OtherMay, Possible, Misanswers, Modelled;
    if step.Execute? {
      ModelledAnswers(cfg, o, s, step.w);
      p := SettleExtends(cfg, o, s, step.w, Result(cfg, s, step.w));
    } else if step.ExecuteOther? {
      OtherAnswers(cfg, o, s, step.w, step.io, step.download, step.files);
      p := SettleExtends(cfg, o, s, step.w, OtherResult(s, step.w, step.io, step.download, step.files));
    } else {
      p := o;
      OtherStepKeeps(cfg, o, s, step);
    }
  }

  lemma {:induction false} RunExtends(cfg: Config, o: Oracle, s: System, steps: seq<Step>) returns (p: Oracle)
    requires PipeOk(cfg, o, s) && IsRun(cfg, s, steps)
    ensures PipeOk(cfg, p, After(cfg, s, steps))
    decreases |steps|
  {
    hide PipeOk, Apply;
    p := o;
    if steps != [] {
      p := StepExtends(cfg, o, s, steps[0]);
      p := RunExtends(cfg, p, Apply(cfg, s, steps[0]), steps[1..]);
    }
  }

  lemma Reachable(cfg: Config, init: System, steps: seq<Step>) returns (o: Oracle)
    requires Initial(cfg, init) && IsRun(cfg, init, steps)
    ensures PipeOk(cfg, o, After(cfg, init, steps))
  {
    hide PipeOk, Apply;
    o := Oracle((i: nat, k: nat) => Alone(init, i), (i: nat, k: nat) => []);
    InitialOk(cfg, o, init);
    o := RunExtends(cfg, o, init, steps);
  }

  // ---------- the theorems ----------

  /** In every interleaving a connection has at most one request on the server, in one place, and then
      none of it is in the channel or under the cursor and no reply is under way. */
  lemma AtMostOneRequest(cfg: Config, init: System, steps: seq<Step>, i: nat, p: Place, q: Place)
    requires Initial(cfg, init) && IsRun(cfg, init, steps)
    requires Holds(After(cfg, init, steps), p, i) && Holds(After(cfg, init, steps), q, i)
    ensures p == q
    ensures var s := After(cfg, init, steps);
            i < |s.links| && s.links[i].up == [] && s.links[i].pos == 0 && s.links[i].down == []
  {
    hide Inv, Apply, Holds;
    var o := Reachable(cfg, init, steps);
    OneRequest(o, After(cfg, init, steps), i, p, q);
  }

  /** In every interleaving the bytes between client and framing, in the channel and under the cursor, are
      none or exactly the request the client is waiting on, and then it is nowhere else. */
  lemma BytesAreTheRequest(cfg: Config, init: System, steps: seq<Step>, i: nat)
    requires Initial(cfg, init) && IsRun(cfg, init, steps) && i < |After(cfg, init, steps).links|
    ensures var s := After(cfg, init, steps);
            var l := s.links[i];
            && l.pos <= |l.buf|
            && var bytes := l.buf[..l.pos] + l.up;
               bytes == [] ||
               (l.phase.Waiting? && Request(l.client) == Some(bytes) && l.down == [] && forall p :: !Holds(s, p, i))
  {
    hide Apply, Inv;
    var o := Reachable(cfg, init, steps);
    BytesInFlight(o, After(cfg, init, steps), i);
  }

  /** In every interleaving the command a handler runs on, read from the live receive buffer, is the
      command of the packet's own snapshot; indeed the buffer still begins with the whole snapshot. */
  lemma HandlerReadsOwnPacket(cfg: Config, init: System, steps: seq<Step>, w: nat)
    requires Initial(cfg, init) && IsRun(cfg, init, steps)
    requires var s := After(cfg, init, steps);
             w < |s.workers| && (s.workers[w].Took? || s.workers[w].Typed?)
    ensures var s := After(cfg, init, steps);
            var job := s.workers[w].job;
            && job.conn < |s.links| && job.data <= s.links[job.conn].buf && IsPacket(job.data)
            && LiveType(s.links[job.conn].buf) == job.data[1]
            && (s.workers[w].Typed? ==> s.workers[w].command == job.data[1])
  {
    hide Inv, Apply;
    var o := Reachable(cfg, init, steps);
    var s := After(cfg, init, steps);
    PendingIsGood(cfg, o, s, w);
    LiveBufferIsSnapshot(o, s, w);
  }

  // ---------- no run is stuck ----------

  /** Every client has been through all its commands and nothing is left anywhere. */
  ghost predicate Finished(s: System) {
    && s.stack == [] && s.queue == []
    && (forall w :: 0 <= w < |s.workers| ==> s.workers[w] == Idle)
    && (forall i :: 0 <= i < |s.links| ==>
          s.links[i].phase == Ready && Request(s.links[i].client).None? &&
          s.links[i].up == [] && s.links[i].down == [] && s.links[i].pos == 0)
  }

  /** No step can be taken. */
  ghost predicate Stuck(s: System) {
    forall step :: !Enabled(s, step)
  }

  /** Every request still to come has a handler that answers: a type no handler is registered for ends the
      server, and REQ_CRC_VERIFY is never answered. */
  predicate Answerable(p: seq<byte>) {
    |p| >= HEADER_SIZE ==> p[1] <= LAST_REQUEST && p[1] != REQ_CRC_VERIFY
  }

  ghost predicate AllAnswerable(links: seq<Link>) {
    forall i, p :: 0 <= i < |links| && p in Asks(links[i].client.plan) ==> Answerable(p)
  }

  lemma AnswerableStays(cfg: Config, s: System, step: Step)
    requires AllAnswerable(s.links) && Enabled(s, step)
    ensures AllAnswerable(Apply(cfg, s, step).links)
  {
    hide Handle, Reply, Answerable, Advance, PollResult, Possible, Misanswers;
    if step.ClientDone? {
      AdvanceAsks(s.links[step.i].client, s.links[step.i].phase.got);
    }
  }

  lemma {:induction false} AnswerableRun(cfg: Config, s: System, steps: seq<Step>)
    requires AllAnswerable(s.links) && IsRun(cfg, s, steps)
    ensures AllAnswerable(After(cfg, s, steps).links)
    decreases |steps|
  {
    hide AllAnswerable, Apply;
    if steps != [] {
      AnswerableStays(cfg, s, steps[0]);
      AnswerableRun(cfg, Apply(cfg, s, steps[0]), steps[1..]);
    }
  }

  lemma RequestIsAnswerable(links: seq<Link>, i: nat)
    requires AllAnswerable(links) && i < |links| && Request(links[i].client).Some?
    ensures Answerable(Request(links[i].client).value)
  {
    hide Advance;
    AdvanceAsks(links[i].client, Sample(RESP_OK));
  }

  /** A typed worker whose request has a handler can run it. */
  lemma TypedWorkerMoves(cfg: Config, o: Oracle, s: System, w: nat) returns (step: Step)
    requires PipeOk(cfg, o, s) && AllAnswerable(s.links) && Facing(s, w)
    ensures Enabled(s, step)
  {
    hide Inv, Sound, AdminLogin, AllAnswerable;
    var i := s.workers[w].job.conn;
    HandlerFaces(cfg, o, s, w);
    HeldRequest(o, s, w);
    RequestIsAnswerable(s.links, i);
    if Modelled(s.workers[w].command) {
      step := Execute(w);
    } else {
      RequestIsPacket(cfg, AtHandler(o, s, w));
      step := ExecuteOther(w, Io(true, false, true, 0, []), s.links[i].sess.download, s.shared.files);
    }
  }

  lemma HeldRequest(o: Oracle, s: System, w: nat)
    requires Inv(o, s) && Facing(s, w)
    ensures Request(s.links[s.workers[w].job.conn].client) == Some(s.workers[w].job.data)
  {
    assert WorkerOk(o, s.links, w, s.workers[w]);
  }

  lemma BusyWorkerMoves(cfg: Config, o: Oracle, s: System, w: nat) returns (step: Step)
    requires PipeOk(cfg, o, s) && AllAnswerable(s.links) && w < |s.workers| && s.workers[w] != Idle
    ensures Enabled(s, step)
  {
    hide LinkOk, JobsOk, Sound, AllAnswerable, Misanswers;
    assert WorkerOk(o, s.links, w, s.workers[w]);
    match s.workers[w]
    case Took(job) =>
      LiveBufferIsSnapshot(o, s, w);
      step := ReadType(w);
    case Typed(job, command) => step := TypedWorkerMoves(cfg, o, s, w);
    case Sending(i, rest) =>
      step := if rest == [] then Finish(w) else Transmit(w, 1);
  }

  lemma NoneIgnored(o: Oracle, s: System, i: nat)
    requires Inv(o, s) && AllAnswerable(s.links) && i < |s.links|
    ensures s.links[i].stage != Unanswered
  {
    hide AllAnswerable;
    assert LinkOk(o, i, s.links[i]);
    if Request(s.links[i].client).Some? {
      RequestIsAnswerable(s.links, i);
    }
  }

  lemma LinkMoves(o: Oracle, s: System, i: nat) returns (step: Step)
    requires Inv(o, s) && i < |s.links|
    requires s.stack == [] && s.queue == [] && forall w :: 0 <= w < |s.workers| ==> s.workers[w] == Idle
    requires s.links[i].phase != Ready || Request(s.links[i].client).Some?
    requires s.links[i].stage != Unanswered
    ensures Enabled(s, step)
  {
    hide WorkerOk, JobsOk, Request;
    var l := s.links[i];
    assert LinkOk(o, i, l);
    assert Held(s, i, l.stage);
    match l.stage
    case AtClient => step := ClientSend(i);
    case OnWire => step := Poll(i, 1);
    case Replied =>
      var k := NextRead(l.phase.got, l.down, o.reply(i, l.served - 1));
      step := if k == 0 then ClientDone(i) else ClientRecv(i, k);
  }

  /** A reply all of which has been sent is whole already, or the client can read k more bytes of it. */
  lemma NextRead(got: seq<byte>, down: seq<byte>, reply: seq<byte>) returns (k: nat)
    requires GotOk(got, reply) && got + down == reply
    ensures if k == 0 then IsPacket(got)
            else k <= |down| && k <= Missing(got) && (got == [] ==> k == HEADER_SIZE)
  {
    if down == [] {
      assert got == reply;
      k := 0;
    } else if got == [] {
      assert down == reply;
      k := HEADER_SIZE;
    } else {
      assert got == reply[..|got|];
      k := 1;
    }
  }

  /** Deadlock freedom: in a state the invariant allows, either everything is done or some step can be taken. */
  lemma Progress(cfg: Config, o: Oracle, s: System) returns (step: Step)
    requires PipeOk(cfg, o, s) && AllAnswerable(s.links)
    ensures Finished(s) || Enabled(s, step)
  {
    hide Sound, LinkOk, AllAnswerable, Modelled, Possible, Misanswers, OtherMay;
    step := Dispatch;
    if s.stack != [] {
      assert JobOk(s.links, s.stack[|s.stack| - 1], Stacked);
    } else if w :| 0 <= w < |s.workers| && s.workers[w] != Idle {
      step := BusyWorkerMoves(cfg, o, s, w);
    } else if s.queue != [] {
      assert JobOk(s.links, s.queue[0], Queued);
      step := Take(0);
    } else if i :| 0 <= i < |s.links| && (s.links[i].phase != Ready || Request(s.links[i].client).Some?) {
      NoneIgnored(o, s, i);
      step := LinkMoves(o, s, i);
    } else {
      forall i | 0 <= i < |s.links| ensures s.links[i].up == [] && s.links[i].down == [] && s.links[i].pos == 0 {
        ReadyIsIdle(o, s, i);
      }
    }
  }

  lemma ReadyIsIdle(o: Oracle, s: System, i: nat)
    requires Inv(o, s) && i < |s.links| && s.links[i].phase == Ready
    ensures s.links[i].up == [] && s.links[i].down == [] && s.links[i].pos == 0
  {
    assert LinkOk(o, i, s.links[i]);
  }

  lemma NoStepLeft(s: System, step: Step)
    requires Finished(s)
    ensures !Enabled(s, step)
  {
  }

  /** In every interleaving of lockstep clients whose requests have handlers that answer, no step is left
      exactly when everything is done. */
  lemma StuckIffFinished(cfg: Config, init: System, steps: seq<Step>)
    requires Initial(cfg, init) && AllAnswerable(init.links) && IsRun(cfg, init, steps)
    ensures Stuck(After(cfg, init, steps)) <==> Finished(After(cfg, init, steps))
  {
    hide PipeOk, Apply, Finished, Enabled, AllAnswerable;
    AnswerableRun(cfg, init, steps);
    var s := After(cfg, init, steps);
    var o := Reachable(cfg, init, steps);
    var step := Progress(cfg, o, s);
    if Finished(s) {
      forall other: Step ensures !Enabled(s, other) {
        NoStepLeft(s, other);
      }
    }
  }

  // ---------- requests for administrators ----------

  /** A request kept for administrators changes nothing for a session that is not one's, and is refused. */
  lemma AdminOnlyRefused(cfg: Config, s: System, step: Step)
    requires Enabled(s, step) && step.ExecuteOther?
    requires s.workers[step.w].command in
             {REQ_SERVER_STATUS, REQ_CONNECTIONS_INFO, REQ_GET_SETTINGS, REQ_SET_SETTING, REQ_CLEAN}
    requires var sess := s.links[s.workers[step.w].job.conn].sess; sess.id == "" || !sess.admin
    ensures var t := Apply(cfg, s, step);
            var i := s.workers[step.w].job.conn;
            && t.shared == s.shared && |t.links| == |s.links| && |t.workers| == |s.workers|
            && (forall j :: 0 <= j < |s.links| ==> t.links[j].sess == s.links[j].sess)
            && t.workers[step.w] ==
               Sending(i, Sample(if s.links[i].sess.id == "" then RESP_NOT_LOGGED_IN else RESP_REQUIRES_ADMIN))
  {
    hide Reply, Possible;
    RefusedIff(Other(s, step.w, step.io));
  }

  /** What a step leaves of one connection: the client moves on only when it is done with a reply, and its
      session changes only when a handler has run for it. */
  lemma LinkStays(cfg: Config, s: System, step: Step, i: nat)
    requires Enabled(s, step) && i < |s.links|
    ensures var t := Apply(cfg, s, step);
            && |t.links| == |s.links|
            && (t.links[i].client == s.links[i].client ||
                (step == ClientDone(i) && t.links[i].client == Advance(s.links[i].client, s.links[i].phase.got)))
            && (t.links[i].sess == s.links[i].sess ||
                ((step.Execute? || step.ExecuteOther?) && s.workers[step.w].job.conn == i &&
                 t.links[i].sess == if step.Execute? then Result(cfg, s, step.w).sess
                                    else s.links[i].sess.(download := step.download)))
  {
    hide Handle, Reply, Advance, PollResult, Possible, Misanswers, Request;
  }

  /** A connection whose client never logs in as an administrator is never one. */
  lemma OrdinaryStays(cfg: Config, o: Oracle, s: System, step: Step, i: nat)
    requires PipeOk(cfg, o, s) && Enabled(s, step) && i < |s.links| && Ordinary(cfg, Alone(s, i))
    ensures Ordinary(cfg, Alone(Apply(cfg, s, step), i))
  {
    hide Handle, Apply, PipeOk, Advance, AdminLogin, Modelled, Asks;
    LinkStays(cfg, s, step, i);
    if step == ClientDone(i) {
      AdvanceAsks(s.links[i].client, s.links[i].phase.got);
    } else if step.Execute? && s.workers[step.w].job.conn == i {
      OrdinaryHandler(cfg, o, s, step.w);
    }
  }

  lemma OrdinaryHandler(cfg: Config, o: Oracle, s: System, w: nat)
    requires PipeOk(cfg, o, s) && Enabled(s, Execute(w)) && Ordinary(cfg, Alone(s, s.workers[w].job.conn))
    ensures !Result(cfg, s, w).sess.admin
  {
    hide Handle, Inv, Sound, Advance, AdminLogin, SoloOk;
    var i := s.workers[w].job.conn;
    HandlerFaces(cfg, o, s, w);
    HeldRequest(o, s, w);
    AdvanceAsks(s.links[i].client, Sample(RESP_OK));
    PlainRequest(cfg, s.links[i].client, s.workers[w].job.data);
    PlainLeavesFlag(cfg, s.workers[w].command, s.workers[w].job.data, s.links[i].sess, s.shared);
  }

  lemma PlainRequest(cfg: Config, c: Client, p: seq<byte>)
    requires Request(c) == Some(p) && |p| >= HEADER_SIZE && (c.fetch.NoFetch? ==> p in Asks(c.plan))
    requires forall q :: q in Asks(c.plan) && |q| >= HEADER_SIZE ==> !AdminLogin(cfg, q[1], q)
    ensures !AdminLogin(cfg, p[1], p)
  {
    hide Asks;
  }

  lemma {:induction false} OrdinaryInRun(cfg: Config, o: Oracle, s: System, steps: seq<Step>, i: nat)
    requires PipeOk(cfg, o, s) && IsRun(cfg, s, steps) && i < |s.links| && Ordinary(cfg, Alone(s, i))
    ensures i < |After(cfg, s, steps).links| && !After(cfg, s, steps).links[i].sess.admin
    decreases |steps|
  {
    hide PipeOk, Apply, Ordinary;
    if steps == [] {
      OrdinaryIsNoAdmin(cfg, s, i);
    } else {
      OrdinaryStays(cfg, o, s, steps[0], i);
      LinkStays(cfg, s, steps[0], i);
      var p := StepExtends(cfg, o, s, steps[0]);
      OrdinaryInRun(cfg, p, Apply(cfg, s, steps[0]), steps[1..], i);
    }
  }

  lemma OrdinaryIsNoAdmin(cfg: Config, s: System, i: nat)
    requires i < |s.links| && Ordinary(cfg, Alone(s, i))
    ensures !s.links[i].sess.admin
  {
  }

  /** In every interleaving, whoever else is there: a client that does not log in as an administrator is never
      one, and each request it makes that is kept for administrators is refused and changes no file, no
      session and no flag. */
  lemma OnlyAdministrators(cfg: Config, init: System, steps: seq<Step>, step: Step, i: nat)
    requires Initial(cfg, init) && IsRun(cfg, init, steps) && i < |init.links| && Ordinary(cfg, Alone(init, i))
    ensures i < |After(cfg, init, steps).links| && !After(cfg, init, steps).links[i].sess.admin
    ensures var s := After(cfg, init, steps);
            Enabled(s, step) && step.ExecuteOther? && s.workers[step.w].job.conn == i &&
            s.workers[step.w].command in
              {REQ_SERVER_STATUS, REQ_CONNECTIONS_INFO, REQ_GET_SETTINGS, REQ_SET_SETTING, REQ_CLEAN} ==>
              var t := Apply(cfg, s, step);
              && t.shared == s.shared && |t.links| == |s.links| && |t.workers| == |s.workers|
              && (forall j :: 0 <= j < |s.links| ==> t.links[j].sess == s.links[j].sess)
              && t.workers[step.w] ==
                 Sending(i, Sample(if s.links[i].sess.id == "" then RESP_NOT_LOGGED_IN else RESP_REQUIRES_ADMIN))
  {
    hide PipeOk, Apply, Ordinary, Possible, Misanswers, OtherMay, Modelled;
    var none: seq<Step> := [];
    var o := Reachable(cfg, init, none);
    OrdinaryInRun(cfg, o, init, steps, i);
    var s := After(cfg, init, steps);
    if Enabled(s, step) && step.ExecuteOther? && s.workers[step.w].job.conn == i &&
       s.workers[step.w].command in
         {REQ_SERVER_STATUS, REQ_CONNECTIONS_INFO, REQ_GET_SETTINGS, REQ_SET_SETTING, REQ_CLEAN} {
      AdminOnlyRefused(cfg, s, step);
    }
  }
}
