/** Clients, channels, receive buffers, the completed-packet stack, the pool's queue and its workers
    as one step system. A step is one atomic action of one thread; every interleaving of steps is a
    run. Source: src/server/main.cpp:25-38, 85-197, src/server/connection.cpp:30-62,
    src/server/thread_pool.hpp:28-66, src/client/main.cpp:59-72, src/common/utils.hpp:13-46. */
module Systems {
  import opened Protocol
  import opened Framing
  import opened Handlers
  import opened Clients
  import opened Responses

  /** Between commands, or reading the reply to the request just sent. */
  datatype Phase = Ready | Waiting(got: seq<byte>)

  /** Where the connection's current exchange is. A history variable: no step is guarded by it. */
  datatype Stage = AtClient | OnWire | Stacked | Queued | AtWorker(w: nat) | Replying(w: nat) | Replied | Unanswered

  /** One client, its two channels and its connection on the server. served counts the handlers that
      have run for it, another history variable. */
  datatype Link = Link(client: Client, phase: Phase, up: seq<byte>, down: seq<byte>,
                       buf: seq<byte>, pos: nat, sess: Session, served: nat, stage: Stage)

  /** A completed packet: the connection it points to and its own snapshot of the bytes. */
  datatype Job = Job(conn: nat, data: seq<byte>)

  datatype Worker = Idle | Took(job: Job) | Typed(job: Job, command: byte) | Sending(conn: nat, rest: seq<byte>)

  datatype System = System(links: seq<Link>, stack: seq<Job>, queue: seq<Job>, workers: seq<Worker>, shared: Shared)

  datatype Step =
    | ClientSend(i: nat)
    | Poll(i: nat, k: nat)
    | Dispatch
    | Take(w: nat)
    | ReadType(w: nat)
    | Execute(w: nat)
    | ExecuteOther(w: nat, io: Io, download: Fd, files: Disk)
    | Ignore(w: nat)
    | Transmit(w: nat, k: nat)
    | Finish(w: nat)
    | ClientRecv(i: nat, k: nat)
    | ClientDone(i: nat)

  /** ConnectionBuffer::get_packet_type reads the connection's receive buffer as it is now. */
  function LiveType(buf: seq<byte>): byte
    requires |buf| >= HEADER_SIZE
  {
    if buf[1] > RESP_FILE_LIST then REQ_SET_SETTING else buf[1]
  }

  /** How many bytes recv_from_server still asks for. */
  function Missing(got: seq<byte>): nat {
    if |got| < HEADER_SIZE then HEADER_SIZE - |got|
    else if SizeField(got) > |got| then SizeField(got) - |got|
    else 0
  }

  /** A typed worker whose connection is there. */
  predicate Facing(s: System, w: nat) {
    w < |s.workers| && s.workers[w].Typed? && s.workers[w].job.conn < |s.links|
  }

  /** The request a worker is about to handle, as the table of replies sees it. */
  function Other(s: System, w: nat, io: Io): Exchange
    requires Facing(s, w)
  {
    var sess := s.links[s.workers[w].job.conn].sess;
    Exchange(s.workers[w].command, sess.id != "", sess.admin, io)
  }

  /** What a handler whose effect is not modelled may do: anything to the files, behind the login gate and the
      administrator test; of the session, closing a download drops its descriptor. */
  predicate OtherMay(s: System, w: nat, download: Fd, files: Disk)
    requires Facing(s, w)
  {
    var sess := s.links[s.workers[w].job.conn].sess;
    && (s.workers[w].command != REQ_FILE_CLOSE || sess.id == "" ==> download == sess.download)
    && (sess.id == "" || (AdminOnly(s.workers[w].command) && !sess.admin) ==> files == s.shared.files)
  }

  predicate Enabled(s: System, step: Step) {
    match step
    case ClientSend(i) =>
      i < |s.links| && s.links[i].phase.Ready? && Request(s.links[i].client).Some?
    case Poll(i, k) =>
      i < |s.links| && 0 < k <= |s.links[i].up| && s.links[i].pos + k <= |s.links[i].buf|
    case Dispatch =>
      s.stack != [] && s.stack[|s.stack| - 1].conn < |s.links|
    case Take(w) =>
      w < |s.workers| && s.workers[w].Idle? && s.queue != [] && s.queue[0].conn < |s.links|
    case ReadType(w) =>
      w < |s.workers| && s.workers[w].Took? && s.workers[w].job.conn < |s.links| &&
      |s.links[s.workers[w].job.conn].buf| >= HEADER_SIZE
    case Execute(w) => Facing(s, w) && Modelled(s.workers[w].command)
    case ExecuteOther(w, io, download, files) =>
      Facing(s, w) && !Modelled(s.workers[w].command) && OtherMay(s, w, download, files) &&
      Possible(Other(s, w, io)) && !Misanswers(Other(s, w, io))
    case Ignore(w) =>
      Facing(s, w) && s.workers[w].command == REQ_CRC_VERIFY && s.links[s.workers[w].job.conn].sess.id != ""
    case Transmit(w, k) =>
      w < |s.workers| && s.workers[w].Sending? && s.workers[w].conn < |s.links| && 0 < k <= |s.workers[w].rest|
    case Finish(w) =>
      w < |s.workers| && s.workers[w].Sending? && s.workers[w].rest == []
    case ClientRecv(i, k) =>
      i < |s.links| && s.links[i].phase.Waiting? && 0 < k <= |s.links[i].down| &&
      k <= Missing(s.links[i].phase.got) && (s.links[i].phase.got == [] ==> k == HEADER_SIZE)
    case ClientDone(i) =>
      i < |s.links| && s.links[i].phase.Waiting? && IsPacket(s.links[i].phase.got) &&
      Request(s.links[i].client).Some?
  }

  function SetLink(s: System, i: nat, l: Link): System
    requires i < |s.links|
  {
    s.(links := s.links[i := l])
  }

  function SetWorker(s: System, w: nat, x: Worker): System
    requires w < |s.workers|
  {
    s.(workers := s.workers[w := x])
  }

  function Jobs(i: nat, packets: seq<seq<byte>>): seq<Job> {
    seq(|packets|, k requires 0 <= k < |packets| => Job(i, packets[k]))
  }

  // ---------- what each step does to one connection ----------

  function Asking(l: Link): Link
    requires Request(l.client).Some?
  {
    l.(phase := Waiting([]), up := l.up + Request(l.client).value, stage := OnWire)
  }

  function PollResult(l: Link, k: nat): Drained
    requires k <= |l.up| && l.pos + k <= |l.buf|
  {
    Receive(l.buf, l.pos, l.up[..k])
  }

  function Polled(l: Link, k: nat): Link
    requires k <= |l.up| && l.pos + k <= |l.buf|
  {
    var d := PollResult(l, k);
    l.(up := l.up[k..], buf := d.buf, pos := d.pos, stage := if d.packets == [] then l.stage else Stacked)
  }

  function Executed(l: Link, w: nat, out: Outcome): Link {
    l.(sess := out.sess, served := l.served + 1, stage := if out.reply == [] then Replied else Replying(w))
  }

  function Fed(l: Link, rest: seq<byte>, k: nat): Link
    requires k <= |rest|
  {
    l.(down := l.down + rest[..k], stage := if k == |rest| then Replied else l.stage)
  }

  function Read(l: Link, k: nat): Link
    requires l.phase.Waiting? && k <= |l.down|
  {
    l.(phase := Waiting(l.phase.got + l.down[..k]), down := l.down[k..])
  }

  function Moved(l: Link): Link
    requires l.phase.Waiting? && IsPacket(l.phase.got) && Request(l.client).Some?
  {
    l.(client := Advance(l.client, l.phase.got), phase := Ready, stage := AtClient)
  }

  /** What the handler a worker is about to run will do. */
  function Result(cfg: Config, s: System, w: nat): Outcome
    requires Enabled(s, Execute(w))
  {
    var job := s.workers[w].job;
    Handle(cfg, s.workers[w].command, job.data, s.links[job.conn].sess, s.shared)
  }

  /** What a handler not modelled does: the reply is the table's. */
  function OtherResult(s: System, w: nat, io: Io, download: Fd, files: Disk): Outcome
    requires Facing(s, w) && Possible(Other(s, w, io))
  {
    Outcome(s.links[s.workers[w].job.conn].sess.(download := download), s.shared.(files := files),
            Reply(Other(s, w, io)))
  }

  /** A handler has come out with the given outcome, and its worker starts sending the reply. */
  function Settle(s: System, w: nat, out: Outcome): System
    requires Facing(s, w)
  {
    var i := s.workers[w].job.conn;
    SetWorker(SetLink(s, i, Executed(s.links[i], w, out)), w, Sending(i, out.reply)).(shared := out.shared)
  }

  function Apply(cfg: Config, s: System, step: Step): System
    requires Enabled(s, step)
  {
    match step
    case ClientSend(i) => SetLink(s, i, Asking(s.links[i]))
    case Poll(i, k) =>
      SetLink(s, i, Polled(s.links[i], k)).(stack := s.stack + Jobs(i, PollResult(s.links[i], k).packets))
    case Dispatch =>
      var last := |s.stack| - 1;
      var job := s.stack[last];
      SetLink(s, job.conn, s.links[job.conn].(stage := Queued)).(stack := s.stack[..last], queue := s.queue + [job])
    case Take(w) =>
      var job := s.queue[0];
      var t := SetLink(s, job.conn, s.links[job.conn].(stage := AtWorker(w)));
      SetWorker(t, w, Took(job)).(queue := s.queue[1..])
    case ReadType(w) =>
      var job := s.workers[w].job;
      SetWorker(s, w, Typed(job, LiveType(s.links[job.conn].buf)))
    case Execute(w) => Settle(s, w, Result(cfg, s, w))
    case ExecuteOther(w, io, download, files) => Settle(s, w, OtherResult(s, w, io, download, files))
    case Ignore(w) =>
      var i := s.workers[w].job.conn;
      SetWorker(SetLink(s, i, s.links[i].(stage := Unanswered)), w, Sending(i, []))
    case Transmit(w, k) =>
      var Sending(i, rest) := s.workers[w];
      SetWorker(SetLink(s, i, Fed(s.links[i], rest, k)), w, Sending(i, rest[k..]))
    case Finish(w) => SetWorker(s, w, Idle)
    case ClientRecv(i, k) => SetLink(s, i, Read(s.links[i], k))
    case ClientDone(i) => SetLink(s, i, Moved(s.links[i]))
  }

  /** A run is a sequence of steps each enabled where it is taken. */
  ghost predicate IsRun(cfg: Config, s: System, steps: seq<Step>)
    decreases |steps|
  {
    steps == [] || (Enabled(s, steps[0]) && IsRun(cfg, Apply(cfg, s, steps[0]), steps[1..]))
  }

  ghost function After(cfg: Config, s: System, steps: seq<Step>): System
    requires IsRun(cfg, s, steps)
    decreases |steps|
  {
    if steps == [] then s else After(cfg, Apply(cfg, s, steps[0]), steps[1..])
  }
}
