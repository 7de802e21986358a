/** The client's loops as it runs them, against the server's connection object: send one packet, read
    the reply, act on it. Source: src/client/main.cpp:41-73, src/client/menu.hpp:139-165, 345-358, 470-601. */
module ClientLoop {
  import opened Protocol
  import opened Sequences
  import opened Framing
  import opened Files
  import opened Handlers
  import opened Clients
  import opened SoloRuns
  import opened Transfers
  import opened Connection
  import Systems
  import opened Controller

  /** One exchange: the request's bytes go through the receive buffer, the packet cut from it to its
      handler, and the command is read from the buffer it came through. */
  method Answer(cfg: Config, c: ConnectionWrapper, g: ServerShared, request: seq<byte>) returns (reply: seq<byte>)
    requires c.Valid() && c.bufferPos == 0 && IsPacket(request) && Modelled(request[1])
    modifies c, c.buffer, g
    ensures c.Valid() && c.bufferPos == 0
    ensures Outcome(c.View(), g.View(), reply) == Handle(cfg, request[1], request, old(c.View()), old(g.View()))
  {
    WholeRequest(c.buffer[..], request);
    var packets := c.Receive(request);
    reply := ProcessPacket(cfg, c, packets[0], g);
  }

  lemma WholeRequest(buf: seq<byte>, request: seq<byte>)
    requires |buf| == BUFFER_SIZE && IsPacket(request) && Modelled(request[1])
    ensures var d := Framing.Receive(buf, 0, request);
            d.packets == [request] && d.pos == 0 && Systems.LiveType(d.buf) == request[1]
  {
    assert buf[..0] + request == request;
    ReceiveExact(buf, 0, request, request);
    var d := Framing.Receive(buf, 0, request);
    assert d.buf[1] == d.buf[..|request|][1];
  }

  /** k exchanges into the client's run from s0, the client and the server are as given; spent commands
      at the front of the plan do not matter. */
  ghost predicate Tracks(cfg: Config, s0: Solo, k: nat, plan: seq<Packets>, fetch: Fetch,
                         local: map<string, seq<byte>>, sess: Session, shared: Shared) {
    var t := SoloRun(cfg, s0, k);
    t == Solo(Client(t.client.plan, fetch, local), sess, shared) && Skip(t.client.plan) == Skip(plan)
  }

  /** The run goes on by one exchange, whose request is fit for the server and whose reply is one packet. */
  lemma StepOn(cfg: Config, s0: Solo, k: nat)
    requires SoloFit(cfg, s0) && Request(SoloRun(cfg, s0, k).client).Some?
    ensures var t := SoloRun(cfg, s0, k);
            && SoloFit(cfg, t) && Live(cfg, t)
            && var out := Served(cfg, t);
               SoloRun(cfg, s0, k + 1) == Solo(Advance(t.client, out.reply), out.sess, out.shared)
  {
    hide Handle, Advance;
    FitRun(cfg, s0, k);
    FitRequest(cfg, SoloRun(cfg, s0, k));
  }

  function FetchAt(file: string, next: nat, chunks: nat, offset: nat): Fetch {
    if next == chunks then NoFetch else Fetching(file, next, chunks, offset)
  }

  function OpenLocal(local: map<string, seq<byte>>, file: string): map<string, seq<byte>> {
    local[file := Written(local, file)]
  }

  lemma ChunkExchange(cfg: Config, s0: Solo, k: nat, plan: seq<Packets>, file: string, next: nat, chunks: nat,
                      offset: nat, local: map<string, seq<byte>>, sess: Session, shared: Shared)
    requires SoloFit(cfg, s0) && next < chunks
    requires Tracks(cfg, s0, k, plan, Fetching(file, next, chunks, offset), local, sess, shared)
    ensures var request := ChunkRequest(next);
            var out := Handle(cfg, request[1], request, sess, shared);
            && IsPacket(out.reply)
            && var body := out.reply[HEADER_SIZE..];
               Tracks(cfg, s0, k + 1, plan, FetchAt(file, next + 1, chunks, offset + |body|),
                      local[file := WriteAt(Written(local, file), offset, body)], out.sess, out.shared)
  {
    hide Handle, SoloFit, SoloStep, WriteAt;
    StepOn(cfg, s0, k);
  }

  /** What each kind of reply does to the rest of the command. */
  ghost predicate Acted(cfg: Config, s0: Solo, k: nat, rest: Packets, more: seq<Packets>,
                        local: map<string, seq<byte>>, out: Outcome)
    requires IsPacket(out.reply)
  {
    if Aborts(out.reply[1]) then
      Tracks(cfg, s0, k, more, NoFetch, local, out.sess, out.shared)
    else if out.reply[1] == RESP_FILE_OPENED then
      Tracks(cfg, s0, k, [rest] + more, FetchAt(OpenedName(out.reply), 0, OpenedChunks(out.reply), 0),
             OpenLocal(local, OpenedName(out.reply)), out.sess, out.shared)
    else
      Tracks(cfg, s0, k, [rest] + more, NoFetch, local, out.sess, out.shared)
  }

  /** The next packet of a command is answered and acted on. */
  lemma CommandExchange(cfg: Config, s0: Solo, k: nat, packet: seq<byte>, rest: Packets, more: seq<Packets>,
                        local: map<string, seq<byte>>, sess: Session, shared: Shared)
    requires SoloFit(cfg, s0)
    requires Tracks(cfg, s0, k, [[packet] + rest] + more, NoFetch, local, sess, shared)
    ensures IsPacket(packet) && Modelled(packet[1])
    ensures var out := Handle(cfg, packet[1], packet, sess, shared);
            IsPacket(out.reply) && Acted(cfg, s0, k + 1, rest, more, local, out)
  {
    hide Handle, SoloFit, SoloStep;
    var plan := [[packet] + rest] + more;
    assert Skip(plan) == plan && plan[0][0] == packet && plan[0][1..] == rest && plan[1..] == more;
    StepOn(cfg, s0, k);
  }

  /** The run is over with the client's files, the session and the shared state as given. */
  ghost predicate Over(cfg: Config, s0: Solo, local: map<string, seq<byte>>, sess: Session, shared: Shared) {
    exists k: nat ::
      var t := SoloRun(cfg, s0, k);
      Request(t.client).None? && t.client.local == local && t.sess == sess && t.shared == shared
  }

  /** Which it is in one way only. */
  lemma OverOnce(cfg: Config, s0: Solo, k: nat, local: map<string, seq<byte>>, sess: Session, shared: Shared)
    requires Over(cfg, s0, local, sess, shared) && Request(SoloRun(cfg, s0, k).client).None?
    ensures SoloRun(cfg, s0, k).client.local == local && SoloRun(cfg, s0, k).sess == sess
    ensures SoloRun(cfg, s0, k).shared == shared
  {
    hide SoloStep;
    var j: nat :|
      var t := SoloRun(cfg, s0, j);
      Request(t.client).None? && t.client.local == local && t.sess == sess && t.shared == shared;
    SameEnd(cfg, s0, j, k);
  }

  lemma SpentCommand(cfg: Config, s0: Solo, k: nat, more: seq<Packets>,
                     local: map<string, seq<byte>>, sess: Session, shared: Shared)
    requires Tracks(cfg, s0, k, [[]] + more, NoFetch, local, sess, shared)
    ensures Tracks(cfg, s0, k, more, NoFetch, local, sess, shared)
  {
    hide SoloRun;
    assert ([[]] + more)[1..] == more;
  }

  class Menu {
    var local: map<string, seq<byte>>

    /** One turn of the download loop: the reply's body goes where the last one ended. */
    method FetchChunk(cfg: Config, c: ConnectionWrapper, g: ServerShared, file: string, chunk: nat, offset: nat,
                      ghost chunks: nat, ghost s0: Solo, ghost k: nat, ghost plan: seq<Packets>) returns (count: nat)
      requires c.Valid() && c.bufferPos == 0 && SoloFit(cfg, s0) && chunk < chunks
      requires Tracks(cfg, s0, k, plan, Fetching(file, chunk, chunks, offset), local, c.View(), g.View())
      modifies this, c, c.buffer, g
      ensures c.Valid() && c.bufferPos == 0
      ensures Tracks(cfg, s0, k + 1, plan, FetchAt(file, chunk + 1, chunks, offset + count), local, c.View(), g.View())
    {
      hide Handle, Tracks, SoloFit;
      ChunkExchange(cfg, s0, k, plan, file, chunk, chunks, offset, local, c.View(), g.View());
      var reply := Answer(cfg, c, g, ChunkRequest(chunk));
      var body := reply[HEADER_SIZE..];
      local := local[file := WriteAt(Written(local, file), offset, body)];
      count := |body|;
    }

    /** handle_file_opened_resp: one request per chunk. */
    method HandleFileOpened(cfg: Config, c: ConnectionWrapper, g: ServerShared, info: seq<byte>,
                            ghost s0: Solo, ghost k: nat, ghost plan: seq<Packets>) returns (ghost last: nat)
      requires c.Valid() && c.bufferPos == 0 && SoloFit(cfg, s0)
      requires Tracks(cfg, s0, k, plan, FetchAt(OpenedName(info), 0, OpenedChunks(info), 0),
                      OpenLocal(local, OpenedName(info)), c.View(), g.View())
      modifies this, c, c.buffer, g
      ensures c.Valid() && c.bufferPos == 0
      ensures Tracks(cfg, s0, last, plan, NoFetch, local, c.View(), g.View())
    {
      hide Tracks, SoloFit;
      var file, chunks := OpenedName(info), OpenedChunks(info);
      local := OpenLocal(local, file);
      last := k;
      var chunk: nat, offset: nat := 0, 0;
      while chunk != chunks
        invariant c.Valid() && c.bufferPos == 0 && chunk <= chunks
        invariant Tracks(cfg, s0, last, plan, FetchAt(file, chunk, chunks, offset), local, c.View(), g.View())
        decreases chunks - chunk
      {
        var count := FetchChunk(cfg, c, g, file, chunk, offset, chunks, s0, last, plan);
        offset := offset + count;
        chunk := chunk + 1;
        last := last + 1;
      }
    }

    /** One packet of a command is sent and its reply acted on; dropped says that the rest of the
        command is not to be sent. */
    method SendPacket(cfg: Config, c: ConnectionWrapper, g: ServerShared, packet: seq<byte>, ghost rest: Packets,
                      ghost s0: Solo, ghost k: nat, ghost more: seq<Packets>) returns (dropped: bool, ghost last: nat)
      requires c.Valid() && c.bufferPos == 0 && SoloFit(cfg, s0)
      requires Tracks(cfg, s0, k, [[packet] + rest] + more, NoFetch, local, c.View(), g.View())
      modifies this, c, c.buffer, g
      ensures c.Valid() && c.bufferPos == 0
      ensures Tracks(cfg, s0, last, if dropped then more else [rest] + more, NoFetch, local, c.View(), g.View())
    {
      hide Handle, Acted, Tracks, SoloFit;
      CommandExchange(cfg, s0, k, packet, rest, more, local, c.View(), g.View());
      var reply := Answer(cfg, c, g, packet);
      dropped, last := HandleResponse(cfg, c, g, reply, rest, s0, k + 1, more);
    }

    /** handle_response_packet. */
    method HandleResponse(cfg: Config, c: ConnectionWrapper, g: ServerShared, reply: seq<byte>, ghost rest: Packets,
                          ghost s0: Solo, ghost k: nat, ghost more: seq<Packets>)
      returns (dropped: bool, ghost last: nat)
      requires c.Valid() && c.bufferPos == 0 && SoloFit(cfg, s0) && IsPacket(reply)
      requires Acted(cfg, s0, k, rest, more, local, Outcome(c.View(), g.View(), reply))
      modifies this, c, c.buffer, g
      ensures c.Valid() && c.bufferPos == 0
      ensures dropped <==> reply[1] in {RESP_REQUIRES_ADMIN, RESP_NOT_LOGGED_IN, RESP_BAD_LOGIN, RESP_IO_ERROR}
      ensures Tracks(cfg, s0, last, if dropped then more else [rest] + more, NoFetch, local, c.View(), g.View())
    {
      hide SoloFit;
      last := k;
      dropped := Aborts(reply[1]);
      if reply[1] == RESP_FILE_OPENED {
        last := HandleFileOpened(cfg, c, g, reply, s0, last, [rest] + more);
      }
    }

    /** One command: each packet in turn, until a reply drops the rest. */
    method RunCommand(cfg: Config, c: ConnectionWrapper, g: ServerShared, packets: Packets,
                      ghost s0: Solo, ghost k: nat, ghost more: seq<Packets>) returns (ghost last: nat)
      requires c.Valid() && c.bufferPos == 0 && SoloFit(cfg, s0)
      requires Tracks(cfg, s0, k, [packets] + more, NoFetch, local, c.View(), g.View())
      modifies this, c, c.buffer, g
      ensures c.Valid() && c.bufferPos == 0
      ensures Tracks(cfg, s0, last, more, NoFetch, local, c.View(), g.View())
    {
      hide Tracks, SoloFit;
      last := k;
      var i := 0;
      assert packets[0..] == packets;
      while i < |packets|
        invariant 0 <= i <= |packets| && c.Valid() && c.bufferPos == 0
        invariant Tracks(cfg, s0, last, [packets[i..]] + more, NoFetch, local, c.View(), g.View())
      {
        assert packets[i..] == [packets[i]] + packets[i + 1..];
        var dropped: bool;
        dropped, last := SendPacket(cfg, c, g, packets[i], packets[i + 1..], s0, last, more);
        if dropped {
          return;
        }
        i := i + 1;
      }
      assert packets[i..] == [];
      SpentCommand(cfg, s0, last, more, local, c.View(), g.View());
    }

    /** The command loop over a whole session: client and server end where the client's run alone ends. */
    method RunSession(cfg: Config, c: ConnectionWrapper, g: ServerShared, commands: seq<Packets>)
      requires c.Valid() && c.bufferPos == 0
      requires SoloFit(cfg, Solo(Client(commands, NoFetch, local), c.View(), g.View()))
      modifies this, c, c.buffer, g
      ensures c.Valid() && c.bufferPos == 0
      ensures Over(cfg, old(Solo(Client(commands, NoFetch, local), c.View(), g.View())), local, c.View(), g.View())
    {
      hide SoloFit, SoloStep;
      ghost var s0, k := Solo(Client(commands, NoFetch, local), c.View(), g.View()), 0;
      assert SoloRun(cfg, s0, 0) == s0;
      assert commands[0..] == commands;
      for i := 0 to |commands|
        invariant c.Valid() && c.bufferPos == 0 && k >= 0
        invariant Tracks(cfg, s0, k, commands[i..], NoFetch, local, c.View(), g.View())
      {
        assert commands[i..] == [commands[i]] + commands[i + 1..];
        k := RunCommand(cfg, c, g, commands[i], s0, k, commands[i + 1..]);
      }
      assert commands[|commands|..] == [];
      assert Request(SoloRun(cfg, s0, k).client).None?;
    }
  }

  /** The upload branch of parse_command_to_packets. */
  method UploadBranch(us: seq<Upload>) returns (packets: Packets)
    ensures packets == UploadAllPackets(us)
  {
    packets := [];
    for i := 0 to |us|
      invariant packets + UploadAllPackets(us[i..]) == UploadAllPackets(us)
    {
      var file := CreateFileTransferPackets(us[i].name, us[i].data);
      assert us[i..][1..] == us[i + 1..];
      Regroup(packets, file, UploadAllPackets(us[i + 1..]));
      packets := packets + file;
    }
    assert packets + [] == packets;
  }
}
