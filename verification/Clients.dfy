/** The client: the packets of an upload, and the send-one, receive-one command loop as a
    deterministic transducer from replies to requests.
    Source: src/client/main.cpp:41-73, src/client/menu.hpp:139-165, 345-358, 470-601,
    src/common/utils.hpp:67-118. */
module Clients {
  import opened Protocol
  import opened Sequences
  import opened Files

  type Packets = seq<seq<byte>>

  // ---------- request packets ----------

  /** PacketTransferFileStart: sixteen bytes of hash, which nothing reads, and the name. */
  function StartPacket(command: byte, name: string): (p: seq<byte>)
    ensures IsPacket(p) && p[1] == command
  {
    MakePacket(command, Zeros(16) + Pad(Bytes(name), 256))
  }

  function OpenPacket(name: string): (p: seq<byte>)
    ensures IsPacket(p) && p[1] == REQ_FILE_OPEN
  {
    MakePacket(REQ_FILE_OPEN, Pad(Bytes(name), 255) + [0])
  }

  function LoginPacket(user: string, password: string): (p: seq<byte>)
    ensures IsPacket(p) && p[1] == REQ_LOGIN
  {
    MakePacket(REQ_LOGIN, Pad(Bytes(user), 64) + Pad(Bytes(password), 64))
  }

  function CdPacket(path: string): (p: seq<byte>)
    ensures IsPacket(p) && p[1] == REQ_CHANGE_WORKING_DIRECTORY
  {
    MakePacket(REQ_CHANGE_WORKING_DIRECTORY, Pad(Bytes(path), 512))
  }

  function ChunkRequest(index: nat): (p: seq<byte>)
    ensures IsPacket(p) && p[1] == REQ_FILE_DOWNLOAD_CHUNK
  {
    MakePacket(REQ_FILE_DOWNLOAD_CHUNK, Zeros(4) + LittleEndian(index, 8))
  }

  /** Data packets: the last one is the end of the transfer. */
  function DataPackets(chunks: seq<seq<byte>>): (r: Packets)
    requires forall k :: 0 <= k < |chunks| ==> |chunks[k]| <= MAX_CHUNK
    ensures |r| == |chunks|
  {
    if chunks == [] then []
    else if |chunks| == 1 then [MakePacket(REQ_FILE_TRANSFER_END, chunks[0])]
    else [MakePacket(REQ_FILE_TRANSFER_CHUNK, chunks[0])] + DataPackets(chunks[1..])
  }

  /** With no data the START packet itself is relabelled END. */
  function UploadPackets(name: string, data: seq<byte>): (r: Packets)
    ensures |r| == 1 + |Chunks(MAX_CHUNK, data)|
  {
    ChunkShape(MAX_CHUNK, data);
    if data == [] then [StartPacket(REQ_FILE_TRANSFER_END, name)]
    else [StartPacket(REQ_FILE_TRANSFER_START, name)] + DataPackets(Chunks(MAX_CHUNK, data))
  }

  lemma {:induction false} DataPacketAt(chunks: seq<seq<byte>>, k: nat)
    requires forall j :: 0 <= j < |chunks| ==> |chunks[j]| <= MAX_CHUNK
    requires k < |chunks|
    ensures DataPackets(chunks)[k] ==
            MakePacket(if k == |chunks| - 1 then REQ_FILE_TRANSFER_END else REQ_FILE_TRANSFER_CHUNK, chunks[k])
    decreases k
  {
    if k > 0 {
      DataPacketAt(chunks[1..], k - 1);
    }
  }

  /** An upload is one START, then ceil(n / 65531) data packets of which only the last is END, all
      within 16 bits, carrying the file's bytes in order; this holds exactly when there is data. */
  lemma UploadShape(name: string, data: seq<byte>)
    ensures var ps := UploadPackets(name, data);
            && (forall k :: 0 <= k < |ps| ==> IsPacket(ps[k]))
            && |ps| == 1 + ChunkCount(|data|)
            && ps[|ps| - 1][1] == REQ_FILE_TRANSFER_END
            && (ps[0][1] == REQ_FILE_TRANSFER_START <==> data != [])
            && (forall k :: 1 <= k < |ps| - 1 ==> ps[k][1] == REQ_FILE_TRANSFER_CHUNK)
            && (forall k :: 1 <= k < |ps| ==> ps[k][HEADER_SIZE..] == ChunkAt(data, k - 1))
  {
    var ps := UploadPackets(name, data);
    var cs := Chunks(MAX_CHUNK, data);
    ChunkShape(MAX_CHUNK, data);
    ChunkCountIsLength(data);
    if data != [] {
      assert |cs| >= 1;
      forall k | 1 <= k < |ps|
        ensures IsPacket(ps[k]) && ps[k][HEADER_SIZE..] == ChunkAt(data, k - 1)
        ensures ps[k][1] == if k == |ps| - 1 then REQ_FILE_TRANSFER_END else REQ_FILE_TRANSFER_CHUNK
      {
        assert ps[k] == DataPackets(cs)[k - 1];
        DataPacketAt(cs, k - 1);
        ChunksAreSlices(data, k - 1);
      }
    }
  }

  // ---------- building the packets ----------

  /** break_vector_into. */
  method BreakVectorInto(size: nat, data: seq<byte>) returns (result: seq<seq<byte>>)
    requires 0 < size
    ensures result == Chunks(size, data)
  {
    result := [];
    var whole := |data| / size;
    var remaining := |data| % size;
    DivisionParts(|data|, size);
    assert data[0..] == data;
    for i := 0 to whole
      invariant 0 <= i * size <= |data|
      invariant result + Chunks(size, data[i * size..]) == Chunks(size, data)
    {
      StepInside(i, whole, size, |data|);
      ChunkStep(data, size, i);
      result := result + [data[i * size..(i + 1) * size]];
    }
    if remaining > 0 {
      assert Chunks(size, data[whole * size..]) == [data[whole * size..]];
      result := result + [data[whole * size..]];
    } else {
      assert data[whole * size..] == [];
    }
  }

  lemma DivisionParts(n: nat, size: nat)
    requires 0 < size
    ensures (n / size) * size + n % size == n && n % size < size
  {
  }

  lemma StepInside(i: nat, whole: nat, size: nat, n: nat)
    requires i < whole && whole * size <= n
    ensures i * size <= (i + 1) * size == i * size + size <= n
  {
    assert (i + 1) * size <= whole * size by {
      MulMonotone(i + 1, whole, size);
    }
  }

  lemma MulMonotone(a: nat, b: nat, c: nat)
    requires a <= b
    ensures a * c <= b * c
  {
  }

  lemma ChunkStep(data: seq<byte>, size: nat, i: nat)
    requires 0 < size && i * size + size == (i + 1) * size <= |data|
    ensures Chunks(size, data[i * size..]) ==
            [data[i * size..(i + 1) * size]] + Chunks(size, data[(i + 1) * size..])
  {
    var left := data[i * size..];
    assert left[..size] == data[i * size..(i + 1) * size];
    assert left[size..] == data[(i + 1) * size..];
    if |left| == size {
      assert left[..size] == left;
      assert data[(i + 1) * size..] == [];
    }
  }

  /** create_file_transfer_packets: label every data packet CHUNK, then overwrite the last command. */
  method CreateFileTransferPackets(name: string, data: seq<byte>) returns (packets: Packets)
    ensures packets == UploadPackets(name, data)
  {
    var chunks := BreakVectorInto(MAX_CHUNK, data);
    ChunkShape(MAX_CHUNK, data);
    packets := [StartPacket(REQ_FILE_TRANSFER_START, name)];
    for i := 0 to |chunks|
      invariant |packets| == i + 1 && packets[0] == StartPacket(REQ_FILE_TRANSFER_START, name)
      invariant forall k :: 0 <= k < i ==> packets[k + 1] == MakePacket(REQ_FILE_TRANSFER_CHUNK, chunks[k])
    {
      packets := packets + [MakePacket(REQ_FILE_TRANSFER_CHUNK, chunks[i])];
    }
    RelabelLast(name, data, packets);
    var last := packets[|packets| - 1];
    packets := packets[|packets| - 1 := SetCommand(last, REQ_FILE_TRANSFER_END)];
  }

  function SetCommand(p: seq<byte>, command: byte): seq<byte>
    requires |p| >= HEADER_SIZE
  {
    p[1 := command]
  }

  lemma Relabel(from: byte, to: byte, body: seq<byte>)
    requires |body| <= MAX_CHUNK
    ensures SetCommand(MakePacket(from, body), to) == MakePacket(to, body)
  {
  }

  lemma RelabelLast(name: string, data: seq<byte>, packets: Packets)
    requires var chunks := Chunks(MAX_CHUNK, data);
             && |packets| == |chunks| + 1 && packets[0] == StartPacket(REQ_FILE_TRANSFER_START, name)
             && (forall k :: 0 <= k < |chunks| ==> |chunks[k]| <= MAX_CHUNK)
             && (forall k :: 0 <= k < |chunks| ==> packets[k + 1] == MakePacket(REQ_FILE_TRANSFER_CHUNK, chunks[k]))
    ensures var end := |packets| - 1;
            |packets[end]| >= HEADER_SIZE &&
            packets[end := SetCommand(packets[end], REQ_FILE_TRANSFER_END)] == UploadPackets(name, data)
  {
    var chunks := Chunks(MAX_CHUNK, data);
    var end := |packets| - 1;
    if data == [] {
      Relabel(REQ_FILE_TRANSFER_START, REQ_FILE_TRANSFER_END, Zeros(16) + Pad(Bytes(name), 256));
    } else {
      assert packets[end - 1 + 1] == MakePacket(REQ_FILE_TRANSFER_CHUNK, chunks[end - 1]);
      Relabel(REQ_FILE_TRANSFER_CHUNK, REQ_FILE_TRANSFER_END, chunks[end - 1]);
      var r := packets[end := SetCommand(packets[end], REQ_FILE_TRANSFER_END)];
      var u := UploadPackets(name, data);
      forall k | 0 <= k < |u| ensures r[k] == u[k] {
        if k > 0 {
          DataPacketAt(chunks, k - 1);
          assert packets[k - 1 + 1] == MakePacket(REQ_FILE_TRANSFER_CHUNK, chunks[k - 1]);
        }
      }
    }
  }

  // ---------- the command loop ----------

  /** The nested download loop: where the next chunk goes. */
  datatype Fetch = NoFetch | Fetching(file: string, next: nat, chunks: nat, offset: nat)

  /** plan: the commands still to run, each as its unsent packets; local: the client's own files. */
  datatype Client = Client(plan: seq<Packets>, fetch: Fetch, local: map<string, seq<byte>>)

  /** Commands with no packet left are passed over. */
  function Skip(plan: seq<Packets>): (r: seq<Packets>)
    ensures r != [] ==> r[0] != []
  {
    if plan != [] && plan[0] == [] then Skip(plan[1..]) else plan
  }

  function Request(c: Client): Option<seq<byte>> {
    if c.fetch.Fetching? then Some(ChunkRequest(c.fetch.next))
    else
      var plan := Skip(c.plan);
      if plan == [] then None else Some(plan[0][0])
  }

  /** The replies on which handle_response_packet tells the loop to drop the rest of the command. */
  predicate Aborts(command: byte) {
    command in {RESP_REQUIRES_ADMIN, RESP_NOT_LOGGED_IN, RESP_BAD_LOGIN, RESP_IO_ERROR}
  }

  function OpenedChunks(reply: seq<byte>): nat { FromLittleEndian(Field(reply, 8, 8)) }
  function OpenedName(reply: seq<byte>): string { Text(Field(reply, 16, 255)) }

  /** What the client shows of a reply with the user's id, and of one with the directory. */
  function UserOf(reply: seq<byte>): string { Text(Field(reply, 4, 255)) }
  function DirectoryOf(reply: seq<byte>): string { Text(Field(reply, 4, 512)) }

  /** Whether a reply to a login makes the client an administrator's. */
  predicate AdminOf(reply: seq<byte>) { |reply| > 4 && reply[4] != 0 }

  function Written(local: map<string, seq<byte>>, file: string): seq<byte> {
    if file in local then local[file] else []
  }

  /** Taking in the reply to the outstanding request. */
  function Advance(c: Client, reply: seq<byte>): Client
    requires Request(c).Some? && IsPacket(reply)
  {
    match c.fetch
    case Fetching(file, next, chunks, offset) =>
      var body := reply[HEADER_SIZE..];
      var local := c.local[file := WriteAt(Written(c.local, file), offset, body)];
      var fetch := if next + 1 == chunks then NoFetch else Fetching(file, next + 1, chunks, offset + |body|);
      Client(c.plan, fetch, local)
    case NoFetch =>
      var plan := Skip(c.plan);
      if Aborts(reply[1]) then c.(plan := plan[1..])
      else
        var rest := [plan[0][1..]] + plan[1..];
        if reply[1] == RESP_FILE_OPENED then
          var file := OpenedName(reply);
          var fetch := if OpenedChunks(reply) == 0 then NoFetch else Fetching(file, 0, OpenedChunks(reply), 0);
          Client(rest, fetch, c.local[file := Written(c.local, file)])
        else c.(plan := rest)
  }

  /** Between downloads, a refusal and nothing else drops the rest of the command: what goes on is otherwise
      the same command less its first packet. */
  lemma DropsIff(c: Client, reply: seq<byte>)
    requires Request(c).Some? && IsPacket(reply) && c.fetch.NoFetch?
    ensures var plan := Skip(c.plan);
            && plan != [] && plan[0] != []
            && Advance(c, reply).plan ==
               if reply[1] in {RESP_REQUIRES_ADMIN, RESP_NOT_LOGGED_IN, RESP_BAD_LOGIN, RESP_IO_ERROR} then plan[1..]
               else [plan[0][1..]] + plan[1..]
  {
  }

  // ---------- what is still to be asked ----------

  /** Every packet a plan still holds. */
  ghost function Asks(plan: seq<Packets>): set<seq<byte>> {
    set ps, p | ps in plan && p in ps :: p
  }

  lemma {:induction false} SkipAsks(plan: seq<Packets>)
    ensures Asks(Skip(plan)) <= Asks(plan)
    decreases |plan|
  {
    if plan != [] && plan[0] == [] {
      SkipAsks(plan[1..]);
    }
  }

  /** The next request comes out of the plan, and no reply puts anything into it. */
  lemma AdvanceAsks(c: Client, reply: seq<byte>)
    requires Request(c).Some? && IsPacket(reply)
    ensures Asks(Advance(c, reply).plan) <= Asks(c.plan)
    ensures c.fetch.NoFetch? ==> Request(c).value in Asks(c.plan)
  {
    if c.fetch.NoFetch? {
      var plan := Skip(c.plan);
      SkipAsks(c.plan);
      assert plan[0] in plan && plan[0][0] in plan[0];
      NextAsks(plan);
    }
  }

  lemma NextAsks(plan: seq<Packets>)
    requires plan != [] && plan[0] != []
    ensures Asks(plan[1..]) <= Asks(plan) && Asks([plan[0][1..]] + plan[1..]) <= Asks(plan)
  {
    var rest := [plan[0][1..]] + plan[1..];
    forall ps, p | ps in rest && p in ps ensures p in Asks(plan) {
      if ps == plan[0][1..] {
        assert p in plan[0];
      }
    }
  }

  // ---------- commands come to an end ----------

  /** One more than any chunk count a reply can carry. */
  const MANY: nat := 0x1_0000_0000_0000_0000

  function PlanCost(plan: seq<Packets>): nat {
    if plan == [] then 0 else |plan[0]| * (MANY + 1) + PlanCost(plan[1..])
  }

  function FetchLeft(fetch: Fetch): nat {
    match fetch
    case NoFetch => 0
    case Fetching(_, next, chunks, _) => if next < chunks then chunks - next else 0
  }

  /** At least as many as the requests the client can still make, whatever it is answered. */
  function Budget(c: Client): nat {
    PlanCost(c.plan) + FetchLeft(c.fetch)
  }

  lemma {:induction false} SkipCost(plan: seq<Packets>)
    ensures PlanCost(Skip(plan)) <= PlanCost(plan)
    decreases |plan|
  {
    if plan != [] && plan[0] == [] {
      SkipCost(plan[1..]);
    }
  }

  lemma OpenedIsBounded(reply: seq<byte>)
    ensures OpenedChunks(reply) < MANY
  {
    FromLittleEndianBound(Field(reply, 8, 8), 8);
    assert Power256(8) == 256 * 256 * 256 * 256 * Power256(4);
  }

  /** Every exchange uses up part of the budget. */
  lemma AdvanceSpends(c: Client, reply: seq<byte>)
    requires Request(c).Some? && IsPacket(reply) && (c.fetch.Fetching? ==> c.fetch.next < c.fetch.chunks)
    ensures Budget(Advance(c, reply)) < Budget(c)
  {
    if c.fetch.NoFetch? {
      var plan := Skip(c.plan);
      SkipCost(c.plan);
      OpenedIsBounded(reply);
      var rest := [plan[0][1..]] + plan[1..];
      assert rest[1..] == plan[1..];
    }
  }
}
