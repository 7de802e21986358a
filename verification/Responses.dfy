/** What each handler puts on the wire, for every request type and every outcome of the system calls it
    makes, and whether the client's reads stay on packet boundaries.
    Source: src/server/client_controller.cpp:25-490, src/server/packets_utils.hpp, src/common/utils.hpp:13-46. */
module Responses {
  import opened Protocol
  import opened Sequences
  import opened Handlers
  import opened Files

  const SERVER_STATUS_SIZE: nat := 40
  const CONNECTIONS_INFO_SIZE: nat := 32
  const CURRENT_DIRECTORY_SIZE: nat := 516
  const CURRENT_USER_SIZE: nat := 260
  const FILE_INFO_SIZE: nat := 272
  const FILE_LIST_SIZE: nat := 32774
  const SETTINGS_SIZE: nat := 6
  const LOGGED_IN_SIZE: nat := 6
  const LAST_REQUEST: byte := 23

  /** How the calls a handler makes come out. busy: another administrator is connected. read is -1 when
      reading a chunk fails, as read(2) returns it. */
  datatype Io = Io(ok: bool, busy: bool, seekOk: bool, read: int, payload: seq<byte>)

  /** One request as the handler meets it. */
  datatype Exchange = Exchange(command: byte, loggedIn: bool, admin: bool, io: Io)

  /** A request type that has a handler, and what read(2) can return. */
  predicate Possible(e: Exchange) {
    e.command <= LAST_REQUEST && -1 <= e.io.read <= MAX_CHUNK
  }

  function Sized(command: byte, size: nat, payload: seq<byte>): (p: seq<byte>)
    requires HEADER_SIZE <= size <= BUFFER_SIZE
    ensures IsPacket(p)
  {
    MakePacket(command, Pad(payload, size - HEADER_SIZE))
  }

  predicate AdminOnly(command: byte) {
    command in {REQ_SERVER_STATUS, REQ_CONNECTIONS_INFO, REQ_GET_SETTINGS, REQ_SET_SETTING, REQ_CLEAN}
  }

  /** The header's total_size after a read of n bytes, n as size_t: a failed read wraps to 3. */
  function ChunkTotal(n: int): nat {
    (n + HEADER_SIZE) % 65536
  }

  /** All the bytes one run of process_packet sends. */
  function Reply(e: Exchange): seq<byte>
    requires Possible(e)
  {
    var c := e.command;
    if c !in {REQ_LOGIN, REQ_PING, REQ_LOGOUT} && !e.loggedIn then Sample(RESP_NOT_LOGGED_IN)
    else if AdminOnly(c) && !e.admin then Sample(RESP_REQUIRES_ADMIN)
    else if c == REQ_SERVER_STATUS then Sized(RESP_SERVER_STATUS_RESPONSE, SERVER_STATUS_SIZE, e.io.payload)
    else if c == REQ_CONNECTIONS_INFO then Sized(RESP_CONNECTIONS_INFO, CONNECTIONS_INFO_SIZE, e.io.payload)
    else if c == REQ_GET_SETTINGS then
      // The header says GetSettingsPacket, the call sends sizeof(PacketFileList).
      Header(RESP_SETTINGS, SETTINGS_SIZE) + Pad(e.io.payload, FILE_LIST_SIZE - HEADER_SIZE)
    else if c == REQ_CRC_VERIFY then []
    else if c == REQ_CURRENT_DIRECTORY then Sized(RESP_CURRENT_DIRECTORY, CURRENT_DIRECTORY_SIZE, e.io.payload)
    else if c == REQ_GET_CURRENT_USER then Sized(RESP_CURRENT_USER, CURRENT_USER_SIZE, e.io.payload)
    else if c == REQ_FILE_LIST then Sized(RESP_FILE_LIST, FILE_LIST_SIZE, e.io.payload)
    else if c == REQ_FILE_OPEN then
      (if e.io.ok then Sized(RESP_FILE_OPENED, FILE_INFO_SIZE, e.io.payload) else Sample(RESP_IO_ERROR))
    else if c == REQ_FILE_DOWNLOAD_CHUNK then
      (if !e.io.seekOk then Sample(RESP_IO_ERROR) + Sample(RESP_IO_ERROR)
       else if e.io.read == -1 then Header(RESP_FILE_CHUNK, ChunkTotal(-1))[..ChunkTotal(-1)]
       else Sized(RESP_FILE_CHUNK, ChunkTotal(e.io.read), e.io.payload))
    else if c == REQ_LOGIN then
      (if e.io.ok then Sized(RESP_LOGGED_IN, LOGGED_IN_SIZE, e.io.payload)
       else if e.io.busy then Sample(RESP_ADMIN_ALREADY_CONNECTED)
       else Sample(RESP_BAD_LOGIN))
    else if c == REQ_PING then Sample(RESP_PONG)
    else if c == REQ_FILE_TRANSFER_START then Sample(if e.io.ok then RESP_CONTINUE else RESP_IO_ERROR)
    else if c == REQ_FILE_TRANSFER_CHUNK then Sample(RESP_CONTINUE)
    else if c == REQ_FILE_TRANSFER_END then Sample(RESP_FILE_TRANSFER_OK)
    else if c == REQ_COMPRESS then Sample(if e.io.ok then RESP_COMPRESS else RESP_IO_ERROR)
    else Sample(if e.io.ok then RESP_OK else RESP_IO_ERROR)
  }

  /** What one recv_from_server takes off the stream: the header, then up to total_size. */
  predicate OnBoundary(p: seq<byte>) {
    |p| >= HEADER_SIZE && |p| == ReadLength(p)
  }

  /** The handlers that do not answer with one packet: one that never answers, one that sends more than
      it declares, and a chunk request whose seek or read fails. */
  predicate Misanswers(e: Exchange) {
    e.loggedIn &&
    (e.command == REQ_CRC_VERIFY || (e.command == REQ_GET_SETTINGS && e.admin) ||
     (e.command == REQ_FILE_DOWNLOAD_CHUNK && (!e.io.seekOk || e.io.read == -1)))
  }

  lemma OnePacketIff(e: Exchange)
    requires Possible(e)
    ensures OnBoundary(Reply(e)) <==> !Misanswers(e)
    ensures !Misanswers(e) ==> IsPacket(Reply(e))
  {
    if Misanswers(e) {
      if e.command == REQ_GET_SETTINGS {
        assert SizeField(Reply(e)) == SETTINGS_SIZE;
      } else if e.command == REQ_FILE_DOWNLOAD_CHUNK && !e.io.seekOk {
        var s := Sample(RESP_IO_ERROR);
        assert SizeField(s + s) == SizeField(s);
      }
    }
  }

  /** Who is refused what: a session that is not logged in everything but login, ping and logout, and one that
      is no administrator's the status, the connection counts, both settings requests and the clean-up. */
  lemma RefusedIff(e: Exchange)
    requires Possible(e)
    ensures Reply(e) == Sample(RESP_NOT_LOGGED_IN) <==>
            !e.loggedIn && e.command != REQ_LOGIN && e.command != REQ_PING && e.command != REQ_LOGOUT
    ensures Reply(e) == Sample(RESP_REQUIRES_ADMIN) <==>
            e.loggedIn && !e.admin &&
            e.command in {REQ_SERVER_STATUS, REQ_CONNECTIONS_INFO, REQ_GET_SETTINGS, REQ_SET_SETTING, REQ_CLEAN}
  {
    hide Pad;
    if e.command == REQ_FILE_DOWNLOAD_CHUNK && !e.io.seekOk {
      assert |Sample(RESP_IO_ERROR) + Sample(RESP_IO_ERROR)| == 2 * HEADER_SIZE;
    }
  }

  /** The client drops a command on exactly the replies that refuse it or report that a call failed. A second
      administrator turned away is not among them. */
  lemma DropsOnFailure(e: Exchange)
    requires Possible(e) && !Misanswers(e)
    ensures IsPacket(Reply(e))
    ensures Reply(e)[1] in {RESP_REQUIRES_ADMIN, RESP_NOT_LOGGED_IN, RESP_BAD_LOGIN, RESP_IO_ERROR} <==>
            || (!e.loggedIn && e.command != REQ_LOGIN && e.command != REQ_PING && e.command != REQ_LOGOUT)
            || (e.loggedIn && !e.admin &&
                e.command in {REQ_SERVER_STATUS, REQ_CONNECTIONS_INFO, REQ_GET_SETTINGS, REQ_SET_SETTING, REQ_CLEAN})
            || (e.command == REQ_LOGIN && !e.io.ok && !e.io.busy)
            || (!e.io.ok && e.command !in
                  {REQ_LOGIN, REQ_SERVER_STATUS, REQ_CONNECTIONS_INFO, REQ_CURRENT_DIRECTORY, REQ_GET_CURRENT_USER,
                   REQ_FILE_LIST, REQ_FILE_DOWNLOAD_CHUNK, REQ_PING, REQ_FILE_TRANSFER_CHUNK, REQ_FILE_TRANSFER_END})
  {
    hide Pad;
    OnePacketIff(e);
  }

  /** Only an open request is answered with an opened file. */
  lemma OpenedOnlyByOpen(e: Exchange)
    requires Possible(e) && !Misanswers(e) && e.command != REQ_FILE_OPEN
    ensures IsPacket(Reply(e)) && Reply(e)[1] != RESP_FILE_OPENED
  {
    OnePacketIff(e);
  }

  lemma SizedIs(command: byte, body: seq<byte>)
    requires |body| <= MAX_CHUNK
    ensures Sized(command, HEADER_SIZE + |body|, body) == MakePacket(command, body)
    ensures ChunkTotal(|body|) == HEADER_SIZE + |body|
  {
    assert Pad(body, |body|) == body;
  }

  /** The outcome of system calls that a modelled handler's reply bears witness to. */
  function Witness(command: byte, reply: seq<byte>, sess: Session): Io {
    var body := if |reply| >= HEADER_SIZE then reply[HEADER_SIZE..] else [];
    var ok := |reply| >= HEADER_SIZE && reply[1] in {RESP_FILE_OPENED, RESP_LOGGED_IN, RESP_OK, RESP_CONTINUE};
    var busy := |reply| >= HEADER_SIZE && reply[1] == RESP_ADMIN_ALREADY_CONNECTED;
    var read := if command == REQ_FILE_DOWNLOAD_CHUNK && |body| <= MAX_CHUNK then |body| else 0;
    Io(ok, busy, sess.download.File?, read, body)
  }

  ghost predicate RepliesSo(cfg: Config, command: byte, data: seq<byte>, sess: Session, shared: Shared)
    requires Modelled(command)
  {
    var reply := Handle(cfg, command, data, sess, shared).reply;
    var e := Exchange(command, sess.id != "", sess.admin, Witness(command, reply, sess));
    reply == Reply(e)
  }

  lemma ChunkReadRepliesSo(cfg: Config, data: seq<byte>, sess: Session, shared: Shared)
    requires sess.id != "" && sess.download.File?
    ensures RepliesSo(cfg, REQ_FILE_DOWNLOAD_CHUNK, data, sess, shared)
  {
    var bytes := ChunkAt(Content(shared.files, sess.download.path), ChunkIndex(data));
    SizedIs(RESP_FILE_CHUNK, bytes);
    assert Handle(cfg, REQ_FILE_DOWNLOAD_CHUNK, data, sess, shared).reply == MakePacket(RESP_FILE_CHUNK, bytes);
  }

  lemma ChunkRepliesSo(cfg: Config, data: seq<byte>, sess: Session, shared: Shared)
    ensures RepliesSo(cfg, REQ_FILE_DOWNLOAD_CHUNK, data, sess, shared)
  {
    if sess.id != "" && sess.download.File? {
      ChunkReadRepliesSo(cfg, data, sess, shared);
    }
  }

  lemma OpenRepliesSo(cfg: Config, data: seq<byte>, sess: Session, shared: Shared)
    ensures RepliesSo(cfg, REQ_FILE_OPEN, data, sess, shared)
  {
    var reply := Handle(cfg, REQ_FILE_OPEN, data, sess, shared).reply;
    if reply[1] == RESP_FILE_OPENED {
      var path := OpenPath(sess.dir, OpenName(data));
      var count := LittleEndian(ChunkCount(|shared.files[path]|), 8);
      SizedIs(RESP_FILE_OPENED, Zeros(4) + count + Pad(Bytes(OpenName(data)), 256));
    }
  }

  lemma LoginRepliesSo(cfg: Config, data: seq<byte>, sess: Session, shared: Shared)
    ensures RepliesSo(cfg, REQ_LOGIN, data, sess, shared)
  {
    SizedIs(RESP_LOGGED_IN, [0, 0]);
    SizedIs(RESP_LOGGED_IN, [1, 0]);
  }

  lemma DirectoryRepliesSo(cfg: Config, data: seq<byte>, sess: Session, shared: Shared)
    ensures RepliesSo(cfg, REQ_CURRENT_DIRECTORY, data, sess, shared)
  {
    SizedIs(RESP_CURRENT_DIRECTORY, Pad(Bytes(sess.dir), 512));
  }

  lemma UserRepliesSo(cfg: Config, data: seq<byte>, sess: Session, shared: Shared)
    ensures RepliesSo(cfg, REQ_GET_CURRENT_USER, data, sess, shared)
  {
    SizedIs(RESP_CURRENT_USER, Pad(Bytes(sess.id), 255) + [0]);
  }

  lemma SampleRepliesSo(cfg: Config, command: byte, data: seq<byte>, sess: Session, shared: Shared)
    requires command in {REQ_FILE_TRANSFER_START, REQ_FILE_TRANSFER_CHUNK, REQ_FILE_TRANSFER_END, REQ_PING,
                         REQ_LOGOUT, REQ_CHANGE_WORKING_DIRECTORY}
    ensures RepliesSo(cfg, command, data, sess, shared)
  {
    hide WriteAt, StartPath, StartName, Destination, Content;
  }

  /** The replies of the handlers modelled in full are among these. */
  lemma HandlersReplySo(cfg: Config, command: byte, data: seq<byte>, sess: Session, shared: Shared)
    requires Modelled(command)
    ensures RepliesSo(cfg, command, data, sess, shared)
  {
    if command == REQ_FILE_DOWNLOAD_CHUNK {
      ChunkRepliesSo(cfg, data, sess, shared);
    } else if command == REQ_FILE_OPEN {
      OpenRepliesSo(cfg, data, sess, shared);
    } else if command == REQ_LOGIN {
      LoginRepliesSo(cfg, data, sess, shared);
    } else if command == REQ_CURRENT_DIRECTORY {
      DirectoryRepliesSo(cfg, data, sess, shared);
    } else if command == REQ_GET_CURRENT_USER {
      UserRepliesSo(cfg, data, sess, shared);
    } else {
      SampleRepliesSo(cfg, command, data, sess, shared);
    }
  }

  // ---------- a whole conversation ----------

  datatype Reading = Reading(packets: seq<seq<byte>>, rest: seq<byte>)

  /** Repeated recv_from_server over everything the server sends. */
  function ReadAll(s: seq<byte>): Reading
    decreases |s|
  {
    if |s| < HEADER_SIZE then Reading([], s)
    else
      var n := ReadLength(s);
      if |s| < n then Reading([], s)
      else
        var more := ReadAll(s[n..]);
        Reading([s[..n]] + more.packets, more.rest)
  }

  lemma {:induction false} ReadAllOfPackets(ps: seq<seq<byte>>)
    requires forall k :: 0 <= k < |ps| ==> OnBoundary(ps[k])
    ensures ReadAll(Concat(ps)) == Reading(ps, [])
  {
    if ps != [] {
      ReadAllOfPackets(ps[1..]);
      var s, tail := Concat(ps), Concat(ps[1..]);
      assert s[..|ps[0]|] == ps[0] && s[|ps[0]|..] == tail;
      assert SizeField(s) == SizeField(ps[0]);
      assert [ps[0]] + ps[1..] == ps;
    }
  }

  lemma {:induction false} ReadAllOnBoundary(s: seq<byte>, k: nat)
    requires k < |ReadAll(s).packets|
    ensures OnBoundary(ReadAll(s).packets[k])
    decreases |s|
  {
    var n := ReadLength(s);
    if k == 0 {
      assert SizeField(s[..n]) == SizeField(s);
    } else {
      ReadAllOnBoundary(s[n..], k - 1);
    }
  }

  function Replies(es: seq<Exchange>): (r: seq<seq<byte>>)
    requires forall k :: 0 <= k < |es| ==> Possible(es[k])
    ensures |r| == |es|
  {
    seq(|es|, k requires 0 <= k < |es| => Reply(es[k]))
  }

  /** Over any conversation, the client's successive reads are the successive replies, with nothing left
      over, exactly when no request in it is one of those that are misanswered. */
  lemma ConversationStaysInStep(es: seq<Exchange>)
    requires forall k :: 0 <= k < |es| ==> Possible(es[k])
    ensures ReadAll(Concat(Replies(es))) == Reading(Replies(es), []) <==>
            forall k :: 0 <= k < |es| ==> !Misanswers(es[k])
  {
    var rs := Replies(es);
    if forall k :: 0 <= k < |es| ==> !Misanswers(es[k]) {
      forall k | 0 <= k < |rs| ensures OnBoundary(rs[k]) {
        OnePacketIff(es[k]);
      }
      ReadAllOfPackets(rs);
    } else {
      var k :| 0 <= k < |es| && Misanswers(es[k]);
      OnePacketIff(es[k]);
      if ReadAll(Concat(rs)) == Reading(rs, []) {
        ReadAllOnBoundary(Concat(rs), k);
        assert false;
      }
    }
  }
}
