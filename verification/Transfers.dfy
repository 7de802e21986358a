/** What a client's upload and download commands leave behind when the client runs alone.
    Source: src/common/utils.hpp:67-118, src/server/client_controller.cpp:135-186, 271-307,
    src/server/packets_utils.hpp:97-122, src/client/menu.hpp:139-165, 345-358. */
module Transfers {
  import opened Protocol
  import opened Sequences
  import opened Files
  import opened Handlers
  import opened Clients
  import opened SoloRuns
  import Paths

  /** The client sends p next, and an ordinary reply moves it on to the packets after p. */
  lemma PlainReply(c: Client, p: seq<byte>, rest: Packets, more: seq<Packets>, reply: seq<byte>)
    requires c.plan == [[p] + rest] + more && c.fetch.NoFetch? && IsPacket(reply)
    ensures Request(c) == Some(p)
    ensures !Aborts(reply[1]) && reply[1] != RESP_FILE_OPENED ==> Advance(c, reply) == c.(plan := [rest] + more)
    ensures Aborts(reply[1]) ==> Advance(c, reply) == c.(plan := more)
  {
    assert c.plan[0][0] == p && c.plan[0][1..] == rest && c.plan[1..] == more;
  }

  lemma StepThen(cfg: Config, s: Solo, t: Solo, k: nat, u: Solo)
    requires SoloStep(cfg, s) == t && SoloRun(cfg, t, k) == u
    ensures SoloRun(cfg, s, k + 1) == u
  {
    hide SoloStep;
    OneStep(cfg, s);
    SoloRunAdd(cfg, s, 1, k);
  }

  // ---------- upload ----------

  /** The session's open file holds the bytes done so far over its old content, and the next write goes on
      from there. */
  ghost predicate Receiving(s: Solo, done: seq<byte>, was: seq<byte>) {
    && s.sess.fd.File? && s.sess.fd.offset == |done| && s.sess.fd.path in s.shared.files
    && s.shared.files[s.sess.fd.path] == Overlay(was, done)
  }

  ghost function AfterData(s: Solo, plan: seq<Packets>, done: seq<byte>, was: seq<byte>): Solo
    requires s.sess.fd.File?
  {
    var path := s.sess.fd.path;
    Solo(s.client.(plan := plan), s.sess.(fd := File(path, |done|)),
         s.shared.(files := s.shared.files[path := Overlay(was, done)]))
  }

  lemma AfterDataTwice(s: Solo, plan1: seq<Packets>, done1: seq<byte>, plan2: seq<Packets>, done2: seq<byte>,
                       was: seq<byte>)
    requires s.sess.fd.File?
    ensures AfterData(AfterData(s, plan1, done1, was), plan2, done2, was) == AfterData(s, plan2, done2, was)
  {
    var path := s.sess.fd.path;
    var x, y := Overlay(was, done1), Overlay(was, done2);
    assert s.shared.files[path := x][path := y] == s.shared.files[path := y];
  }

  /** One data packet: the file grows over its old content by exactly the packet's bytes. */
  lemma DataStep(cfg: Config, s: Solo, command: byte, chunk: seq<byte>, rest: Packets, more: seq<Packets>,
                 done: seq<byte>, was: seq<byte>)
    requires command == REQ_FILE_TRANSFER_CHUNK || command == REQ_FILE_TRANSFER_END
    requires |chunk| <= MAX_CHUNK && s.sess.id != "" && s.client.fetch.NoFetch?
    requires s.client.plan == [[MakePacket(command, chunk)] + rest] + more
    requires Receiving(s, done, was)
    ensures SoloStep(cfg, s) == AfterData(s, [rest] + more, done + chunk, was)
  {
    var p := MakePacket(command, chunk);
    var out := Handle(cfg, command, p, s.sess, s.shared);
    OverlayExtends(was, done, chunk);
    PlainReply(s.client, p, rest, more, out.reply);
  }

  lemma AfterDataReceives(s: Solo, plan: seq<Packets>, done: seq<byte>, was: seq<byte>)
    requires s.sess.fd.File?
    ensures Receiving(AfterData(s, plan, done, was), done, was)
  {
  }

  function DataCommand(chunks: seq<seq<byte>>): byte {
    if |chunks| == 1 then REQ_FILE_TRANSFER_END else REQ_FILE_TRANSFER_CHUNK
  }

  lemma FirstData(chunks: seq<seq<byte>>, tail: Packets)
    requires chunks != [] && forall k :: 0 <= k < |chunks| ==> |chunks[k]| <= MAX_CHUNK
    ensures DataPackets(chunks) + tail ==
            [MakePacket(DataCommand(chunks), chunks[0])] + (DataPackets(chunks[1..]) + tail)
  {
    assert DataPackets(chunks) == [MakePacket(DataCommand(chunks), chunks[0])] + DataPackets(chunks[1..]);
    Regroup([MakePacket(DataCommand(chunks), chunks[0])], DataPackets(chunks[1..]), tail);
  }

  lemma ConcatFirst(done: seq<byte>, chunks: seq<seq<byte>>)
    requires chunks != []
    ensures done + Concat(chunks) == done + chunks[0] + Concat(chunks[1..])
  {
    Regroup(done, chunks[0], Concat(chunks[1..]));
  }

  lemma {:induction false} DataRun(cfg: Config, s: Solo, chunks: seq<seq<byte>>, tail: Packets, more: seq<Packets>,
                                   done: seq<byte>, was: seq<byte>)
    requires forall k :: 0 <= k < |chunks| ==> |chunks[k]| <= MAX_CHUNK
    requires s.sess.id != "" && s.client.fetch.NoFetch?
    requires s.client.plan == [DataPackets(chunks) + tail] + more
    requires Receiving(s, done, was)
    ensures SoloRun(cfg, s, |chunks|) == AfterData(s, [tail] + more, done + Concat(chunks), was)
    decreases |chunks|
  {
    hide SoloStep, DataPackets, Overlay;
    if chunks == [] {
      assert DataPackets(chunks) + tail == tail;
      assert done + Concat(chunks) == done;
      assert AfterData(s, [tail] + more, done, was) == s;
    } else {
      var plan, now := [DataPackets(chunks[1..]) + tail] + more, done + chunks[0];
      FirstData(chunks, tail);
      DataStep(cfg, s, DataCommand(chunks), chunks[0], DataPackets(chunks[1..]) + tail, more, done, was);
      AfterDataReceives(s, plan, now, was);
      var t := AfterData(s, plan, now, was);
      DataRun(cfg, t, chunks[1..], tail, more, now, was);
      ConcatFirst(done, chunks);
      AfterDataTwice(s, plan, now, [tail] + more, done + Concat(chunks), was);
      StepThen(cfg, s, t, |chunks| - 1, AfterData(s, [tail] + more, done + Concat(chunks), was));
    }
  }

  /** With no file behind the descriptor the data goes nowhere, and the client is not told. */
  lemma {:induction false} DataNowhere(cfg: Config, s: Solo, chunks: seq<seq<byte>>, tail: Packets, more: seq<Packets>)
    requires forall k :: 0 <= k < |chunks| ==> |chunks[k]| <= MAX_CHUNK
    requires s.sess.id != "" && s.client.fetch.NoFetch? && s.sess.fd == NoFile
    requires s.client.plan == [DataPackets(chunks) + tail] + more
    ensures SoloRun(cfg, s, |chunks|) == s.(client := s.client.(plan := [tail] + more))
    decreases |chunks|
  {
    if chunks == [] {
      assert DataPackets(chunks) + tail == tail;
    } else {
      var rest := DataPackets(chunks[1..]) + tail;
      var p := MakePacket(DataCommand(chunks), chunks[0]);
      FirstData(chunks, tail);
      PlainReply(s.client, p, rest, more, Handle(cfg, p[1], p, s.sess, s.shared).reply);
      var t := SoloStep(cfg, s);
      DataNowhere(cfg, t, chunks[1..], tail, more);
      StepThen(cfg, s, t, |chunks| - 1, s.(client := s.client.(plan := [tail] + more)));
    }
  }

  datatype Upload = Upload(name: string, data: seq<byte>)

  predicate Sendable(u: Upload) {
    FitsField(u.name, 256) && u.data != []
  }

  /** The promise of one accepted upload: the new bytes over the old file. */
  function Uploaded(cfg: Config, u: Upload, sess: Session, shared: Shared): (Session, Shared) {
    var path := StartPath(sess.dir, u.name);
    if path in cfg.unopenable then (sess.(fd := NoFile), shared)
    else
      (sess.(fd := File(path, |u.data|)),
       shared.(files := shared.files[path := Overlay(Content(shared.files, path), u.data)]))
  }

  lemma StartNameIs(command: byte, name: string)
    requires FitsField(name, 256)
    ensures StartName(StartPacket(command, name)) == name
  {
    var p := StartPacket(command, name);
    assert p[20..276] == Pad(Bytes(name), 256);
    TextOfPad(name, 256);
  }

  lemma UploadStart(cfg: Config, s: Solo, name: string, rest: Packets, more: seq<Packets>)
    requires FitsField(name, 256) && s.sess.id != "" && s.client.fetch.NoFetch?
    requires s.client.plan == [[StartPacket(REQ_FILE_TRANSFER_START, name)] + rest] + more
    ensures var path := StartPath(s.sess.dir, name);
            SoloStep(cfg, s) ==
            if !Paths.IsValidFilename(name) then s.(client := s.client.(plan := more))
            else if path in cfg.unopenable then
              Solo(s.client.(plan := [rest] + more), s.sess.(fd := NoFile), s.shared)
            else
              Solo(s.client.(plan := [rest] + more), s.sess.(fd := File(path, 0)),
                   s.shared.(files := s.shared.files[path := Content(s.shared.files, path)]))
  {
    var p := StartPacket(REQ_FILE_TRANSFER_START, name);
    StartNameIs(REQ_FILE_TRANSFER_START, name);
    PlainReply(s.client, p, rest, more, Handle(cfg, p[1], p, s.sess, s.shared).reply);
  }

  /** One accepted file: START, the data packets, END. */
  lemma UploadOne(cfg: Config, s: Solo, u: Upload, tail: Packets, more: seq<Packets>)
    requires Sendable(u) && Paths.IsValidFilename(u.name) && s.sess.id != "" && s.client.fetch.NoFetch?
    requires s.client.plan == [UploadPackets(u.name, u.data) + tail] + more
    ensures var (sess, shared) := Uploaded(cfg, u, s.sess, s.shared);
            SoloRun(cfg, s, |UploadPackets(u.name, u.data)|) ==
            Solo(s.client.(plan := [tail] + more), sess, shared)
  {
    hide SoloStep, DataPackets;
    var chunks := Chunks(MAX_CHUNK, u.data);
    ChunkShape(MAX_CHUNK, u.data);
    var rest := DataPackets(chunks) + tail;
    Regroup([StartPacket(REQ_FILE_TRANSFER_START, u.name)], DataPackets(chunks), tail);
    UploadStart(cfg, s, u.name, rest, more);
    var t := SoloStep(cfg, s);
    var path := StartPath(s.sess.dir, u.name);
    if path in cfg.unopenable {
      DataNowhere(cfg, t, chunks, tail, more);
    } else {
      UploadData(cfg, s, t, u, tail, more);
    }
    StepThen(cfg, s, t, |chunks|, SoloRun(cfg, t, |chunks|));
  }

  /** The uploaded file is exactly the data when and only when the old one was no longer: files are not
      truncated. */
  lemma UploadExact(cfg: Config, s: Solo, u: Upload, tail: Packets, more: seq<Packets>)
    requires Sendable(u) && Paths.IsValidFilename(u.name) && s.sess.id != "" && s.client.fetch.NoFetch?
    requires s.client.plan == [UploadPackets(u.name, u.data) + tail] + more
    requires StartPath(s.sess.dir, u.name) !in cfg.unopenable
    ensures var path := StartPath(s.sess.dir, u.name);
            var files := SoloRun(cfg, s, |UploadPackets(u.name, u.data)|).shared.files;
            path in files && (files[path] == u.data <==> |Content(s.shared.files, path)| <= |u.data|)
  {
    hide SoloStep, StartPath, UploadPackets;
    UploadOne(cfg, s, u, tail, more);
    OverlayIsData(Content(s.shared.files, StartPath(s.sess.dir, u.name)), u.data);
  }

  lemma UploadData(cfg: Config, s: Solo, t: Solo, u: Upload, tail: Packets, more: seq<Packets>)
    requires Sendable(u) && s.sess.id != "" && s.client.fetch.NoFetch?
    requires StartPath(s.sess.dir, u.name) !in cfg.unopenable
    requires forall k :: 0 <= k < |Chunks(MAX_CHUNK, u.data)| ==> |Chunks(MAX_CHUNK, u.data)[k]| <= MAX_CHUNK
    requires var path := StartPath(s.sess.dir, u.name);
             t == Solo(s.client.(plan := [DataPackets(Chunks(MAX_CHUNK, u.data)) + tail] + more),
                       s.sess.(fd := File(path, 0)),
                       s.shared.(files := s.shared.files[path := Content(s.shared.files, path)]))
    ensures var (sess, shared) := Uploaded(cfg, u, s.sess, s.shared);
            SoloRun(cfg, t, |Chunks(MAX_CHUNK, u.data)|) == Solo(s.client.(plan := [tail] + more), sess, shared)
  {
    var path := StartPath(s.sess.dir, u.name);
    var was := Content(s.shared.files, path);
    OpenedReceives(t, path, was);
    AllData(u.data);
    DataRun(cfg, t, Chunks(MAX_CHUNK, u.data), tail, more, [], was);
    UpdateTwice(s.shared.files, path, was, Overlay(was, u.data));
  }

  lemma OpenedReceives(t: Solo, path: string, was: seq<byte>)
    requires t.sess.fd == File(path, 0) && path in t.shared.files && t.shared.files[path] == was
    ensures Receiving(t, [], was)
  {
    assert Overlay(was, []) == was;
  }

  lemma AllData(data: seq<byte>)
    ensures [] + Concat(Chunks(MAX_CHUNK, data)) == data
  {
    ChunksCover(MAX_CHUNK, data);
  }

  function UploadAllPackets(us: seq<Upload>): Packets {
    if us == [] then [] else UploadPackets(us[0].name, us[0].data) + UploadAllPackets(us[1..])
  }

  /** The promise of one upload command over several files: each file in turn, up to the first name
      the server rejects. */
  function UploadedAll(cfg: Config, us: seq<Upload>, sess: Session, shared: Shared): (Session, Shared) {
    if us == [] || !Paths.IsValidFilename(us[0].name) then (sess, shared)
    else
      var (sess1, shared1) := Uploaded(cfg, us[0], sess, shared);
      UploadedAll(cfg, us[1..], sess1, shared1)
  }

  /** t is where an upload command over us leads from s: the promise kept, nothing else changed on the
      server, and the command used up or dropped. */
  ghost predicate UploadedTo(cfg: Config, s: Solo, us: seq<Upload>, more: seq<Packets>, t: Solo) {
    var (sess, shared) := UploadedAll(cfg, us, s.sess, s.shared);
    t.sess == sess && t.shared == shared &&
    (t.client == s.client.(plan := [[]] + more) || t.client == s.client.(plan := more))
  }

  lemma UploadedToCons(cfg: Config, s: Solo, us: seq<Upload>, more: seq<Packets>, t: Solo, u: Solo)
    requires us != [] && Paths.IsValidFilename(us[0].name)
    requires var (sess, shared) := Uploaded(cfg, us[0], s.sess, s.shared);
             t == Solo(s.client.(plan := t.client.plan), sess, shared)
    requires UploadedTo(cfg, t, us[1..], more, u)
    ensures UploadedTo(cfg, s, us, more, u)
  {
  }

  lemma FirstUpload(cfg: Config, s: Solo, us: seq<Upload>, more: seq<Packets>) returns (a: nat, t: Solo)
    requires us != [] && Sendable(us[0]) && Paths.IsValidFilename(us[0].name)
    requires s.sess.id != "" && s.client.fetch.NoFetch? && s.client.plan == [UploadAllPackets(us)] + more
    ensures a > 0 && SoloRun(cfg, s, a) == t
    ensures t.sess.id != "" && t.sess.dir == s.sess.dir
    ensures t.client == s.client.(plan := [UploadAllPackets(us[1..])] + more)
    ensures var (sess, shared) := Uploaded(cfg, us[0], s.sess, s.shared);
            t.sess == sess && t.shared == shared
  {
    hide SoloStep, UploadPackets;
    a := |UploadPackets(us[0].name, us[0].data)|;
    UploadOne(cfg, s, us[0], UploadAllPackets(us[1..]), more);
    t := SoloRun(cfg, s, a);
  }

  /** An upload command does what it promises and nothing else; a rejected START sends nothing further. */
  lemma {:induction false} UploadCommand(cfg: Config, s: Solo, us: seq<Upload>, more: seq<Packets>) returns (k: nat)
    requires forall j :: 0 <= j < |us| ==> Sendable(us[j])
    requires s.sess.id != "" && s.client.fetch.NoFetch? && s.client.plan == [UploadAllPackets(us)] + more
    ensures UploadedTo(cfg, s, us, more, SoloRun(cfg, s, k))
    decreases |us|, 1
  {
    hide SoloStep, UploadPackets;
    if us == [] {
      k := 0;
      assert SoloRun(cfg, s, 0) == s;
    } else if Paths.IsValidFilename(us[0].name) {
      k := UploadOn(cfg, s, us, more);
    } else {
      k := 1;
      RejectedStart(cfg, s, us[0], UploadAllPackets(us[1..]), more);
    }
  }

  /** The first file is taken, and the command goes on with the others. */
  lemma {:induction false} UploadOn(cfg: Config, s: Solo, us: seq<Upload>, more: seq<Packets>) returns (k: nat)
    requires us != [] && Paths.IsValidFilename(us[0].name) && forall j :: 0 <= j < |us| ==> Sendable(us[j])
    requires s.sess.id != "" && s.client.fetch.NoFetch? && s.client.plan == [UploadAllPackets(us)] + more
    ensures UploadedTo(cfg, s, us, more, SoloRun(cfg, s, k))
    decreases |us|, 0
  {
    hide SoloStep, UploadedTo, UploadPackets;
    var a, t := FirstUpload(cfg, s, us, more);
    var b := UploadCommand(cfg, t, us[1..], more);
    UploadedToCons(cfg, s, us, more, t, SoloRun(cfg, t, b));
    k := a + b;
    SoloRunAdd(cfg, s, a, b);
  }

  /** A rejected START is answered with an I/O error, and the client drops the rest of the command. */
  lemma RejectedStart(cfg: Config, s: Solo, u: Upload, tail: Packets, more: seq<Packets>)
    requires Sendable(u) && !Paths.IsValidFilename(u.name) && s.sess.id != "" && s.client.fetch.NoFetch?
    requires s.client.plan == [UploadPackets(u.name, u.data) + tail] + more
    ensures SoloRun(cfg, s, 1) == s.(client := s.client.(plan := more))
  {
    var ps := UploadPackets(u.name, u.data);
    assert [ps[0]] + ps[1..] == ps;
    Regroup([ps[0]], ps[1..], tail);
    UploadStart(cfg, s, u.name, ps[1..] + tail, more);
    OneStep(cfg, s);
  }

  /** Before login every command but login, ping and logout is dropped after its first packet, and nothing
      has changed on the server. */
  lemma DroppedBeforeLogin(cfg: Config, s: Solo, p: seq<byte>, rest: Packets, more: seq<Packets>)
    requires s.sess.id == "" && s.client.fetch.NoFetch? && s.client.plan == [[p] + rest] + more
    requires IsPacket(p) && Modelled(p[1]) && p[1] != REQ_LOGIN && p[1] != REQ_PING && p[1] != REQ_LOGOUT
    ensures SoloRun(cfg, s, 1) == s.(client := s.client.(plan := more))
  {
    PlainReply(s.client, p, rest, more, Sample(RESP_NOT_LOGGED_IN));
    OneStep(cfg, s);
  }

  /** An upload before login sends one packet and touches no file. */
  lemma UploadBeforeLogin(cfg: Config, s: Solo, us: seq<Upload>, more: seq<Packets>)
    requires us != [] && s.sess.id == "" && s.client.fetch.NoFetch? && s.client.plan == [UploadAllPackets(us)] + more
    ensures SoloRun(cfg, s, 1) == s.(client := s.client.(plan := more))
  {
    hide SoloStep, DataPackets;
    var ps := UploadPackets(us[0].name, us[0].data);
    assert [ps[0]] + ps[1..] == ps;
    Regroup([ps[0]], ps[1..], UploadAllPackets(us[1..]));
    DroppedBeforeLogin(cfg, s, ps[0], ps[1..] + UploadAllPackets(us[1..]), more);
  }

  /** How many files of a command come before the first name the server rejects. */
  function Accepted(us: seq<Upload>): (n: nat)
    ensures n <= |us| && (forall j :: 0 <= j < n ==> Paths.IsValidFilename(us[j].name))
    ensures n < |us| ==> !Paths.IsValidFilename(us[n].name)
  {
    if us == [] || !Paths.IsValidFilename(us[0].name) then 0 else 1 + Accepted(us[1..])
  }

  /** One of the files that come before the first rejected name is opened at path. */
  ghost predicate Delivered(cfg: Config, dir: string, us: seq<Upload>, path: string) {
    path !in cfg.unopenable && exists j :: 0 <= j < Accepted(us) && path == StartPath(dir, us[j].name)
  }

  lemma DeliveredRest(cfg: Config, dir: string, us: seq<Upload>, path: string)
    requires us != [] && Paths.IsValidFilename(us[0].name)
    ensures Delivered(cfg, dir, us, path) <==>
            Delivered(cfg, dir, us[1..], path) || (path !in cfg.unopenable && path == StartPath(dir, us[0].name))
  {
    hide StartPath;
    if j :| 0 <= j < Accepted(us[1..]) && path == StartPath(dir, us[1..][j].name) {
      assert us[1..][j] == us[j + 1];
    }
    if j :| 0 < j < Accepted(us) && path == StartPath(dir, us[j].name) {
      assert us[1..][j - 1] == us[j];
    }
  }

  ghost predicate DistinctPaths(dir: string, us: seq<Upload>) {
    forall j, k :: 0 <= j < k < |us| ==> StartPath(dir, us[j].name) != StartPath(dir, us[k].name)
  }

  /** When the paths differ, each file before the first rejected name that the server can open ends with
      its own bytes over its old content, and every other file is untouched. */
  lemma {:induction false} UploadedFiles(cfg: Config, us: seq<Upload>, sess: Session, shared: Shared, path: string)
    requires DistinctPaths(sess.dir, us)
    ensures var files := UploadedAll(cfg, us, sess, shared).1.files;
            && (forall i ::
                  0 <= i < Accepted(us) && path == StartPath(sess.dir, us[i].name) && path !in cfg.unopenable ==>
                  path in files && files[path] == Overlay(Content(shared.files, path), us[i].data))
            && (!Delivered(cfg, sess.dir, us, path) ==> SameFile(files, shared.files, path))
    decreases |us|
  {
    hide StartPath, Overlay;
    if us != [] && Paths.IsValidFilename(us[0].name) {
      var (sess1, shared1) := Uploaded(cfg, us[0], sess, shared);
      assert forall j :: 0 <= j < |us| - 1 ==> us[1..][j] == us[j + 1];
      assert sess1.dir == sess.dir && DistinctPaths(sess.dir, us[1..]);
      UploadedFiles(cfg, us[1..], sess1, shared1, path);
      DeliveredRest(cfg, sess.dir, us, path);
      forall i | 0 <= i < Accepted(us) && path == StartPath(sess.dir, us[i].name) && path !in cfg.unopenable
        ensures var files := UploadedAll(cfg, us, sess, shared).1.files;
                path in files && files[path] == Overlay(Content(shared.files, path), us[i].data)
      {
        assert i > 0 ==> us[1..][i - 1] == us[i];
      }
    }
  }

  /** What the mislabelled packet of an empty upload carries: the hash field and the name. */
  function EmptyBody(name: string): (body: seq<byte>)
    ensures |body| == 272
  {
    Zeros(16) + Pad(Bytes(name), 256)
  }

  /** The disk an upload of one file promises: the data over the file's old content, all else as it was. */
  function Promised(files: Disk, path: string, data: seq<byte>): Disk {
    files[path := Overlay(Content(files, path), data)]
  }

  /** What an empty upload does to the disk: nothing, or a write to the file that is open. */
  function AfterEmpty(files: Disk, fd: Fd, name: string): Disk {
    match fd
    case NoFile => files
    case File(path, offset) => files[path := WriteAt(Content(files, path), offset, EmptyBody(name))]
  }

  /** The condition on which an empty upload leaves the disk it promises. */
  predicate EmptyHarmless(files: Disk, fd: Fd, path: string, name: string) {
    path in files &&
    (fd == NoFile || WriteAt(Content(files, fd.path), fd.offset, EmptyBody(name)) == Content(files, fd.path))
  }

  /** The upload promise for one file whose START would be accepted and opened, whatever the session has
      open: it is kept exactly when there is data, or when the file is there and either no transfer is
      open or the write to the open file happens to leave it as it was. */
  lemma UploadPromiseIff(cfg: Config, s: Solo, name: string, data: seq<byte>, more: seq<Packets>)
    requires FitsField(name, 256) && Paths.IsValidFilename(name) && s.sess.id != "" && s.client.fetch.NoFetch?
    requires StartPath(s.sess.dir, name) !in cfg.unopenable
    requires s.client.plan == [UploadPackets(name, data)] + more
    ensures var path := StartPath(s.sess.dir, name);
            SoloRun(cfg, s, |UploadPackets(name, data)|).shared.files == Promised(s.shared.files, path, data) <==>
            data != [] || EmptyHarmless(s.shared.files, s.sess.fd, path, name)
  {
    hide SoloStep, StartPath, WriteAt, Overlay, Content, AfterEmpty;
    var path := StartPath(s.sess.dir, name);
    if data != [] {
      assert UploadPackets(name, data) + [] == UploadPackets(name, data);
      UploadOne(cfg, s, Upload(name, data), [], more);
    } else {
      EmptyUpload(cfg, s, name, more);
      if EmptyHarmless(s.shared.files, s.sess.fd, path, name) {
        HarmlessKeeps(s.shared.files, s.sess.fd, path, name);
      } else if AfterEmpty(s.shared.files, s.sess.fd, name) == Promised(s.shared.files, path, []) {
        KeptIsHarmless(s.shared.files, s.sess.fd, path, name);
      }
    }
  }

  lemma HarmlessKeeps(files: Disk, fd: Fd, path: string, name: string)
    requires EmptyHarmless(files, fd, path, name)
    ensures AfterEmpty(files, fd, name) == Promised(files, path, [])
  {
    assert Overlay(files[path], []) == files[path];
    assert Promised(files, path, []) == files;
    if fd.File? {
      assert |WriteAt(Content(files, fd.path), fd.offset, EmptyBody(name))| >= 272;
      assert AfterEmpty(files, fd, name) == files;
    }
  }

  lemma KeptIsHarmless(files: Disk, fd: Fd, path: string, name: string)
    requires AfterEmpty(files, fd, name) == Promised(files, path, [])
    ensures EmptyHarmless(files, fd, path, name)
  {
    assert path in Promised(files, path, []);
    assert Overlay(Content(files, path), []) == Content(files, path);
    if fd.File? {
      var now := WriteAt(Content(files, fd.path), fd.offset, EmptyBody(name));
      assert |now| >= 272;
      assert AfterEmpty(files, fd, name)[fd.path] == now;
      assert Promised(files, path, [])[fd.path] == Content(files, fd.path);
    }
  }

  lemma EmptyUpload(cfg: Config, s: Solo, name: string, more: seq<Packets>)
    requires s.sess.id != "" && s.client.fetch.NoFetch? && s.client.plan == [UploadPackets(name, [])] + more
    ensures |UploadPackets(name, [])| == 1
    ensures SoloRun(cfg, s, 1).shared.files == AfterEmpty(s.shared.files, s.sess.fd, name)
  {
    var p := StartPacket(REQ_FILE_TRANSFER_END, name);
    assert UploadPackets(name, []) == [p] + [];
    PlainReply(s.client, p, [], more, Handle(cfg, p[1], p, s.sess, s.shared).reply);
    OneStep(cfg, s);
  }

  /** Uploading an empty file while a transfer is open writes the mislabelled packet's 272 body bytes into
      the file that is open, and leaves every other file alone: so the open file grows whenever fewer than
      272 bytes are left behind its offset. */
  lemma EmptyUploadHitsOpenFile(cfg: Config, s: Solo, name: string, more: seq<Packets>)
    requires s.sess.id != "" && s.client.fetch.NoFetch? && s.sess.fd.File?
    requires s.client.plan == [UploadPackets(name, [])] + more
    ensures var path, offset := s.sess.fd.path, s.sess.fd.offset;
            var was := Content(s.shared.files, path);
            var files := SoloRun(cfg, s, 1).shared.files;
            && files == s.shared.files[path := WriteAt(was, offset, EmptyBody(name))]
            && (|files[path]| > |was| <==> offset + 272 > |was|)
  {
    hide SoloStep, EmptyBody;
    EmptyUpload(cfg, s, name, more);
  }

  lemma CredentialsAre(user: string, password: string)
    requires FitsField(user, 64) && FitsField(password, 64)
    ensures Credentials(LoginPacket(user, password)) == (user, password)
  {
    var p := LoginPacket(user, password);
    assert p[4..68] == Pad(Bytes(user), 64);
    assert p[68..132] == Pad(Bytes(password), 64);
    TextOfPad(user, 64);
    TextOfPad(password, 64);
  }

  // ---------- cd, and who and where ----------

  lemma DestinationIs(path: string)
    requires FitsField(path, 512)
    ensures Destination(CdPacket(path)) == path
  {
    var p := CdPacket(path);
    assert p[4..516] == Pad(Bytes(path), 512);
    TextOfPad(path, 512);
  }

  /** A logged-in user asking for the directory is told the session's. */
  lemma DirectoryIsTold(cfg: Config, data: seq<byte>, sess: Session, shared: Shared)
    requires sess.id != "" && FitsField(sess.dir, 512)
    ensures var out := Handle(cfg, REQ_CURRENT_DIRECTORY, data, sess, shared);
            out.reply[1] == RESP_CURRENT_DIRECTORY && DirectoryOf(out.reply) == sess.dir
  {
    var p := MakePacket(RESP_CURRENT_DIRECTORY, Pad(Bytes(sess.dir), 512));
    assert p[4..516] == Pad(Bytes(sess.dir), 512);
    TextOfPad(sess.dir, 512);
  }

  /** One asking for the user is told the session's. */
  lemma UserIsTold(cfg: Config, data: seq<byte>, sess: Session, shared: Shared)
    requires sess.id != "" && FitsField(sess.id, 255)
    ensures var out := Handle(cfg, REQ_GET_CURRENT_USER, data, sess, shared);
            out.reply[1] == RESP_CURRENT_USER && UserOf(out.reply) == sess.id
  {
    var p := MakePacket(RESP_CURRENT_USER, Pad(Bytes(sess.id), 255) + [0]);
    assert p[4..259] == Pad(Bytes(sess.id), 255);
    TextOfPad(sess.id, 255);
  }

  /** A login is told to have succeeded exactly when the credentials are known and no second administrator is
      turned away, and then whether the session is an administrator's. */
  lemma LoginIsTold(cfg: Config, data: seq<byte>, sess: Session, shared: Shared)
    ensures var out := Handle(cfg, REQ_LOGIN, data, sess, shared);
            var who := Credentials(data);
            && |out.reply| >= HEADER_SIZE
            && (out.reply[1] == RESP_LOGGED_IN <==>
                  who in cfg.users && !(cfg.users[who].admin && shared.adminConnected))
            && (out.reply[1] == RESP_LOGGED_IN ==> (AdminOf(out.reply) <==> out.sess.admin))
  {
    hide Credentials;
  }

  /** A cd into the directory name, and the cwd after it: the client is told the new directory if there is
      one, and otherwise an I/O error and then the directory it was in. */
  lemma CdThenCwd(cfg: Config, name: string, data: seq<byte>, sess: Session, shared: Shared)
    requires sess.id != "" && SessionRooted(sess) && Paths.Component(name) && FitsField(sess.dir + "/" + name, 512)
    ensures var below := sess.dir + "/" + name;
            var cd := Handle(cfg, REQ_CHANGE_WORKING_DIRECTORY, CdPacket(name), sess, shared);
            var cwd := Handle(cfg, REQ_CURRENT_DIRECTORY, data, cd.sess, cd.shared);
            && cd.shared == shared && cd.sess == sess.(dir := if below in cfg.dirs then below else sess.dir)
            && cd.reply == Sample(if below in cfg.dirs then RESP_OK else RESP_IO_ERROR)
            && DirectoryOf(cwd.reply) == if below in cfg.dirs then below else sess.dir
  {
    hide Paths.Cd, Paths.Rooted, Destination, DirectoryOf, Bytes, Text;
    var below := sess.dir + "/" + name;
    NameFits(sess.dir, name);
    DestinationIs(name);
    Paths.CdEnters(cfg.dirs, sess.dir, name, sess.id);
    Paths.NotEmpty(sess.dir, name);
    var cd := Handle(cfg, REQ_CHANGE_WORKING_DIRECTORY, CdPacket(name), sess, shared);
    DirectoryIsTold(cfg, data, cd.sess, cd.shared);
  }

  lemma NameFits(dir: string, name: string)
    requires FitsField(dir + "/" + name, 512)
    ensures FitsField(name, 512) && FitsField(dir, 512)
  {
    var path := dir + "/" + name;
    assert forall k :: 0 <= k < |dir| ==> path[k] == dir[k];
    assert forall k :: 0 <= k < |name| ==> path[|dir| + 1 + k] == name[k];
  }

  // ---------- download ----------

  lemma OpenNameIs(name: string)
    requires FitsField(name, 255)
    ensures OpenName(OpenPacket(name)) == name
  {
    var p := OpenPacket(name);
    assert p[4..259] == Pad(Bytes(name), 255);
    TextOfPad(name, 255);
  }

  lemma OpenedFieldsAre(count: nat, name: string)
    requires FitsField(name, 255) && count < Power256(8)
    ensures OpenedChunks(FileOpened(count, name)) == count && OpenedName(FileOpened(count, name)) == name
  {
    var p := FileOpened(count, name);
    assert p[8..16] == LittleEndian(count, 8);
    LittleEndianRoundTrip(count, 8);
    assert p[16..271] == Pad(Bytes(name), 255);
    TextOfPad(name, 255);
  }

  lemma ChunkIndexIs(index: nat)
    requires index < Power256(8)
    ensures ChunkIndex(ChunkRequest(index)) == index
  {
    var p := ChunkRequest(index);
    assert p[8..16] == LittleEndian(index, 8);
    LittleEndianRoundTrip(index, 8);
  }

  /** The download loop is at chunk next, and its file holds the chunks before that over its old content. */
  ghost predicate Downloading(s: Solo, name: string, path: string, next: nat, file: seq<byte>, was: seq<byte>) {
    && s.sess.id != "" && s.sess.download.File? && s.sess.download.path == path
    && path in s.shared.files && s.shared.files[path] == file
    && next <= ChunkCount(|file|) < Power256(8)
    && name in s.client.local && s.client.local[name] == Overlay(was, Prefix(file, next))
    && s.client.fetch == if next == ChunkCount(|file|) then NoFetch
                         else Fetching(name, next, ChunkCount(|file|), |Prefix(file, next)|)
  }

  lemma FetchStep(cfg: Config, s: Solo, name: string, path: string, next: nat, file: seq<byte>, was: seq<byte>)
    requires Downloading(s, name, path, next, file, was) && next < ChunkCount(|file|)
    ensures var t := SoloStep(cfg, s);
            && Downloading(t, name, path, next + 1, file, was)
            && t.shared == s.shared && t.client.plan == s.client.plan
            && t.sess.(download := s.sess.download) == s.sess
            && t.client.local == s.client.local[name := t.client.local[name]]
  {
    ChunkIndexIs(next);
    var chunk := ChunkAt(file, next);
    OverlayExtends(was, Prefix(file, next), chunk);
    assert Served(cfg, s).reply == MakePacket(RESP_FILE_CHUNK, chunk);
  }

  lemma {:induction false} FetchRun(cfg: Config, s: Solo, name: string, path: string, next: nat,
                                    file: seq<byte>, was: seq<byte>)
    requires Downloading(s, name, path, next, file, was)
    ensures var t := SoloRun(cfg, s, ChunkCount(|file|) - next);
            && Downloading(t, name, path, ChunkCount(|file|), file, was)
            && t.shared == s.shared && t.client.plan == s.client.plan
            && t.sess.(download := s.sess.download) == s.sess
            && t.client.local == s.client.local[name := t.client.local[name]]
    decreases ChunkCount(|file|) - next
  {
    hide SoloStep, ChunkCount, Prefix, Overlay;
    var left := ChunkCount(|file|) - next;
    if left == 0 {
      assert SoloRun(cfg, s, 0) == s;
    } else {
      FetchStep(cfg, s, name, path, next, file, was);
      var t := SoloStep(cfg, s);
      FetchRun(cfg, t, name, path, next + 1, file, was);
      StepThen(cfg, s, t, left - 1, SoloRun(cfg, t, left - 1));
    }
  }

  lemma FetchAll(cfg: Config, s: Solo, name: string, path: string, file: seq<byte>, was: seq<byte>)
    requires Downloading(s, name, path, 0, file, was)
    ensures var t := SoloRun(cfg, s, ChunkCount(|file|));
            && t.client == Client(s.client.plan, NoFetch, s.client.local[name := Overlay(was, file)])
            && t.shared == s.shared && t.sess.(download := s.sess.download) == s.sess
  {
    hide SoloStep;
    FetchRun(cfg, s, name, path, 0, file, was);
    ChunksReadBack(file);
  }

  /** The open request of a download: accepted exactly when the name is valid and the file can be opened. */
  lemma DownloadOpen(cfg: Config, s: Solo, name: string, rest: Packets, more: seq<Packets>)
    requires FitsField(name, 255) && s.sess.id != "" && s.client.fetch.NoFetch?
    requires s.client.plan == [[OpenPacket(name)] + rest] + more
    requires forall path :: path in s.shared.files ==> ChunkCount(|s.shared.files[path]|) < Power256(8)
    ensures var path := OpenPath(s.sess.dir, name);
            var ok := Paths.IsValidFilename(name) && path !in cfg.unopenable && path in s.shared.files;
            var t := SoloStep(cfg, s);
            if !ok then t == s.(client := s.client.(plan := more))
            else
              var was := Written(s.client.local, name);
              && Downloading(t, name, path, 0, s.shared.files[path], was)
              && t.shared == s.shared && t.client.plan == [rest] + more
              && t.sess.(download := s.sess.download) == s.sess
              && t.client.local == s.client.local[name := was]
  {
    var p := OpenPacket(name);
    OpenNameIs(name);
    var out := Handle(cfg, REQ_FILE_OPEN, p, s.sess, s.shared);
    PlainReply(s.client, p, rest, more, out.reply);
    assert s.client.plan[0][1..] == rest && s.client.plan[1..] == more;
    var path := OpenPath(s.sess.dir, name);
    if Paths.IsValidFilename(name) && path !in cfg.unopenable && path in s.shared.files {
      OpenedFieldsAre(ChunkCount(|s.shared.files[path]|), name);
      assert Overlay(Written(s.client.local, name), []) == Written(s.client.local, name);
    }
  }

  /** A download of a file of any length, empty and exact multiples of the chunk size included, leaves
      exactly the server's bytes over the client's old file, and changes nothing on the server. */
  lemma DownloadCommand(cfg: Config, s: Solo, name: string, more: seq<Packets>)
    requires FitsField(name, 255) && Paths.IsValidFilename(name) && s.sess.id != "" && s.client.fetch.NoFetch?
    requires s.client.plan == [[OpenPacket(name)]] + more
    requires OpenPath(s.sess.dir, name) !in cfg.unopenable && OpenPath(s.sess.dir, name) in s.shared.files
    requires forall path :: path in s.shared.files ==> ChunkCount(|s.shared.files[path]|) < Power256(8)
    ensures var file := s.shared.files[OpenPath(s.sess.dir, name)];
            var t := SoloRun(cfg, s, 1 + ChunkCount(|file|));
            && t.client == Client([[]] + more, NoFetch,
                                  s.client.local[name := Overlay(Written(s.client.local, name), file)])
            && t.shared == s.shared && t.sess.(download := s.sess.download) == s.sess
  {
    var path := OpenPath(s.sess.dir, name);
    var file := s.shared.files[path];
    var was := Written(s.client.local, name);
    assert [OpenPacket(name)] == [OpenPacket(name)] + [];
    DownloadOpen(cfg, s, name, [], more);
    var t := SoloStep(cfg, s);
    FetchAll(cfg, t, name, path, file, was);
    StepThen(cfg, s, t, ChunkCount(|file|), SoloRun(cfg, t, ChunkCount(|file|)));
    UpdateTwice(s.client.local, name, was, Overlay(was, file));
  }

  /** The client's copy is exactly the server's file when and only when its old one was no longer. */
  lemma DownloadExact(cfg: Config, s: Solo, name: string, more: seq<Packets>)
    requires FitsField(name, 255) && Paths.IsValidFilename(name) && s.sess.id != "" && s.client.fetch.NoFetch?
    requires s.client.plan == [[OpenPacket(name)]] + more
    requires OpenPath(s.sess.dir, name) !in cfg.unopenable && OpenPath(s.sess.dir, name) in s.shared.files
    requires forall path :: path in s.shared.files ==> ChunkCount(|s.shared.files[path]|) < Power256(8)
    ensures var file := s.shared.files[OpenPath(s.sess.dir, name)];
            var local := SoloRun(cfg, s, 1 + ChunkCount(|file|)).client.local;
            name in local && (local[name] == file <==> |Written(s.client.local, name)| <= |file|)
  {
    hide SoloStep, OpenPath, OpenPacket;
    DownloadCommand(cfg, s, name, more);
    OverlayIsData(Written(s.client.local, name), s.shared.files[OpenPath(s.sess.dir, name)]);
  }

  lemma UpdateTwice(m: map<string, seq<byte>>, key: string, x: seq<byte>, y: seq<byte>)
    ensures m[key := x][key := y] == m[key := y]
  {
  }

  // ---------- up and down again ----------

  lemma OverlayCount(was: seq<byte>, data: seq<byte>)
    requires ChunkCount(|was|) < Power256(8) && ChunkCount(|data|) < Power256(8)
    ensures ChunkCount(|Overlay(was, data)|) < Power256(8)
  {
    hide ChunkCount, Power256;
    assert |Overlay(was, data)| == if |data| <= |was| then |was| else |data|;
  }

  /** The first half: one upload command, used up. */
  lemma UploadedFirst(cfg: Config, s: Solo, u: Upload, more: seq<Packets>)
    requires Sendable(u) && Paths.IsValidFilename(u.name) && s.sess.id != "" && s.client.fetch.NoFetch?
    requires |s.sess.dir| + 1 + |u.name| <= 511 && s.sess.dir + "/" + u.name !in cfg.unopenable
    requires s.client.plan == [UploadPackets(u.name, u.data)] + more
    ensures var path := s.sess.dir + "/" + u.name;
            SoloRun(cfg, s, |UploadPackets(u.name, u.data)|) ==
            Solo(s.client.(plan := [[]] + more), s.sess.(fd := File(path, |u.data|)),
                 s.shared.(files := Promised(s.shared.files, path, u.data)))
  {
    hide SoloStep, UploadPackets;
    SamePathIff(s.sess.dir, u.name);
    assert UploadPackets(u.name, u.data) + [] == UploadPackets(u.name, u.data);
    UploadOne(cfg, s, u, [], more);
  }

  /** A round trip through the server: a file uploaded and then downloaded under its name comes back, over
      the client's old file of that name, as the server has it; and that is exactly the data sent when
      and only when neither old file was longer. Nothing else has changed on either side. */
  lemma UploadThenDownload(cfg: Config, s: Solo, u: Upload, more: seq<Packets>) returns (k: nat)
    requires Sendable(u) && FitsField(u.name, 255) && Paths.IsValidFilename(u.name)
    requires s.sess.id != "" && s.client.fetch.NoFetch?
    requires |s.sess.dir| + 1 + |u.name| <= 511 && s.sess.dir + "/" + u.name !in cfg.unopenable
    requires s.client.plan == [UploadPackets(u.name, u.data), [OpenPacket(u.name)]] + more
    requires ChunkCount(|u.data|) < Power256(8)
    requires forall path :: path in s.shared.files ==> ChunkCount(|s.shared.files[path]|) < Power256(8)
    ensures var path := s.sess.dir + "/" + u.name;
            var t := SoloRun(cfg, s, k);
            var stored := Overlay(Content(s.shared.files, path), u.data);
            var back := Overlay(Written(s.client.local, u.name), stored);
            && t.shared == s.shared.(files := s.shared.files[path := stored])
            && t.client == Client([[]] + more, NoFetch, s.client.local[u.name := back])
            && u.data <= back
            && (back == u.data <==>
                  |Content(s.shared.files, path)| <= |u.data| && |Written(s.client.local, u.name)| <= |u.data|)
  {
    hide SoloStep, UploadPackets, OpenPacket, ChunkCount, Power256, Handle, Live;
    var path := s.sess.dir + "/" + u.name;
    var stored := Overlay(Content(s.shared.files, path), u.data);
    var a := |UploadPackets(u.name, u.data)|;
    var later := [[OpenPacket(u.name)]] + more;
    assert [UploadPackets(u.name, u.data), [OpenPacket(u.name)]] + more == [UploadPackets(u.name, u.data)] + later;
    UploadedFirst(cfg, s, u, later);
    var t := SoloRun(cfg, s, a);
    var v := t.(client := t.client.(plan := later));
    StoredFits(s.shared.files, path, u.data);
    OpenIsLive(cfg, v, u.name, more);
    DownloadCommand(cfg, v, u.name, more);
    var b := 1 + ChunkCount(|stored|);
    SpentFirst(cfg, t, later, b);
    SoloRunAdd(cfg, s, a, b);
    k := a + b;
    ExactlyBack(Content(s.shared.files, path), Written(s.client.local, u.name), u.data);
  }

  lemma StoredFits(files: Disk, path: string, data: seq<byte>)
    requires ChunkCount(|data|) < Power256(8)
    requires forall other :: other in files ==> ChunkCount(|files[other]|) < Power256(8)
    ensures var now := Promised(files, path, data);
            forall other :: other in now ==> ChunkCount(|now[other]|) < Power256(8)
  {
    hide Power256, Overlay;
    NoChunks();
    OverlayCount(Content(files, path), data);
  }

  lemma NoChunks()
    ensures ChunkCount(0) < Power256(8)
  {
    assert Power256(8) == 256 * Power256(7) && Power256(7) == 256 * Power256(6);
    FromLittleEndianBound([], 8);
  }

  lemma OpenIsLive(cfg: Config, s: Solo, name: string, more: seq<Packets>)
    requires FitsField(name, 255) && s.sess.id != "" && s.client.fetch.NoFetch?
    requires s.client.plan == [[OpenPacket(name)]] + more
    ensures Live(cfg, s)
  {
    hide HandleOpen;
    var p := OpenPacket(name);
    assert [p] == [p] + [];
    PlainReply(s.client, p, [], more, Sample(RESP_OK));
    ReplyIsOnePacket(cfg, p[1], p, s.sess, s.shared);
  }

  lemma ExactlyBack(server: seq<byte>, local: seq<byte>, data: seq<byte>)
    ensures var back := Overlay(local, Overlay(server, data));
            data <= back && (back == data <==> |server| <= |data| && |local| <= |data|)
  {
    var stored := Overlay(server, data);
    var back := Overlay(local, stored);
    assert |stored| == if |data| <= |server| then |server| else |data|;
    assert |back| == if |stored| <= |local| then |local| else |stored|;
    assert back[..|stored|] == stored && stored[..|data|] == data;
    assert back[..|data|] == back[..|stored|][..|data|];
  }
}
