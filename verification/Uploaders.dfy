/** Any number of clients that log in and upload files to distinct paths, all at once: whatever the
    interleaving, every file ends as its client's upload alone would leave it.
    Source: src/client/main.cpp:41-73, src/client/menu.hpp:334-358,
    src/server/client_controller.cpp:271-307, 342-377. */
module Uploaders {
  import opened Protocol
  import opened Sequences
  import opened Files
  import opened Handlers
  import opened Clients
  import opened SoloRuns
  import opened Systems
  import opened Pipelines
  import opened Interleavings
  import opened Transfers
  import opened Termination
  import Paths

  datatype Uploader = Uploader(user: string, password: string, files: seq<Upload>)

  function Home(cfg: Config, u: Uploader): string
    requires (u.user, u.password) in cfg.users
  {
    "./tmp" + "/" + cfg.users[(u.user, u.password)].id
  }

  function Plan(u: Uploader): seq<Packets> {
    [[LoginPacket(u.user, u.password)], UploadAllPackets(u.files)]
  }

  /** The credentials are good, no file is empty, and no two go to one path. Names may be refused by the
      server, and files may be ones it cannot open. */
  ghost predicate GoodUploader(cfg: Config, u: Uploader) {
    && FitsField(u.user, 64) && FitsField(u.password, 64)
    && (u.user, u.password) in cfg.users && cfg.users[(u.user, u.password)].id != ""
    && (forall j :: 0 <= j < |u.files| ==> Sendable(u.files[j]))
    && DistinctPaths(Home(cfg, u), u.files)
  }

  predicate IsAdmin(cfg: Config, u: Uploader)
    requires (u.user, u.password) in cfg.users
  {
    cfg.users[(u.user, u.password)].admin
  }

  /** An administrator is let in while no other is connected. */
  predicate Welcome(cfg: Config, u: Uploader, shared: Shared) {
    (u.user, u.password) in cfg.users && IsAdmin(cfg, u) ==> !shared.adminConnected
  }

  /** One of the uploader's files would go to path. */
  ghost predicate UploadsTo(cfg: Config, u: Uploader, path: string)
    requires (u.user, u.password) in cfg.users
  {
    exists j :: 0 <= j < |u.files| && path == StartPath(Home(cfg, u), u.files[j].name)
  }

  // ---------- one uploader alone ----------

  function LoggedInAs(cfg: Config, u: Uploader, sess: Session): Session
    requires (u.user, u.password) in cfg.users
  {
    sess.(id := cfg.users[(u.user, u.password)].id, dir := Home(cfg, u), admin := sess.admin || IsAdmin(cfg, u))
  }

  function FlagAfter(cfg: Config, u: Uploader, shared: Shared): Shared
    requires (u.user, u.password) in cfg.users
  {
    shared.(adminConnected := shared.adminConnected || IsAdmin(cfg, u))
  }

  lemma LoginStep(cfg: Config, s: Solo, u: Uploader, more: seq<Packets>)
    requires GoodUploader(cfg, u) && Welcome(cfg, u, s.shared) && s.client.fetch.NoFetch?
    requires s.client.plan == [[LoginPacket(u.user, u.password)]] + more
    ensures SoloStep(cfg, s) ==
            Solo(s.client.(plan := [[]] + more), LoggedInAs(cfg, u, s.sess), FlagAfter(cfg, u, s.shared))
  {
    var p := LoginPacket(u.user, u.password);
    CredentialsAre(u.user, u.password);
    var out := Handle(cfg, REQ_LOGIN, p, s.sess, s.shared);
    assert [p] == [p] + [];
    PlainReply(s.client, p, [], more, out.reply);
    assert out.shared == FlagAfter(cfg, u, s.shared) && out.sess == LoggedInAs(cfg, u, s.sess);
  }

  /** The state an uploader's run alone is in once logged in, with spent commands dropped. */
  function Uploading(cfg: Config, s: Solo, u: Uploader): Solo
    requires (u.user, u.password) in cfg.users
  {
    Solo(s.client.(plan := [UploadAllPackets(u.files)]), LoggedInAs(cfg, u, s.sess), FlagAfter(cfg, u, s.shared))
  }

  lemma AfterLogin(cfg: Config, s: Solo, u: Uploader, k: nat)
    requires GoodUploader(cfg, u) && Welcome(cfg, u, s.shared) && s.client.fetch.NoFetch? && s.client.plan == Plan(u)
    requires k > 0 && Live(cfg, Uploading(cfg, s, u))
    ensures SoloRun(cfg, s, 1 + k) == SoloRun(cfg, Uploading(cfg, s, u), k)
  {
    hide Handle, StartPath, DistinctPaths, LoginPacket, Live, SoloStep;
    var more := [UploadAllPackets(u.files)];
    assert Plan(u) == [[LoginPacket(u.user, u.password)]] + more;
    LoginStep(cfg, s, u, more);
    SpentFirst(cfg, SoloStep(cfg, s), more, k);
    OneStep(cfg, s);
    SoloRunAdd(cfg, s, 1, k);
  }

  lemma StartIsLive(cfg: Config, s: Solo, u: Upload, rest: Packets, more: seq<Packets>)
    requires Sendable(u) && s.sess.id != "" && s.client.fetch.NoFetch?
    requires s.client.plan == [UploadPackets(u.name, u.data) + rest] + more
    ensures Live(cfg, s) && SoloFoot(cfg, s) == {StartPath(s.sess.dir, u.name)}
  {
    var p := StartPacket(REQ_FILE_TRANSFER_START, u.name);
    var ps := UploadPackets(u.name, u.data);
    assert ps[0] == p && (ps + rest)[0] == p;
    assert Request(s.client) == Some(p);
    StartNameIs(REQ_FILE_TRANSFER_START, u.name);
    ReplyIsOnePacket(cfg, p[1], p, s.sess, s.shared);
  }

  /** The whole run of an uploader alone. */
  lemma UploaderAlone(cfg: Config, s: Solo, u: Uploader) returns (k: nat)
    requires GoodUploader(cfg, u) && Welcome(cfg, u, s.shared) && s.client.fetch.NoFetch? && s.client.plan == Plan(u)
    ensures Request(SoloRun(cfg, s, k).client).None?
    ensures SoloRun(cfg, s, k).shared ==
            UploadedAll(cfg, u.files, LoggedInAs(cfg, u, s.sess), FlagAfter(cfg, u, s.shared)).1
  {
    hide SoloStep, UploadedTo, UploadPackets;
    if u.files == [] {
      k := NothingToUpload(cfg, s, u);
    } else {
      var v := Uploading(cfg, s, u);
      StartIsLive(cfg, v, u.files[0], UploadAllPackets(u.files[1..]), []);
      k := UploadCommand(cfg, v, u.files, []);
      CommandOver(cfg, v, u.files, SoloRun(cfg, v, k));
      ZeroSteps(cfg, v, k);
      AfterLogin(cfg, s, u, k);
      k := 1 + k;
    }
  }

  lemma CommandOver(cfg: Config, s: Solo, us: seq<Upload>, t: Solo)
    requires UploadedTo(cfg, s, us, [], t) && s.client.fetch.NoFetch?
    ensures Request(t.client).None? && t.shared == UploadedAll(cfg, us, s.sess, s.shared).1
  {
    assert Skip([[]] + []) == [];
  }

  lemma NothingToUpload(cfg: Config, s: Solo, u: Uploader) returns (k: nat)
    requires GoodUploader(cfg, u) && Welcome(cfg, u, s.shared) && s.client.fetch.NoFetch? && s.client.plan == Plan(u)
    requires u.files == []
    ensures Request(SoloRun(cfg, s, k).client).None? && SoloRun(cfg, s, k).shared == FlagAfter(cfg, u, s.shared)
  {
    var rest: seq<Packets> := [[]];
    assert Plan(u) == [[LoginPacket(u.user, u.password)]] + rest;
    LoginStep(cfg, s, u, rest);
    k := 1;
    OneStep(cfg, s);
    TwoSpent([[]] + rest);
  }

  lemma TwoSpent(plan: seq<Packets>)
    requires |plan| == 2 && plan[0] == [] && plan[1] == []
    ensures Skip(plan) == []
  {
    assert plan[1..][1..] == [];
    assert Skip(plan[1..]) == Skip(plan[1..][1..]);
  }

  // ---------- what an uploader touches ----------

  predicate UploaderPacket(u: Uploader, p: seq<byte>) {
    || p == LoginPacket(u.user, u.password)
    || (IsPacket(p) && (p[1] == REQ_FILE_TRANSFER_CHUNK || p[1] == REQ_FILE_TRANSFER_END))
    || (exists j :: 0 <= j < |u.files| && p == StartPacket(REQ_FILE_TRANSFER_START, u.files[j].name))
  }

  ghost predicate UploaderPlan(u: Uploader, plan: seq<Packets>) {
    forall p :: p in Asks(plan) ==> UploaderPacket(u, p)
  }

  /** Whatever an uploader has done so far, it works in its home and its open file is one of its own. */
  ghost predicate UploaderState(cfg: Config, u: Uploader, s: Solo)
    requires (u.user, u.password) in cfg.users
  {
    s.client.fetch.NoFetch? && UploaderPlan(u, s.client.plan) && UploaderSession(cfg, u, s.sess)
  }

  /** What holds of an uploader's session whatever request it has just made. */
  ghost predicate UploaderSession(cfg: Config, u: Uploader, sess: Session)
    requires (u.user, u.password) in cfg.users
  {
    && (sess.id != "" ==> sess.dir == Home(cfg, u))
    && (sess.fd.File? ==> UploadsTo(cfg, u, sess.fd.path))
  }

  lemma LoginHandler(cfg: Config, u: Uploader, sess: Session, shared: Shared)
    requires GoodUploader(cfg, u) && UploaderSession(cfg, u, sess)
    ensures var p := LoginPacket(u.user, u.password);
            var out := Handle(cfg, REQ_LOGIN, p, sess, shared);
            && UploaderSession(cfg, u, out.sess) && IsPacket(out.reply) && out.reply[1] != RESP_FILE_OPENED
            && Footprint(cfg, REQ_LOGIN, p, sess) == {}
  {
    CredentialsAre(u.user, u.password);
  }

  lemma StartHandler(cfg: Config, u: Uploader, j: nat, sess: Session, shared: Shared)
    requires GoodUploader(cfg, u) && UploaderSession(cfg, u, sess) && j < |u.files|
    ensures var p := StartPacket(REQ_FILE_TRANSFER_START, u.files[j].name);
            var out := Handle(cfg, REQ_FILE_TRANSFER_START, p, sess, shared);
            && UploaderSession(cfg, u, out.sess) && IsPacket(out.reply) && out.reply[1] != RESP_FILE_OPENED
            && forall path :: path in Footprint(cfg, REQ_FILE_TRANSFER_START, p, sess) ==> UploadsTo(cfg, u, path)
  {
    StartNameIs(REQ_FILE_TRANSFER_START, u.files[j].name);
  }

  lemma DataHandler(cfg: Config, u: Uploader, p: seq<byte>, sess: Session, shared: Shared)
    requires GoodUploader(cfg, u) && UploaderSession(cfg, u, sess)
    requires IsPacket(p) && (p[1] == REQ_FILE_TRANSFER_CHUNK || p[1] == REQ_FILE_TRANSFER_END)
    ensures var out := Handle(cfg, p[1], p, sess, shared);
            && UploaderSession(cfg, u, out.sess) && IsPacket(out.reply) && out.reply[1] != RESP_FILE_OPENED
            && forall path :: path in Footprint(cfg, p[1], p, sess) ==> UploadsTo(cfg, u, path)
  {
  }

  lemma UploaderHandler(cfg: Config, u: Uploader, p: seq<byte>, sess: Session, shared: Shared)
    requires GoodUploader(cfg, u) && UploaderPacket(u, p) && UploaderSession(cfg, u, sess)
    ensures IsPacket(p) && Modelled(p[1])
    ensures var out := Handle(cfg, p[1], p, sess, shared);
            && UploaderSession(cfg, u, out.sess) && IsPacket(out.reply) && out.reply[1] != RESP_FILE_OPENED
            && forall path :: path in Footprint(cfg, p[1], p, sess) ==> UploadsTo(cfg, u, path)
  {
    hide Handle, Footprint, UploaderSession, UploadsTo, GoodUploader;
    if p == LoginPacket(u.user, u.password) {
      LoginHandler(cfg, u, sess, shared);
    } else if p[1] == REQ_FILE_TRANSFER_START {
      var j :| 0 <= j < |u.files| && p == StartPacket(REQ_FILE_TRANSFER_START, u.files[j].name);
      StartHandler(cfg, u, j, sess, shared);
    } else {
      DataHandler(cfg, u, p, sess, shared);
    }
  }

  lemma UploaderStep(cfg: Config, u: Uploader, s: Solo)
    requires GoodUploader(cfg, u) && UploaderState(cfg, u, s)
    ensures UploaderState(cfg, u, SoloStep(cfg, s))
    ensures forall path :: path in SoloFoot(cfg, s) ==> UploadsTo(cfg, u, path)
  {
    hide Handle, Footprint, UploadsTo, UploaderPacket, GoodUploader, UploaderSession;
    if Live(cfg, s) {
      var p := Request(s.client).value;
      AdvanceAsks(s.client, Served(cfg, s).reply);
      UploaderHandler(cfg, u, p, s.sess, s.shared);
    }
  }

  lemma {:induction false} UploaderRun(cfg: Config, u: Uploader, s: Solo, k: nat)
    requires GoodUploader(cfg, u) && UploaderState(cfg, u, s)
    ensures UploaderState(cfg, u, SoloRun(cfg, s, k))
    ensures forall path :: path in SoloFoot(cfg, SoloRun(cfg, s, k)) ==> UploadsTo(cfg, u, path)
  {
    hide SoloStep, SoloFoot, UploaderState, UploadsTo;
    if k > 0 {
      UploaderRun(cfg, u, s, k - 1);
      UploaderStep(cfg, u, SoloRun(cfg, s, k - 1));
    }
    UploaderStep(cfg, u, SoloRun(cfg, s, k));
  }

  lemma OneFilePackets(u: Uploader, x: Upload, p: seq<byte>)
    requires x in u.files && x.data != [] && p in UploadPackets(x.name, x.data)
    ensures UploaderPacket(u, p)
  {
    hide IsPacket, StartPacket, ChunkAt, ChunkCount;
    var ps := UploadPackets(x.name, x.data);
    var k :| 0 <= k < |ps| && p == ps[k];
    UploadShape(x.name, x.data);
    assert ps[0] == StartPacket(REQ_FILE_TRANSFER_START, x.name);
  }

  lemma {:induction false} UploadPacketsAre(u: Uploader, us: seq<Upload>, p: seq<byte>)
    requires forall j :: 0 <= j < |us| ==> us[j] in u.files && us[j].data != []
    requires p in UploadAllPackets(us)
    ensures UploaderPacket(u, p)
    decreases |us|
  {
    hide UploaderPacket, UploadPackets;
    if p in UploadPackets(us[0].name, us[0].data) {
      OneFilePackets(u, us[0], p);
    } else {
      UploadPacketsAre(u, us[1..], p);
    }
  }

  lemma UploaderPacketIsClientPacket(u: Uploader, p: seq<byte>)
    requires UploaderPacket(u, p)
    ensures ClientPacket(p) && |p| >= HEADER_SIZE && Modelled(p[1]) && p[1] != REQ_GET_SETTINGS
  {
  }

  lemma UploaderPacketIsOrdinary(cfg: Config, u: Uploader, p: seq<byte>)
    requires GoodUploader(cfg, u) && !IsAdmin(cfg, u) && UploaderPacket(u, p) && |p| >= HEADER_SIZE
    ensures !AdminLogin(cfg, p[1], p)
  {
    if p == LoginPacket(u.user, u.password) {
      CredentialsAre(u.user, u.password);
    }
  }

  // ---------- all of them at once ----------

  /** Connections just accepted, one per uploader. At most one logs in as an administrator, and then no other
      administrator is connected. */
  ghost predicate Connected(cfg: Config, init: System, us: seq<Uploader>) {
    && |init.links| == |us| && init.stack == [] && init.queue == [] && |init.workers| > 0
    && (forall w :: 0 <= w < |init.workers| ==> init.workers[w] == Idle)
    && (forall i :: 0 <= i < |us| ==>
          var l := init.links[i];
          && (us[i].user, us[i].password) in cfg.users && Welcome(cfg, us[i], init.shared)
          && l.client.plan == Plan(us[i]) && l.client.fetch == NoFetch && l.sess == FRESH
          && l.phase == Ready && l.up == [] && l.down == [] && l.pos == 0 && |l.buf| == BUFFER_SIZE
          && l.served == 0 && l.stage == AtClient)
    && (forall i, j :: 0 <= i < j < |us| ==> !IsAdmin(cfg, us[i]) || !IsAdmin(cfg, us[j]))
  }

  /** And no two of them upload to the same path. */
  ghost predicate Start(cfg: Config, init: System, us: seq<Uploader>) {
    && Connected(cfg, init, us) && (forall i :: 0 <= i < |us| ==> GoodUploader(cfg, us[i]))
    && (forall i, j, path :: 0 <= i < |us| && 0 <= j < |us| && i != j && UploadsTo(cfg, us[i], path) ==>
          !UploadsTo(cfg, us[j], path))
  }

  lemma PlanIs(cfg: Config, u: Uploader)
    requires GoodUploader(cfg, u)
    ensures UploaderPlan(u, Plan(u))
  {
    forall p | p in Asks(Plan(u)) ensures UploaderPacket(u, p) {
      if p != LoginPacket(u.user, u.password) {
        UploadPacketsAre(u, u.files, p);
      }
    }
  }

  /** An uploader's requests are in range and modelled, and an ordinary one's have no business with the flag. */
  lemma PlanFits(cfg: Config, u: Uploader)
    requires GoodUploader(cfg, u)
    ensures GoodPlan(Plan(u)) && AllModelled(Plan(u))
    ensures forall p :: p in Asks(Plan(u)) && |p| >= HEADER_SIZE ==>
              p[1] != REQ_GET_SETTINGS && (!IsAdmin(cfg, u) ==> !AdminLogin(cfg, p[1], p))
  {
    hide UploaderPacket, ClientPacket, AdminLogin, Modelled, Asks, Plan;
    PlanIs(cfg, u);
    forall p | p in Asks(Plan(u))
      ensures ClientPacket(p) && |p| >= HEADER_SIZE && Modelled(p[1]) && p[1] != REQ_GET_SETTINGS
      ensures !IsAdmin(cfg, u) ==> !AdminLogin(cfg, p[1], p)
    {
      UploaderPacketIsClientPacket(u, p);
      if !IsAdmin(cfg, u) {
        UploaderPacketIsOrdinary(cfg, u, p);
      }
    }
  }

  lemma StartState(cfg: Config, init: System, us: seq<Uploader>, i: nat)
    requires Start(cfg, init, us) && i < |us|
    ensures GoodUploader(cfg, us[i]) && UploaderState(cfg, us[i], Alone(init, i))
    ensures SoloFit(cfg, Alone(init, i)) && (!IsAdmin(cfg, us[i]) ==> Ordinary(cfg, Alone(init, i)))
  {
    hide UploaderPlan, GoodPlan, AllModelled, AdminLogin, Asks, Plan, GoodUploader, UploadsTo;
    PlanIs(cfg, us[i]);
    PlanFits(cfg, us[i]);
  }

  /** What client i's run alone touches are files it uploads to. */
  lemma TouchesOwn(cfg: Config, init: System, us: seq<Uploader>, i: nat, k: nat, path: string)
    requires Start(cfg, init, us) && i < |us| && path in Touches(cfg, init, i, k)
    ensures GoodUploader(cfg, us[i]) && UploadsTo(cfg, us[i], path)
  {
    hide SoloStep, SoloFoot, UploadsTo, SoloFit, Ordinary, UploaderState;
    StartState(cfg, init, us, i);
    UploaderRun(cfg, us[i], Alone(init, i), k);
  }

  lemma WritesOwn(cfg: Config, init: System, us: seq<Uploader>, i: nat, k: nat, path: string)
    requires Start(cfg, init, us) && i < |us| && path in WritesTo(cfg, init, i, k)
    ensures GoodUploader(cfg, us[i]) && UploadsTo(cfg, us[i], path)
  {
    hide Touches, WritesTo;
    WritesAreTouched(cfg, init, i, k);
    TouchesOwn(cfg, init, us, i, k, path);
  }

  lemma StartIsInitial(cfg: Config, init: System, us: seq<Uploader>)
    requires Start(cfg, init, us)
    ensures Initial(cfg, init) && Independent(cfg, init)
  {
    hide Touches, WritesTo, SoloOk, Ordinary, UploadsTo, UploaderState, AllModelled;
    forall i | 0 <= i < |us|
      ensures SoloOk(cfg, Alone(init, i)) && AllModelled(init.links[i].client.plan)
      ensures IsAdmin(cfg, us[i]) || Ordinary(cfg, Alone(init, i))
    {
      StartState(cfg, init, us, i);
    }
    forall i: nat, j: nat, a: nat, b: nat, path |
      i < |init.links| && j < |init.links| && i != j && path in WritesTo(cfg, init, i, a)
      ensures path !in Touches(cfg, init, j, b)
    {
      WritesOwn(cfg, init, us, i, a, path);
      if path in Touches(cfg, init, j, b) {
        TouchesOwn(cfg, init, us, j, b, path);
      }
    }
  }

  /** Files under names accepted in time hold their clients' bytes over their old content. */
  ghost predicate AllArrived(cfg: Config, us: seq<Uploader>, was: Disk, now: Disk) {
    forall i, j ::
      0 <= i < |us| && (us[i].user, us[i].password) in cfg.users && 0 <= j < Accepted(us[i].files) &&
      StartPath(Home(cfg, us[i]), us[i].files[j].name) !in cfg.unopenable ==>
        var path := StartPath(Home(cfg, us[i]), us[i].files[j].name);
        path in now && now[path] == Overlay(Content(was, path), us[i].files[j].data)
  }

  /** The flagship: every schedule of every set of such clients ends, and when it does each file sent
      before a name the server rejects, and that it can open, holds its client's bytes in order over the
      old content, and no other file has changed. */
  lemma ConcurrentUploads(cfg: Config, init: System, us: seq<Uploader>, steps: seq<Step>)
    requires Start(cfg, init, us) && IsRun(cfg, init, steps)
    ensures |steps| <= Measure(init)
    ensures var s := After(cfg, init, steps);
            Stuck(s) ==>
              && Finished(s)
              && AllArrived(cfg, us, init.shared.files, s.shared.files)
              && (forall path ::
                    (forall i :: 0 <= i < |us| && (us[i].user, us[i].password) in cfg.users ==>
                       !Delivered(cfg, Home(cfg, us[i]), us[i].files, path)) ==>
                    SameFile(s.shared.files, init.shared.files, path))
  {
    hide Apply, Finished, Measure, Initial, Independent, Stuck, SameFile, Delivered, Overlay, Enabled;
    StartIsInitial(cfg, init, us);
    RunsAreBounded(cfg, init, steps);
    ModelledIsAnswerable(cfg, init);
    var s := After(cfg, init, steps);
    if Stuck(s) {
      StuckIffFinished(cfg, init, steps);
      AllArrive(cfg, init, us, steps);
      forall path |
        forall i :: 0 <= i < |us| && (us[i].user, us[i].password) in cfg.users ==>
          !Delivered(cfg, Home(cfg, us[i]), us[i].files, path)
        ensures SameFile(s.shared.files, init.shared.files, path)
      {
        UnnamedStays(cfg, init, us, steps, path);
      }
    }
  }

  lemma AllArrive(cfg: Config, init: System, us: seq<Uploader>, steps: seq<Step>)
    requires Start(cfg, init, us) && Initial(cfg, init) && Independent(cfg, init) && IsRun(cfg, init, steps)
    requires Stuck(After(cfg, init, steps))
    ensures AllArrived(cfg, us, init.shared.files, After(cfg, init, steps).shared.files)
  {
    hide Apply, Initial, Independent, Stuck, Start, Overlay, GoodUploader;
    var s := After(cfg, init, steps);
    forall i, j | 0 <= i < |us| && (us[i].user, us[i].password) in cfg.users && 0 <= j < Accepted(us[i].files)
      && StartPath(Home(cfg, us[i]), us[i].files[j].name) !in cfg.unopenable
      ensures var path := StartPath(Home(cfg, us[i]), us[i].files[j].name);
              path in s.shared.files &&
              s.shared.files[path] == Overlay(Content(init.shared.files, path), us[i].files[j].data)
    {
      OneUploadArrives(cfg, init, us, steps, i, j);
    }
  }

  /** A file that is uploader i's only to write ends as the uploader's run alone leaves it. */
  lemma OwnFile(cfg: Config, init: System, us: seq<Uploader>, steps: seq<Step>, i: nat, path: string)
    requires Start(cfg, init, us) && Initial(cfg, init) && Independent(cfg, init) && IsRun(cfg, init, steps)
    requires Stuck(After(cfg, init, steps))
    requires i < |us| && (us[i].user, us[i].password) in cfg.users && UploadsTo(cfg, us[i], path)
    ensures var session := LoggedInAs(cfg, us[i], FRESH);
            var alone := UploadedAll(cfg, us[i].files, session, FlagAfter(cfg, us[i], init.shared)).1.files;
            SameFile(After(cfg, init, steps).shared.files, alone, path)
  {
    hide Apply, Initial, Independent, Stuck, SoloStep, UploadsTo, WritesTo, GoodUploader, SameFile;
    StartPlan(cfg, init, us, i);
    var k := UploaderAlone(cfg, Alone(init, i), us[i]);
    forall c: nat, b: nat | c < |init.links| && c != i ensures path !in WritesTo(cfg, init, c, b) {
      if path in WritesTo(cfg, init, c, b) {
        WritesOwn(cfg, init, us, c, b, path);
      }
    }
    FileAsAlone(cfg, init, steps, i, k, path);
  }

  lemma OneUploadArrives(cfg: Config, init: System, us: seq<Uploader>, steps: seq<Step>, i: nat, j: nat)
    requires Start(cfg, init, us) && Initial(cfg, init) && Independent(cfg, init) && IsRun(cfg, init, steps)
    requires Stuck(After(cfg, init, steps))
    requires i < |us| && (us[i].user, us[i].password) in cfg.users && j < Accepted(us[i].files)
    requires StartPath(Home(cfg, us[i]), us[i].files[j].name) !in cfg.unopenable
    ensures var s := After(cfg, init, steps);
            var path := StartPath(Home(cfg, us[i]), us[i].files[j].name);
            path in s.shared.files &&
            s.shared.files[path] == Overlay(Content(init.shared.files, path), us[i].files[j].data)
  {
    hide Apply, Initial, Independent, Stuck, Start, Overlay, StartPath;
    var u := us[i];
    var path := StartPath(Home(cfg, u), u.files[j].name);
    StartPlan(cfg, init, us, i);
    OwnFile(cfg, init, us, steps, i, path);
    UploadedFiles(cfg, u.files, LoggedInAs(cfg, u, FRESH), FlagAfter(cfg, u, init.shared), path);
  }

  /** A file no upload arrives at is unchanged: either nobody writes it, or its one uploader does not get
      to it. */
  lemma UnnamedStays(cfg: Config, init: System, us: seq<Uploader>, steps: seq<Step>, path: string)
    requires Start(cfg, init, us) && Initial(cfg, init) && Independent(cfg, init) && IsRun(cfg, init, steps)
    requires Stuck(After(cfg, init, steps))
    requires forall i :: 0 <= i < |us| && (us[i].user, us[i].password) in cfg.users ==>
               !Delivered(cfg, Home(cfg, us[i]), us[i].files, path)
    ensures SameFile(After(cfg, init, steps).shared.files, init.shared.files, path)
  {
    hide Apply, Initial, Independent, Stuck, Start, StartPath, UploadsTo, SystemOk, WritesTo, DistinctPaths;
    if i: nat :| i < |us| && (us[i].user, us[i].password) in cfg.users && UploadsTo(cfg, us[i], path) {
      StartPlan(cfg, init, us, i);
      OwnFile(cfg, init, us, steps, i, path);
      UploadedFiles(cfg, us[i].files, LoggedInAs(cfg, us[i], FRESH), FlagAfter(cfg, us[i], init.shared), path);
    } else {
      StartCount(cfg, init, us);
      forall c: nat, b: nat | c < |init.links| ensures path !in WritesTo(cfg, init, c, b) {
        if path in WritesTo(cfg, init, c, b) {
          WritesOwn(cfg, init, us, c, b, path);
        }
      }
      StartOk(cfg, init);
      OtherFileStays(cfg, init, init, steps, path);
    }
  }

  lemma StartCount(cfg: Config, init: System, us: seq<Uploader>)
    requires Start(cfg, init, us)
    ensures |init.links| == |us|
  {
  }

  lemma StartPlan(cfg: Config, init: System, us: seq<Uploader>, i: nat)
    requires Start(cfg, init, us) && i < |us|
    ensures GoodUploader(cfg, us[i]) && Welcome(cfg, us[i], init.shared) && i < |init.links|
    ensures var alone := Alone(init, i);
            alone.client.fetch.NoFetch? && alone.client.plan == Plan(us[i]) && alone.shared == init.shared &&
            alone.sess == FRESH
  {
  }

  // ---------- each in a home of its own ----------

  /** Where user id's file of a given name is. */
  function FileOf(id: string, name: string): string {
    "./tmp/" + id + "/" + name
  }

  function IdOf(cfg: Config, u: Uploader): string
    requires (u.user, u.password) in cfg.users
  {
    cfg.users[(u.user, u.password)].id
  }

  /** Nothing is said of paths: the credentials are good, no file is empty, the names differ, and each path
      fits the buffer it is printed into. */
  ghost predicate Resident(cfg: Config, u: Uploader) {
    && FitsField(u.user, 64) && FitsField(u.password, 64)
    && (u.user, u.password) in cfg.users && Paths.GoodId(IdOf(cfg, u))
    && (forall j :: 0 <= j < |u.files| ==> Sendable(u.files[j]))
    && (forall j, k :: 0 <= j < k < |u.files| ==> u.files[j].name != u.files[k].name)
    && (forall j :: 0 <= j < |u.files| ==> |FileOf(IdOf(cfg, u), u.files[j].name)| <= 511)
  }

  /** Different users, just connected. */
  ghost predicate StartAtHome(cfg: Config, init: System, us: seq<Uploader>) {
    && Connected(cfg, init, us) && (forall i :: 0 <= i < |us| ==> Resident(cfg, us[i]))
    && (forall i, j :: 0 <= i < j < |us| ==> IdOf(cfg, us[i]) != IdOf(cfg, us[j]))
  }

  lemma PathIs(id: string, name: string)
    requires |FileOf(id, name)| <= 511
    ensures StartPath("./tmp" + "/" + id, name) == FileOf(id, name)
  {
    assert "./tmp" + "/" == "./tmp/";
    assert "./tmp" + "/" + id + "/" + name == "./tmp/" + id + "/" + name;
  }

  /** Files of different users are different files, whatever their names. */
  lemma OtherUsersFile(id: string, name: string, id': string, name': string)
    requires Paths.GoodId(id) && Paths.GoodId(id') && FileOf(id, name) == FileOf(id', name')
    ensures id == id' && name == name'
  {
    hide FileOf;
    var path := FileOf(id, name);
    IdInPath(id, name);
    IdInPath(id', name');
    assert |id| == |id'|;
    assert id == path[6..6 + |id|] == id' && name == path[7 + |id|..] == name';
  }

  /** The first slash after the common beginning ends the id. */
  lemma IdInPath(id: string, name: string)
    requires Paths.GoodId(id)
    ensures var path := FileOf(id, name);
            && |path| == 7 + |id| + |name| && path[6..6 + |id|] == id && path[7 + |id|..] == name
            && path[6 + |id|] == '/' && forall k :: 6 <= k < 6 + |id| ==> path[k] != '/'
  {
    var path := FileOf(id, name);
    forall k | 6 <= k < 6 + |id| ensures path[k] != '/' {
      assert path[k] == id[k - 6] && id[k - 6] in id;
    }
  }

  lemma ResidentIsGood(cfg: Config, u: Uploader)
    requires Resident(cfg, u)
    ensures GoodUploader(cfg, u)
    ensures forall j :: 0 <= j < |u.files| ==>
              StartPath(Home(cfg, u), u.files[j].name) == FileOf(IdOf(cfg, u), u.files[j].name)
  {
    hide StartPath, FileOf;
    forall j | 0 <= j < |u.files|
      ensures StartPath(Home(cfg, u), u.files[j].name) == FileOf(IdOf(cfg, u), u.files[j].name)
    {
      PathIs(IdOf(cfg, u), u.files[j].name);
    }
    forall j, k | 0 <= j < k < |u.files|
      ensures StartPath(Home(cfg, u), u.files[j].name) != StartPath(Home(cfg, u), u.files[k].name)
    {
      if FileOf(IdOf(cfg, u), u.files[j].name) == FileOf(IdOf(cfg, u), u.files[k].name) {
        OtherUsersFile(IdOf(cfg, u), u.files[j].name, IdOf(cfg, u), u.files[k].name);
      }
    }
  }

  /** That different users' uploads never meet follows from the paths the server makes. */
  lemma HomesAreApart(cfg: Config, init: System, us: seq<Uploader>)
    requires StartAtHome(cfg, init, us)
    ensures Start(cfg, init, us)
  {
    hide StartPath, FileOf, GoodUploader, Connected;
    forall i | 0 <= i < |us| ensures GoodUploader(cfg, us[i]) {
      ResidentIsGood(cfg, us[i]);
    }
    forall i, j, path | 0 <= i < |us| && 0 <= j < |us| && i != j && UploadsTo(cfg, us[i], path)
      ensures !UploadsTo(cfg, us[j], path)
    {
      ResidentIsGood(cfg, us[i]);
      ResidentIsGood(cfg, us[j]);
      if UploadsTo(cfg, us[j], path) {
        var a :| 0 <= a < |us[i].files| && path == StartPath(Home(cfg, us[i]), us[i].files[a].name);
        var b :| 0 <= b < |us[j].files| && path == StartPath(Home(cfg, us[j]), us[j].files[b].name);
        OtherUsersFile(IdOf(cfg, us[i]), us[i].files[a].name, IdOf(cfg, us[j]), us[j].files[b].name);
        assert false;
      }
    }
  }

  /** One of uploader u's files, sent before a name the server rejects, is path. */
  ghost predicate SentTo(cfg: Config, u: Uploader, path: string)
    requires (u.user, u.password) in cfg.users
  {
    exists j :: 0 <= j < Accepted(u.files) && path == FileOf(IdOf(cfg, u), u.files[j].name)
  }

  /** Different users upload at once: whatever the interleaving, each file sent before a rejected name ends
      under its user's own directory with that user's bytes over its old content, and no other file has
      changed. Nothing is assumed of where uploads go. */
  lemma UploadsAtHome(cfg: Config, init: System, us: seq<Uploader>, steps: seq<Step>)
    requires StartAtHome(cfg, init, us) && IsRun(cfg, init, steps)
    ensures |steps| <= Measure(init)
    ensures var s := After(cfg, init, steps);
            Stuck(s) ==>
              && Finished(s)
              && (forall i, j ::
                    0 <= i < |us| && (us[i].user, us[i].password) in cfg.users && 0 <= j < Accepted(us[i].files) &&
                    FileOf(IdOf(cfg, us[i]), us[i].files[j].name) !in cfg.unopenable ==>
                      var path := FileOf(IdOf(cfg, us[i]), us[i].files[j].name);
                      path in s.shared.files &&
                      s.shared.files[path] == Overlay(Content(init.shared.files, path), us[i].files[j].data))
              && (forall path ::
                    (forall i :: 0 <= i < |us| && (us[i].user, us[i].password) in cfg.users ==>
                       !SentTo(cfg, us[i], path)) ==>
                    SameFile(s.shared.files, init.shared.files, path))
  {
    hide Apply, Finished, Measure, Stuck, SameFile, Overlay, Enabled, StartPath, FileOf, Start, Resident, IsRun;
    HomesAreApart(cfg, init, us);
    ConcurrentUploads(cfg, init, us, steps);
    forall i | 0 <= i < |us|
      ensures forall j :: 0 <= j < |us[i].files| ==>
                StartPath(Home(cfg, us[i]), us[i].files[j].name) == FileOf(IdOf(cfg, us[i]), us[i].files[j].name)
    {
      ResidentIsGood(cfg, us[i]);
    }
    forall i, path | 0 <= i < |us| && !SentTo(cfg, us[i], path)
      ensures !Delivered(cfg, Home(cfg, us[i]), us[i].files, path)
    {
    }
  }

  /** Such a path is what it looks like: under ./tmp, in the user's directory, one component. */
  lemma FileIsAtHome(id: string, name: string)
    requires Paths.GoodId(id) && name != "" && Paths.IsValidFilename(name)
    ensures Paths.Split(FileOf(id, name), '/') == [".", "tmp", id, name]
  {
    hide Paths.IsValidFilename, Paths.Split, Paths.Rooted;
    var home := "./tmp" + "/" + id;
    Paths.HomeIsRooted(id);
    Paths.ValidNameAddsOneComponent(home, id, name);
    assert home + "/" + name == FileOf(id, name);
  }
}
