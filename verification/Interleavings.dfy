/** Clients that do not meddle with one another's files: every interleaving gives each of them what its
    own run alone would have given it. */
module Interleavings {
  import opened Protocol
  import opened Sequences
  import opened Handlers
  import opened Clients
  import opened SoloRuns
  import opened Systems
  import opened Lockstep
  import opened Pipelines

  function SoloReply(cfg: Config, s: Solo): seq<byte> {
    if Live(cfg, s) then Served(cfg, s).reply else []
  }

  /** The run client i would have alone, from the same start. */
  ghost function Expected(cfg: Config, init: System): Oracle {
    Oracle((i: nat, k: nat) => SoloRun(cfg, Alone(init, i), k),
           (i: nat, k: nat) => SoloReply(cfg, SoloRun(cfg, Alone(init, i), k)))
  }

  /** The files request k of client i's run alone touches, and those it writes. */
  ghost function Touches(cfg: Config, init: System, i: nat, k: nat): set<string> {
    SoloFoot(cfg, SoloRun(cfg, Alone(init, i), k))
  }

  ghost function WritesTo(cfg: Config, init: System, i: nat, k: nat): set<string> {
    SoloWrites(cfg, SoloRun(cfg, Alone(init, i), k))
  }

  /** No client's run alone would ever write a file that another's would open, read or write. */
  ghost predicate Disjoint(cfg: Config, init: System) {
    forall i: nat, j: nat, a: nat, b: nat, path ::
      i < |init.links| && j < |init.links| && i != j && path in WritesTo(cfg, init, i, a) ==>
        path !in Touches(cfg, init, j, b)
  }

  /** Clients that share nothing: no file one of them writes, and not the administrator's flag, which at most
      one of them may have to do with. Their requests are ones whose effect is modelled. */
  ghost predicate Independent(cfg: Config, init: System) {
    && Disjoint(cfg, init)
    && (forall i, j :: 0 <= i < j < |init.links| ==> Ordinary(cfg, Alone(init, i)) || Ordinary(cfg, Alone(init, j)))
    && (forall i :: 0 <= i < |init.links| ==> AllModelled(init.links[i].client.plan))
  }

  /** The flag agrees with the run alone of the one client that may have to do with it. */
  ghost predicate FlagOk(cfg: Config, init: System, links: seq<Link>, flag: bool) {
    forall i :: 0 <= i < |links| && !Ordinary(cfg, Alone(init, i)) ==>
      flag == SoloRun(cfg, Alone(init, i), links[i].served).shared.adminConnected
  }

  /** The real files agree with each client's run alone on every file that run ever touches. */
  ghost predicate FilesOk(cfg: Config, init: System, links: seq<Link>, files: Disk) {
    forall i: nat, k: nat, path ::
      i < |links| && path in Touches(cfg, init, i, k) ==>
        SameFile(files, SoloRun(cfg, Alone(init, i), links[i].served).shared.files, path)
  }

  ghost predicate SystemOk(cfg: Config, init: System, s: System) {
    && |s.links| == |init.links| && |s.workers| == |init.workers|
    && PipeOk(cfg, Expected(cfg, init), s)
    && FilesOk(cfg, init, s.links, s.shared.files)
    && FlagOk(cfg, init, s.links, s.shared.adminConnected)
  }

  lemma ZeroSteps(cfg: Config, s: Solo, k: nat)
    ensures k == 0 ==> SoloRun(cfg, s, k) == s
  {
  }

  lemma StartOk(cfg: Config, init: System)
    requires Initial(cfg, init)
    ensures SystemOk(cfg, init, init)
  {
    hide PipeOk, SoloStep, SoloOk, Ordinary;
    forall i: nat | i < |init.links| ensures SoloRun(cfg, Alone(init, i), 0) == Alone(init, i) {
      ZeroSteps(cfg, Alone(init, i), 0);
    }
    InitialOk(cfg, Expected(cfg, init), init);
  }

  // ---------- one step ----------

  lemma AloneFit(cfg: Config, init: System, i: nat, k: nat)
    requires Initial(cfg, init) && Independent(cfg, init) && i < |init.links|
    ensures SoloFit(cfg, SoloRun(cfg, Alone(init, i), k))
  {
    hide SoloOk, SoloStep, Disjoint, Ordinary, AllModelled;
    FitRun(cfg, Alone(init, i), k);
  }

  /** The oracle of the runs alone is sound all along. */
  lemma ExpectedSound(cfg: Config, init: System, i: nat, k: nat)
    requires Initial(cfg, init) && Independent(cfg, init) && i < |init.links|
    ensures SoundAt(cfg, Expected(cfg, init), i, k)
  {
    hide SoloOk, SoloStep, Advance, Independent, Initial, AllModelled;
    AloneFit(cfg, init, i, k);
    if k > 0 {
      AloneFit(cfg, init, i, k - 1);
      var t := SoloRun(cfg, Alone(init, i), k - 1);
      if Request(t.client).Some? {
        AloneMovesOn(cfg, t);
      }
    }
  }

  lemma AloneMovesOn(cfg: Config, t: Solo)
    requires SoloFit(cfg, t) && Request(t.client).Some?
    ensures Live(cfg, t) && SoloReply(cfg, t) == Served(cfg, t).reply
    ensures SoloStep(cfg, t).client == Advance(t.client, SoloReply(cfg, t))
    ensures SoloStep(cfg, t).sess == Served(cfg, t).sess
  {
    hide SoloFit, Handle, Advance;
    FitRequest(cfg, t);
  }

  /** A request of a client's run, served on other shared files that agree on what it touches, and on the
      flag if it has to do with it. */
  lemma ServedElsewhere(cfg: Config, t: Solo, data: seq<byte>, shared: Shared)
    requires Live(cfg, t) && Request(t.client) == Some(data)
    requires Ordinary(cfg, t) || shared.adminConnected == t.shared.adminConnected
    requires forall path :: path in SoloFoot(cfg, t) ==> SameFile(shared.files, t.shared.files, path)
    ensures var out := Handle(cfg, data[1], data, t.sess, shared);
            && out.sess == SoloStep(cfg, t).sess && out.reply == SoloReply(cfg, t) && IsPacket(out.reply)
            && SoloFoot(cfg, t) == Footprint(cfg, data[1], data, t.sess)
            && SoloWrites(cfg, t) == Writes(cfg, data[1], data, t.sess)
            && (shared.adminConnected == t.shared.adminConnected ==>
                  out.shared.adminConnected == SoloStep(cfg, t).shared.adminConnected)
            && (forall path :: path in SoloFoot(cfg, t) ==>
                  SameFile(out.shared.files, SoloStep(cfg, t).shared.files, path))
  {
    hide Handle, Advance, Footprint, Writes, Ordinary, SameFile, AdminLogin;
    if Ordinary(cfg, t) {
      OrdinaryLeaves(cfg, t);
    }
    HandleLocal(cfg, data[1], data, t.sess, shared, t.shared);
  }

  lemma OrdinaryLeaves(cfg: Config, t: Solo)
    requires Ordinary(cfg, t) && Live(cfg, t)
    ensures LeavesFlag(cfg, Request(t.client).value[1], Request(t.client).value, t.sess)
  {
    hide AdminLogin, Handle;
    OrdinaryRequest(cfg, t);
  }

  /** An ordinary client's handler leaves the flag. */
  lemma OrdinaryKeepsFlag(cfg: Config, t: Solo, data: seq<byte>, shared: Shared)
    requires Ordinary(cfg, t) && Live(cfg, t) && Request(t.client) == Some(data)
    ensures Handle(cfg, data[1], data, t.sess, shared).shared.adminConnected == shared.adminConnected
  {
    hide Handle, Ordinary;
    OrdinaryLeaves(cfg, t);
    PlainLeavesFlag(cfg, data[1], data, t.sess, shared);
  }

  /** What the handler of worker w faces is where its client's run alone is. */
  lemma AtExpected(cfg: Config, init: System, s: System, w: nat)
    requires Initial(cfg, init) && Independent(cfg, init) && SystemOk(cfg, init, s) && Enabled(s, Execute(w))
    ensures var i := s.workers[w].job.conn;
            var t := SoloRun(cfg, Alone(init, i), s.links[i].served);
            && i < |init.links| && Live(cfg, t) && Request(t.client) == Some(s.workers[w].job.data)
            && s.links[i].sess == t.sess && s.workers[w].command == s.workers[w].job.data[1]
            && (Ordinary(cfg, Alone(init, i)) ==> Ordinary(cfg, t))
  {
    hide Inv, Sound, Handle, Ordinary, SoloOk, SoloStep, FilesOk, FlagOk, Independent, Initial, Live, AllModelled;
    var i := s.workers[w].job.conn;
    PendingIsExpected(Expected(cfg, init), s, w);
    AloneFit(cfg, init, i, s.links[i].served);
    FitRequest(cfg, SoloRun(cfg, Alone(init, i), s.links[i].served));
    if Ordinary(cfg, Alone(init, i)) {
      OrdinaryRun(cfg, Alone(init, i), s.links[i].served);
    }
  }

  /** The handler sees what its client's run alone sees, so it does the same, to the same files. */
  lemma HandlersAgree(cfg: Config, init: System, s: System, w: nat)
    requires Initial(cfg, init) && Independent(cfg, init) && SystemOk(cfg, init, s) && Enabled(s, Execute(w))
    ensures HandlerAgrees(Expected(cfg, init), s, w, Result(cfg, s, w))
    ensures var i := s.workers[w].job.conn;
            var k := s.links[i].served;
            var out := Result(cfg, s, w);
            && WritesTo(cfg, init, i, k) == Writes(cfg, s.workers[w].command, s.workers[w].job.data, s.links[i].sess)
            && (forall path :: path in Touches(cfg, init, i, k) ==>
                  SameFile(out.shared.files, SoloRun(cfg, Alone(init, i), k + 1).shared.files, path))
  {
    hide Inv, Sound, Handle, Ordinary, SoloStep, SoloFoot, SoloWrites, SoloReply, Live, SameFile, Writes;
    hide Independent, Initial;
    var i := s.workers[w].job.conn;
    AtExpected(cfg, init, s, w);
    var t := SoloRun(cfg, Alone(init, i), s.links[i].served);
    forall path | path in SoloFoot(cfg, t) ensures SameFile(s.shared.files, t.shared.files, path) {
      assert path in Touches(cfg, init, i, s.links[i].served);
    }
    ServedElsewhere(cfg, t, s.workers[w].job.data, s.shared);
  }

  /** The flag goes on agreeing: an ordinary client's handler leaves it, and of the others there is one. */
  lemma ExecuteFlag(cfg: Config, init: System, s: System, w: nat)
    requires Initial(cfg, init) && Independent(cfg, init) && SystemOk(cfg, init, s) && Enabled(s, Execute(w))
    ensures var t := Settle(s, w, Result(cfg, s, w));
            FlagOk(cfg, init, t.links, t.shared.adminConnected)
  {
    hide PipeOk, Handle, Ordinary, SoloStep, SoloFoot, SoloWrites, SoloReply, Live, SameFile, Settle, Disjoint;
    hide Initial, AllModelled;
    var i := s.workers[w].job.conn;
    AtExpected(cfg, init, s, w);
    SettleEffect(s, w, Result(cfg, s, w));
    var t := SoloRun(cfg, Alone(init, i), s.links[i].served);
    if Ordinary(cfg, Alone(init, i)) {
      OrdinaryKeepsFlag(cfg, t, s.workers[w].job.data, s.shared);
    } else {
      forall path | path in SoloFoot(cfg, t) ensures SameFile(s.shared.files, t.shared.files, path) {
        assert path in Touches(cfg, init, i, s.links[i].served);
      }
      ServedElsewhere(cfg, t, s.workers[w].job.data, s.shared);
    }
  }

  ghost predicate Untouched(a: Disk, b: Disk, foot: set<string>) {
    forall path :: path !in foot ==> SameFile(a, b, path)
  }

  /** What another client reads and writes is out of reach of request k of client i. */
  ghost predicate Apart(cfg: Config, init: System, i: nat, k: nat) {
    forall j: nat, b: nat, path ::
      j < |init.links| && j != i && path in Touches(cfg, init, j, b) ==> path !in WritesTo(cfg, init, i, k)
  }

  /** One handler has run for link i, and has written no file another link's run touches. */
  lemma FilesAfter(cfg: Config, init: System, links: seq<Link>, files: Disk, links': seq<Link>, files': Disk,
                   i: nat, k: nat)
    requires FilesOk(cfg, init, links, files) && i < |links| && k == links[i].served
    requires |links'| == |links| == |init.links| && links'[i].served == k + 1
    requires forall j :: 0 <= j < |links| && j != i ==> links'[j].served == links[j].served
    requires forall path :: path in Touches(cfg, init, i, k) ==>
               SameFile(files', SoloRun(cfg, Alone(init, i), k + 1).shared.files, path)
    requires Untouched(files', files, WritesTo(cfg, init, i, k))
    requires WritesTo(cfg, init, i, k) <= Touches(cfg, init, i, k)
    requires Apart(cfg, init, i, k)
    ensures FilesOk(cfg, init, links', files')
  {
    hide Touches, WritesTo, SoloStep;
    forall j: nat, b: nat, path | j < |links'| && path in Touches(cfg, init, j, b)
      ensures SameFile(files', SoloRun(cfg, Alone(init, j), links'[j].served).shared.files, path)
    {
      assert SameFile(files, SoloRun(cfg, Alone(init, j), links[j].served).shared.files, path);
      if path !in WritesTo(cfg, init, i, k) {
        assert SameFile(files', files, path);
        ExpectedFrame(cfg, init, i, k, path);
      }
    }
  }

  lemma ExpectedFrame(cfg: Config, init: System, i: nat, k: nat, path: string)
    requires path !in WritesTo(cfg, init, i, k)
    ensures SameFile(SoloRun(cfg, Alone(init, i), k + 1).shared.files,
                     SoloRun(cfg, Alone(init, i), k).shared.files, path)
  {
    hide SoloStep, SoloWrites;
    SoloFrame(cfg, SoloRun(cfg, Alone(init, i), k), path);
  }

  lemma HandlerFrame(cfg: Config, s: System, w: nat)
    requires Enabled(s, Execute(w))
    ensures var job := s.workers[w].job;
            Untouched(Result(cfg, s, w).shared.files, s.shared.files,
                      Writes(cfg, s.workers[w].command, job.data, s.links[job.conn].sess))
  {
    hide Handle, Writes;
    var job := s.workers[w].job;
    forall path | path !in Writes(cfg, s.workers[w].command, job.data, s.links[job.conn].sess)
      ensures SameFile(Result(cfg, s, w).shared.files, s.shared.files, path)
    {
      HandleFrame(cfg, s.workers[w].command, job.data, s.links[job.conn].sess, s.shared, path);
    }
  }

  lemma WritesAreTouched(cfg: Config, init: System, i: nat, k: nat)
    ensures WritesTo(cfg, init, i, k) <= Touches(cfg, init, i, k)
  {
    hide Handle;
  }

  lemma DisjointApart(cfg: Config, init: System, i: nat, k: nat)
    requires Disjoint(cfg, init) && i < |init.links|
    ensures Apart(cfg, init, i, k)
  {
    hide Touches, WritesTo;
  }

  lemma ExecuteFiles(cfg: Config, init: System, s: System, w: nat)
    requires Initial(cfg, init) && Independent(cfg, init) && SystemOk(cfg, init, s) && Enabled(s, Execute(w))
    ensures var t := Settle(s, w, Result(cfg, s, w));
            FilesOk(cfg, init, t.links, t.shared.files)
  {
    hide Handle, Settle, PipeOk, Touches, WritesTo, Writes, HandlerAgrees, Untouched, Result, Apart, SoloStep;
    hide FlagOk, Ordinary, AllModelled, Initial;
    var i := s.workers[w].job.conn;
    var k := s.links[i].served;
    var t := Settle(s, w, Result(cfg, s, w));
    HandlersAgree(cfg, init, s, w);
    SettleEffect(s, w, Result(cfg, s, w));
    HandlerFrame(cfg, s, w);
    WritesAreTouched(cfg, init, i, k);
    DisjointApart(cfg, init, i, k);
    FilesAfter(cfg, init, s.links, s.shared.files, t.links, t.shared.files, i, k);
  }

  /** Steps that run no handler leave the files, the flag and the served counts alone. */
  lemma OtherFiles(cfg: Config, init: System, s: System, step: Step)
    requires Enabled(s, step) && !step.Execute? && !step.ExecuteOther?
    requires FilesOk(cfg, init, s.links, s.shared.files) && FlagOk(cfg, init, s.links, s.shared.adminConnected)
    ensures var t := Apply(cfg, s, step);
            FilesOk(cfg, init, t.links, t.shared.files) && FlagOk(cfg, init, t.links, t.shared.adminConnected)
  {
    hide Apply, Enabled, Touches, SoloStep, Ordinary;
    ServedStays(cfg, s, step);
  }

  /** No other handler runs. */
  lemma OnlyModelled(cfg: Config, init: System, s: System, step: Step)
    requires Initial(cfg, init) && Independent(cfg, init) && SystemOk(cfg, init, s) && Enabled(s, step)
    ensures !step.ExecuteOther?
  {
    hide Inv, Sound, FilesOk, FlagOk, SoloStep, SoloFit, Independent, Initial, Live, OtherMay;
    if step.ExecuteOther? {
      var i := s.workers[step.w].job.conn;
      PendingIsExpected(Expected(cfg, init), s, step.w);
      AloneFit(cfg, init, i, s.links[i].served);
      FitIsModelled(cfg, SoloRun(cfg, Alone(init, i), s.links[i].served));
    }
  }

  lemma FitIsModelled(cfg: Config, t: Solo)
    requires SoloFit(cfg, t) && Request(t.client).Some?
    ensures |Request(t.client).value| >= HEADER_SIZE && Modelled(Request(t.client).value[1])
  {
    hide Handle, SoloFit;
    FitRequest(cfg, t);
  }

  lemma ExecuteKeepsAll(cfg: Config, init: System, s: System, w: nat)
    requires Initial(cfg, init) && Independent(cfg, init) && SystemOk(cfg, init, s) && Enabled(s, Execute(w))
    ensures SystemOk(cfg, init, Settle(s, w, Result(cfg, s, w)))
  {
    hide Settle, PipeOk, FilesOk, FlagOk, HandlerAgrees, SoundAt, Touches, WritesTo;
    hide Result, Independent, Initial, Live, Ordinary, SoloStep, OtherMay;
    var i := s.workers[w].job.conn;
    HandlersAgree(cfg, init, s, w);
    ExecuteFiles(cfg, init, s, w);
    ExecuteFlag(cfg, init, s, w);
    SettleEffect(s, w, Result(cfg, s, w));
    AtExpected(cfg, init, s, w);
    ExpectedSound(cfg, init, i, s.links[i].served + 1);
    HandlerKeeps(cfg, Expected(cfg, init), s, w, Result(cfg, s, w));
  }

  lemma StepKeeps(cfg: Config, init: System, s: System, step: Step)
    requires Initial(cfg, init) && Independent(cfg, init) && SystemOk(cfg, init, s) && Enabled(s, step)
    ensures SystemOk(cfg, init, Apply(cfg, s, step))
  {
    hide PipeOk, FilesOk, FlagOk, Settle, Result, Independent, Initial;
    OnlyModelled(cfg, init, s, step);
    if step.Execute? {
      ExecuteKeepsAll(cfg, init, s, step.w);
    } else {
      OtherStepOk(cfg, init, s, step);
    }
  }

  lemma OtherStepOk(cfg: Config, init: System, s: System, step: Step)
    requires SystemOk(cfg, init, s) && Enabled(s, step) && !step.Execute? && !step.ExecuteOther?
    ensures SystemOk(cfg, init, Apply(cfg, s, step))
  {
    hide Apply, Enabled, PipeOk, FilesOk, FlagOk;
    ServedStays(cfg, s, step);
    OtherFiles(cfg, init, s, step);
    OtherStepKeeps(cfg, Expected(cfg, init), s, step);
  }

  lemma {:induction false} RunFrom(cfg: Config, init: System, s: System, steps: seq<Step>)
    requires Initial(cfg, init) && Independent(cfg, init) && SystemOk(cfg, init, s) && IsRun(cfg, s, steps)
    ensures SystemOk(cfg, init, After(cfg, s, steps))
    decreases |steps|
  {
    hide Apply, SystemOk;
    if steps != [] {
      StepKeeps(cfg, init, s, steps[0]);
      RunFrom(cfg, init, Apply(cfg, s, steps[0]), steps[1..]);
    }
  }

  lemma RunOk(cfg: Config, init: System, steps: seq<Step>)
    requires Initial(cfg, init) && Independent(cfg, init) && IsRun(cfg, init, steps)
    ensures SystemOk(cfg, init, After(cfg, init, steps))
  {
    hide SystemOk;
    StartOk(cfg, init);
    RunFrom(cfg, init, init, steps);
  }

  // ---------- the theorems ----------

  lemma LinkIsExpected(o: Oracle, s: System, i: nat)
    requires Inv(o, s) && i < |s.links|
    ensures s.links[i].sess == o.solo(i, s.links[i].served).sess
    ensures s.links[i].phase.Ready? ==> s.links[i].client == o.solo(i, s.links[i].served).client
  {
    assert LinkOk(o, i, s.links[i]);
  }

  /** In every interleaving, each client's session, and the client itself whenever it is between
      exchanges, are what its own run alone gives after the same number of requests; and so are all
      the files that run ever touches. */
  lemma AsIfAlone(cfg: Config, init: System, steps: seq<Step>, i: nat)
    requires Initial(cfg, init) && Independent(cfg, init) && IsRun(cfg, init, steps) && i < |init.links|
    ensures var s := After(cfg, init, steps);
            && |s.links| == |init.links|
            && var l := s.links[i];
               var alone := SoloRun(cfg, Alone(init, i), l.served);
               && l.sess == alone.sess
               && (l.phase.Ready? ==> l.client == alone.client)
               && (forall k: nat, path :: path in Touches(cfg, init, i, k) ==>
                     SameFile(s.shared.files, alone.shared.files, path))
  {
    hide Inv, Sound, SameFile, Touches, SoloStep, Independent, Initial, Apply, FlagOk;
    RunOk(cfg, init, steps);
    LinkIsExpected(Expected(cfg, init), After(cfg, init, steps), i);
  }

  lemma ModelledIsAnswerable(cfg: Config, init: System)
    requires Independent(cfg, init)
    ensures AllAnswerable(init.links)
  {
    hide Disjoint, Ordinary;
  }

  /** A run that no step can extend is finished: client i and its session are what its run alone ends
      with, however long that is looked at, and so is every file that run touches. */
  lemma MaximalRunsComplete(cfg: Config, init: System, steps: seq<Step>, i: nat, k: nat)
    requires Initial(cfg, init) && Independent(cfg, init) && IsRun(cfg, init, steps)
    requires Stuck(After(cfg, init, steps))
    requires i < |init.links| && Request(SoloRun(cfg, Alone(init, i), k).client).None?
    ensures var s := After(cfg, init, steps);
            var alone := SoloRun(cfg, Alone(init, i), k);
            && Finished(s) && |s.links| == |init.links|
            && s.links[i].client == alone.client && s.links[i].sess == alone.sess
            && (forall j: nat, path :: path in Touches(cfg, init, i, j) ==>
                  SameFile(s.shared.files, alone.shared.files, path))
  {
    hide SameFile, Touches, SoloStep, Independent, Initial, Apply, Stuck;
    var s := After(cfg, init, steps);
    ModelledIsAnswerable(cfg, init);
    StuckIffFinished(cfg, init, steps);
    AsIfAlone(cfg, init, steps, i);
    SameEnd(cfg, Alone(init, i), s.links[i].served, k);
  }

  /** A file no client's run alone writes is never changed, in any interleaving. */
  lemma {:induction false} OtherFileStays(cfg: Config, init: System, s: System, steps: seq<Step>, path: string)
    requires Initial(cfg, init) && Independent(cfg, init) && SystemOk(cfg, init, s) && IsRun(cfg, s, steps)
    requires forall i: nat, k: nat :: i < |init.links| ==> path !in WritesTo(cfg, init, i, k)
    ensures SameFile(After(cfg, s, steps).shared.files, s.shared.files, path)
    decreases |steps|
  {
    hide Apply, SystemOk, WritesTo, Independent, Initial;
    if steps != [] {
      StepKeeps(cfg, init, s, steps[0]);
      StepLeavesFile(cfg, init, s, steps[0], path);
      OtherFileStays(cfg, init, Apply(cfg, s, steps[0]), steps[1..], path);
    }
  }

  lemma StepLeavesFile(cfg: Config, init: System, s: System, step: Step, path: string)
    requires Initial(cfg, init) && Independent(cfg, init) && SystemOk(cfg, init, s) && Enabled(s, step)
    requires forall i: nat, k: nat :: i < |init.links| ==> path !in WritesTo(cfg, init, i, k)
    ensures SameFile(Apply(cfg, s, step).shared.files, s.shared.files, path)
  {
    hide PipeOk, FilesOk, FlagOk, WritesTo, Touches, Writes, HandlerAgrees, Result, Settle, Independent, Initial;
    OnlyModelled(cfg, init, s, step);
    if step.Execute? {
      HandlersAgree(cfg, init, s, step.w);
      AtExpected(cfg, init, s, step.w);
      HandlerFrame(cfg, s, step.w);
      SettleEffect(s, step.w, Result(cfg, s, step.w));
    } else {
      ServedStays(cfg, s, step);
    }
  }

  /** At the end, a file that only client i may have written is what client i's run alone makes of it,
      whether that run touches it or not. */
  lemma FileAsAlone(cfg: Config, init: System, steps: seq<Step>, i: nat, k: nat, path: string)
    requires Initial(cfg, init) && Independent(cfg, init) && IsRun(cfg, init, steps)
    requires Stuck(After(cfg, init, steps))
    requires i < |init.links| && Request(SoloRun(cfg, Alone(init, i), k).client).None?
    requires forall j: nat, b: nat :: j < |init.links| && j != i ==> path !in WritesTo(cfg, init, j, b)
    ensures SameFile(After(cfg, init, steps).shared.files, SoloRun(cfg, Alone(init, i), k).shared.files, path)
  {
    hide SystemOk, SoloStep, SoloWrites, SoloFoot, Independent, Initial, Stuck, SameFile, Apply, Finished;
    if b: nat :| path in Touches(cfg, init, i, b) {
      MaximalRunsComplete(cfg, init, steps, i, k);
    } else {
      UntouchedAsAlone(cfg, init, steps, i, k, path);
    }
  }

  lemma UntouchedAsAlone(cfg: Config, init: System, steps: seq<Step>, i: nat, k: nat, path: string)
    requires Initial(cfg, init) && Independent(cfg, init) && IsRun(cfg, init, steps) && i < |init.links|
    requires forall b: nat :: path !in Touches(cfg, init, i, b)
    requires forall j: nat, b: nat :: j < |init.links| && j != i ==> path !in WritesTo(cfg, init, j, b)
    ensures SameFile(After(cfg, init, steps).shared.files, SoloRun(cfg, Alone(init, i), k).shared.files, path)
  {
    hide SystemOk, SoloStep, SoloWrites, SoloFoot, Independent, Initial, Apply;
    forall j: nat, b: nat | j < |init.links| ensures path !in WritesTo(cfg, init, j, b) {
      WritesAreTouched(cfg, init, j, b);
    }
    forall b: nat ensures path !in SoloWrites(cfg, SoloRun(cfg, Alone(init, i), b)) {
      assert path !in WritesTo(cfg, init, i, b);
    }
    StartOk(cfg, init);
    OtherFileStays(cfg, init, init, steps, path);
    SoloFileStays(cfg, Alone(init, i), k, path);
  }
}
