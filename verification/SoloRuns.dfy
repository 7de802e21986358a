/** One client alone with a server: request, handler, reply, in turn. What such a run leaves behind
    is the meaning every interleaved run is compared with. Source: src/client/main.cpp:41-73 against
    src/server/client_controller.cpp:477-490. */
module SoloRuns {
  import opened Protocol
  import opened Handlers
  import opened Clients

  datatype Solo = Solo(client: Client, sess: Session, shared: Shared)

  function Served(cfg: Config, s: Solo): Outcome
    requires Request(s.client).Some? && |Request(s.client).value| >= HEADER_SIZE
    requires Modelled(Request(s.client).value[1])
  {
    var req := Request(s.client).value;
    Handle(cfg, req[1], req, s.sess, s.shared)
  }

  /** A request is out and one packet answers it. */
  predicate Live(cfg: Config, s: Solo) {
    && Request(s.client).Some?
    && IsPacket(Request(s.client).value)
    && Modelled(Request(s.client).value[1])
    && IsPacket(Served(cfg, s).reply)
  }

  function SoloStep(cfg: Config, s: Solo): Solo {
    if !Live(cfg, s) then s
    else
      var out := Served(cfg, s);
      Solo(Advance(s.client, out.reply), out.sess, out.shared)
  }

  function SoloRun(cfg: Config, s: Solo, k: nat): Solo {
    if k == 0 then s else SoloStep(cfg, SoloRun(cfg, s, k - 1))
  }

  /** The files the next step may read or change, and those it may change. */
  function SoloFoot(cfg: Config, s: Solo): set<string> {
    if !Live(cfg, s) then {}
    else Footprint(cfg, Request(s.client).value[1], Request(s.client).value, s.sess)
  }

  function SoloWrites(cfg: Config, s: Solo): set<string> {
    if !Live(cfg, s) then {}
    else Writes(cfg, Request(s.client).value[1], Request(s.client).value, s.sess)
  }

  lemma {:induction false} SoloRunAdd(cfg: Config, s: Solo, a: nat, b: nat)
    ensures SoloRun(cfg, s, a + b) == SoloRun(cfg, SoloRun(cfg, s, a), b)
    decreases b
  {
    hide SoloStep;
    if b > 0 {
      SoloRunAdd(cfg, s, a, b - 1);
    }
  }

  lemma OneStep(cfg: Config, s: Solo)
    ensures SoloRun(cfg, s, 1) == SoloStep(cfg, s)
  {
    hide SoloStep;
    assert SoloRun(cfg, s, 0) == s;
  }

  /** Commands already empty make no difference to what comes next. */
  lemma SkippedStep(cfg: Config, s: Solo, plan: seq<Packets>)
    requires s.client.fetch.NoFetch? && Skip(s.client.plan) == Skip(plan) && Request(s.client).Some?
    requires Live(cfg, s)
    ensures SoloStep(cfg, s) == SoloStep(cfg, s.(client := s.client.(plan := plan)))
  {
    hide Handle;
    var t := s.(client := s.client.(plan := plan));
    assert Request(t.client) == Request(s.client);
    assert Served(cfg, t) == Served(cfg, s);
  }

  lemma SkippedLive(cfg: Config, s: Solo, t: Solo)
    requires s.client.fetch == t.client.fetch && Skip(s.client.plan) == Skip(t.client.plan)
    requires s.sess == t.sess && s.shared == t.shared && Live(cfg, t)
    ensures Live(cfg, s) && Request(s.client) == Request(t.client)
  {
    hide Handle;
    assert Served(cfg, t) == Served(cfg, s);
  }

  /** A command with nothing left to send makes no difference to the run. */
  lemma SpentFirst(cfg: Config, s: Solo, more: seq<Packets>, k: nat)
    requires s.client.fetch.NoFetch? && s.client.plan == [[]] + more
    requires k > 0 && Live(cfg, s.(client := s.client.(plan := more)))
    ensures SoloRun(cfg, s, k) == SoloRun(cfg, s.(client := s.client.(plan := more)), k)
  {
    hide Handle, Live, SoloStep;
    var t := s.(client := s.client.(plan := more));
    assert ([[]] + more)[1..] == more;
    SkippedLive(cfg, s, t);
    LiveAsks(cfg, s);
    SkippedStep(cfg, s, more);
    OneStep(cfg, s);
    OneStep(cfg, t);
    SoloRunAdd(cfg, s, 1, k - 1);
    SoloRunAdd(cfg, t, 1, k - 1);
  }

  lemma LiveAsks(cfg: Config, s: Solo)
    requires Live(cfg, s)
    ensures Request(s.client).Some?
  {
    hide Handle;
  }

  /** A step leaves files it does not write alone. */
  lemma SoloFrame(cfg: Config, s: Solo, path: string)
    requires path !in SoloWrites(cfg, s)
    ensures SameFile(SoloStep(cfg, s).shared.files, s.shared.files, path)
  {
    if Live(cfg, s) {
      var req := Request(s.client).value;
      HandleFrame(cfg, req[1], req, s.sess, s.shared, path);
    }
  }

  lemma {:induction false} SoloFileStays(cfg: Config, s: Solo, k: nat, path: string)
    requires forall b: nat :: path !in SoloWrites(cfg, SoloRun(cfg, s, b))
    ensures SameFile(SoloRun(cfg, s, k).shared.files, s.shared.files, path)
  {
    hide SoloStep, SoloWrites;
    if k > 0 {
      SoloFileStays(cfg, s, k - 1, path);
      SoloFrame(cfg, SoloRun(cfg, s, k - 1), path);
    }
  }

  // ---------- what the client may ask ----------

  /** A request of a type get_packet_type lets through, built outside the download loop. */
  predicate ClientPacket(p: seq<byte>) {
    IsPacket(p) && p[1] <= RESP_FILE_LIST && p[1] != REQ_FILE_DOWNLOAD_CHUNK
  }

  ghost predicate GoodPlan(plan: seq<Packets>) {
    forall p :: p in Asks(plan) ==> ClientPacket(p)
  }

  /** The session is no administrator's and no login still to come is to an administrator's account. */
  ghost predicate Ordinary(cfg: Config, s: Solo) {
    !s.sess.admin && forall p :: p in Asks(s.client.plan) && |p| >= HEADER_SIZE ==> !AdminLogin(cfg, p[1], p)
  }

  /** An administrator's client does not ask for the settings: that reply is longer than it says. */
  ghost predicate SettingsOk(cfg: Config, s: Solo) {
    forall p :: p in Asks(s.client.plan) && |p| >= HEADER_SIZE && p[1] == REQ_GET_SETTINGS ==> Ordinary(cfg, s)
  }

  /** The commands hold only requests in range, none answered by more than one packet, and a download loop
      has its file open on the server. Nothing is asked of the files. */
  ghost predicate SoloOk(cfg: Config, s: Solo) {
    && GoodPlan(s.client.plan) && SettingsOk(cfg, s)
    && (s.client.fetch.Fetching? ==>
          s.sess.id != "" && s.sess.download.File? && s.client.fetch.next < s.client.fetch.chunks)
  }

  /** Every request still to come is one whose handler is modelled in full. */
  ghost predicate AllModelled(plan: seq<Packets>) {
    forall p :: p in Asks(plan) && |p| >= HEADER_SIZE ==> Modelled(p[1])
  }

  ghost predicate SoloFit(cfg: Config, s: Solo) {
    SoloOk(cfg, s) && AllModelled(s.client.plan)
  }

  lemma RequestIsPacket(cfg: Config, s: Solo)
    requires SoloOk(cfg, s) && Request(s.client).Some?
    ensures IsPacket(Request(s.client).value) && Request(s.client).value[1] <= RESP_FILE_LIST
    ensures s.client.fetch.NoFetch? ==> Request(s.client).value in Asks(s.client.plan)
  {
    hide Advance, Ordinary;
    AdvanceAsks(s.client, Sample(RESP_OK));
  }

  lemma RequestIsGood(cfg: Config, s: Solo)
    requires SoloOk(cfg, s) && Request(s.client).Some? && |Request(s.client).value| >= HEADER_SIZE
    requires Modelled(Request(s.client).value[1])
    ensures Live(cfg, s)
  {
    hide Handle, Advance, Ordinary;
    var req := Request(s.client).value;
    AdvanceAsks(s.client, Sample(RESP_OK));
    ReplyIsOnePacket(cfg, req[1], req, s.sess, s.shared);
  }

  lemma FitRequest(cfg: Config, s: Solo)
    requires SoloFit(cfg, s) && Request(s.client).Some?
    ensures Live(cfg, s)
  {
    hide Live, SoloOk;
    RequestIsPacket(cfg, s);
    RequestIsGood(cfg, s);
  }

  lemma OpenedMeansOpen(cfg: Config, req: seq<byte>, sess: Session, shared: Shared)
    requires IsPacket(req) && Modelled(req[1]) && req[1] != REQ_FILE_DOWNLOAD_CHUNK
    requires var out := Handle(cfg, req[1], req, sess, shared);
             IsPacket(out.reply) && out.reply[1] == RESP_FILE_OPENED
    ensures var out := Handle(cfg, req[1], req, sess, shared);
            out.sess.id != "" && out.sess.download.File?
  {
  }

  lemma ChunkKeepsOpen(cfg: Config, req: seq<byte>, sess: Session, shared: Shared)
    requires sess.id != "" && sess.download.File?
    ensures var out := Handle(cfg, REQ_FILE_DOWNLOAD_CHUNK, req, sess, shared);
            out.sess.id != "" && out.sess.download.File?
  {
  }

  /** Response accounting, one request at a time: each modelled request of a client's run is answered by
      exactly one packet, and the premises for saying so hold again afterwards. */
  lemma SoloOkStep(cfg: Config, s: Solo)
    requires SoloOk(cfg, s)
    ensures Request(s.client).Some? ==>
              |Request(s.client).value| >= HEADER_SIZE && (Modelled(Request(s.client).value[1]) ==> Live(cfg, s))
    ensures SoloOk(cfg, SoloStep(cfg, s))
  {
    hide Handle, Ordinary;
    if Request(s.client).Some? {
      RequestIsPacket(cfg, s);
      var req := Request(s.client).value;
      if Modelled(req[1]) {
        RequestIsGood(cfg, s);
        SettingsStep(cfg, s);
        var reply := Served(cfg, s).reply;
        AdvanceAsks(s.client, reply);
        if s.client.fetch.Fetching? {
          ChunkKeepsOpen(cfg, req, s.sess, s.shared);
        } else if reply[1] == RESP_FILE_OPENED {
          OpenedMeansOpen(cfg, req, s.sess, s.shared);
        }
      }
    }
  }

  lemma SettingsStep(cfg: Config, s: Solo)
    requires SettingsOk(cfg, s) && Live(cfg, s)
    ensures SettingsOk(cfg, SoloStep(cfg, s))
  {
    hide Handle, Ordinary, Advance;
    AdvanceAsks(s.client, Served(cfg, s).reply);
    if Ordinary(cfg, s) {
      OrdinaryStep(cfg, s);
    }
  }

  lemma {:induction false} SoloOkRun(cfg: Config, s: Solo, k: nat)
    requires SoloOk(cfg, s)
    ensures SoloOk(cfg, SoloRun(cfg, s, k))
  {
    hide SoloOk, SoloStep;
    if k > 0 {
      SoloOkRun(cfg, s, k - 1);
      SoloOkStep(cfg, SoloRun(cfg, s, k - 1));
    }
  }

  lemma {:induction false} FitRun(cfg: Config, s: Solo, k: nat)
    requires SoloFit(cfg, s)
    ensures SoloFit(cfg, SoloRun(cfg, s, k))
  {
    hide SoloFit, SoloStep;
    if k > 0 {
      FitRun(cfg, s, k - 1);
      FitStep(cfg, SoloRun(cfg, s, k - 1));
    }
  }

  lemma FitStep(cfg: Config, s: Solo)
    requires SoloFit(cfg, s)
    ensures SoloFit(cfg, SoloStep(cfg, s))
  {
    hide Handle, SoloOk, Advance;
    SoloOkStep(cfg, s);
    if Live(cfg, s) {
      AdvanceAsks(s.client, Served(cfg, s).reply);
    }
  }

  lemma OrdinaryRequest(cfg: Config, s: Solo)
    requires Ordinary(cfg, s) && Live(cfg, s)
    ensures !AdminLogin(cfg, Request(s.client).value[1], Request(s.client).value)
  {
    hide Handle, Advance;
    AdvanceAsks(s.client, Sample(RESP_OK));
  }

  lemma OrdinaryStep(cfg: Config, s: Solo)
    requires Ordinary(cfg, s)
    ensures Ordinary(cfg, SoloStep(cfg, s))
  {
    hide Handle;
    if Live(cfg, s) {
      var req := Request(s.client).value;
      OrdinaryRequest(cfg, s);
      PlainLeavesFlag(cfg, req[1], req, s.sess, s.shared);
      AdvanceAsks(s.client, Served(cfg, s).reply);
    }
  }

  lemma {:induction false} OrdinaryRun(cfg: Config, s: Solo, k: nat)
    requires Ordinary(cfg, s)
    ensures Ordinary(cfg, SoloRun(cfg, s, k))
  {
    hide Ordinary, SoloStep;
    if k > 0 {
      OrdinaryRun(cfg, s, k - 1);
      OrdinaryStep(cfg, SoloRun(cfg, s, k - 1));
    }
  }

  // ---------- a run ends ----------

  lemma SoloSpends(cfg: Config, s: Solo)
    requires SoloFit(cfg, s) && Request(s.client).Some?
    ensures Budget(SoloStep(cfg, s).client) < Budget(s.client)
  {
    hide Handle, Ordinary;
    FitRequest(cfg, s);
    AdvanceSpends(s.client, Served(cfg, s).reply);
  }

  /** The client's commands come to an end whatever it is answered. */
  lemma {:induction false} SoloFinishes(cfg: Config, s: Solo) returns (k: nat)
    requires SoloFit(cfg, s)
    ensures Request(SoloRun(cfg, s, k).client).None?
    decreases Budget(s.client)
  {
    hide SoloStep, SoloFit, Budget;
    if Request(s.client).None? {
      k := 0;
    } else {
      FitStep(cfg, s);
      SoloSpends(cfg, s);
      var j := SoloFinishes(cfg, SoloStep(cfg, s));
      k := 1 + j;
      OneStep(cfg, s);
      SoloRunAdd(cfg, s, 1, j);
    }
  }

  lemma {:induction false} SoloStays(cfg: Config, s: Solo, k: nat)
    requires Request(s.client).None?
    ensures SoloRun(cfg, s, k) == s
  {
    hide Handle;
    if k > 0 {
      SoloStays(cfg, s, k - 1);
    }
  }

  lemma OverStays(cfg: Config, s: Solo, a: nat, b: nat)
    requires a <= b && Request(SoloRun(cfg, s, a).client).None?
    ensures SoloRun(cfg, s, a) == SoloRun(cfg, s, b)
  {
    hide SoloStep;
    SoloRunAdd(cfg, s, a, b - a);
    SoloStays(cfg, SoloRun(cfg, s, a), b - a);
  }

  /** A run has only one end. */
  lemma SameEnd(cfg: Config, s: Solo, a: nat, b: nat)
    requires Request(SoloRun(cfg, s, a).client).None? && Request(SoloRun(cfg, s, b).client).None?
    ensures SoloRun(cfg, s, a) == SoloRun(cfg, s, b)
  {
    hide SoloStep;
    if a <= b {
      OverStays(cfg, s, a, b);
    } else {
      OverStays(cfg, s, b, a);
    }
  }
}
