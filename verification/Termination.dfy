/** No schedule of lockstep clients runs for ever, and every run can be brought to its end: one measure
    goes down at every step of every thread. */
module Termination {
  import opened Protocol
  import opened Handlers
  import opened Clients
  import opened SoloRuns
  import opened Systems
  import opened Lockstep
  import opened Pipelines

  // ---------- a measure ----------

  const ROUND: nat := 1000000

  /** How far the connection's exchange still has to go. */
  function StageCost(l: Link): nat {
    match l.stage
    case AtClient => 900000
    case OnWire => 800000 + |l.up|
    case Stacked => 700020
    case Queued => 700010
    case AtWorker(_) => 700000
    case Unanswered => 0
    case Replying(_) => 400000 + |l.down|
    case Replied => 400000 + |l.down|
  }

  function LinkCost(l: Link): nat {
    ROUND * Budget(l.client) + StageCost(l)
  }

  function WorkerCost(x: Worker): nat {
    match x
    case Idle => 0
    case Took(_) => 2
    case Typed(_, _) => 1
    case Sending(_, rest) => 1 + 2 * |rest|
  }

  function LinksCost(links: seq<Link>): nat {
    if links == [] then 0 else LinkCost(links[0]) + LinksCost(links[1..])
  }

  function WorkersCost(workers: seq<Worker>): nat {
    if workers == [] then 0 else WorkerCost(workers[0]) + WorkersCost(workers[1..])
  }

  function Measure(s: System): nat {
    LinksCost(s.links) + WorkersCost(s.workers)
  }

  lemma {:induction false} LinksCostUpdate(links: seq<Link>, i: nat, l: Link)
    requires i < |links|
    ensures LinksCost(links[i := l]) == LinksCost(links) - LinkCost(links[i]) + LinkCost(l)
  {
    hide LinkCost;
    if i > 0 {
      LinksCostUpdate(links[1..], i - 1, l);
      assert links[i := l][1..] == links[1..][i - 1 := l];
    } else {
      assert links[i := l][1..] == links[1..];
    }
  }

  lemma {:induction false} WorkersCostUpdate(workers: seq<Worker>, w: nat, x: Worker)
    requires w < |workers|
    ensures WorkersCost(workers[w := x]) == WorkersCost(workers) - WorkerCost(workers[w]) + WorkerCost(x)
  {
    hide WorkerCost;
    if w > 0 {
      WorkersCostUpdate(workers[1..], w - 1, x);
      assert workers[w := x][1..] == workers[1..][w - 1 := x];
    } else {
      assert workers[w := x][1..] == workers[1..];
    }
  }

  /** One link changes and gets cheaper. */
  lemma LinkCheaper(s: System, t: System, i: nat, l: Link)
    requires i < |s.links| && t.links == s.links[i := l] && t.workers == s.workers
    requires LinkCost(l) < LinkCost(s.links[i])
    ensures Measure(t) < Measure(s)
  {
    hide LinkCost, WorkersCost;
    LinksCostUpdate(s.links, i, l);
  }

  /** One worker changes and gets cheaper. */
  lemma WorkerCheaper(s: System, t: System, w: nat, x: Worker)
    requires w < |s.workers| && t.links == s.links && t.workers == s.workers[w := x]
    requires WorkerCost(x) < WorkerCost(s.workers[w])
    ensures Measure(t) < Measure(s)
  {
    hide WorkerCost, LinksCost;
    WorkersCostUpdate(s.workers, w, x);
  }

  /** One link and one worker change, and together get cheaper. */
  lemma BothCheaper(s: System, t: System, i: nat, l: Link, w: nat, x: Worker)
    requires i < |s.links| && w < |s.workers| && t.links == s.links[i := l] && t.workers == s.workers[w := x]
    requires LinkCost(l) + WorkerCost(x) < LinkCost(s.links[i]) + WorkerCost(s.workers[w])
    ensures Measure(t) < Measure(s)
  {
    hide LinkCost, WorkerCost;
    LinksCostUpdate(s.links, i, l);
    WorkersCostUpdate(s.workers, w, x);
  }

  // ---------- every step goes down ----------

  lemma SendCost(cfg: Config, o: Oracle, s: System, i: nat)
    requires PipeOk(cfg, o, s) && Enabled(s, ClientSend(i))
    ensures Measure(Apply(cfg, s, ClientSend(i))) < Measure(s)
  {
    hide Budget, WorkerOk, JobsOk, Sound, Measure;
    ReadyRequest(cfg, o, s, i);
    assert LinkOk(o, i, s.links[i]);
    LinkCheaper(s, Apply(cfg, s, ClientSend(i)), i, Asking(s.links[i]));
  }

  lemma PollCost(cfg: Config, o: Oracle, s: System, i: nat, k: nat)
    requires PipeOk(cfg, o, s) && Enabled(s, Poll(i, k))
    ensures Measure(Apply(cfg, s, Poll(i, k))) < Measure(s)
  {
    hide Budget, WorkerOk, JobsOk, Sound, Measure, LinkOk, PollResult;
    PolledLink(o, i, s.links[i], k);
    LinkCheaper(s, Apply(cfg, s, Poll(i, k)), i, Polled(s.links[i], k));
  }

  lemma DispatchCost(cfg: Config, o: Oracle, s: System)
    requires PipeOk(cfg, o, s) && Enabled(s, Dispatch)
    ensures Measure(Apply(cfg, s, Dispatch)) < Measure(s)
  {
    hide Budget, WorkerOk, LinkOk, Sound, Measure;
    var job := s.stack[|s.stack| - 1];
    assert JobOk(s.links, job, Stacked);
    LinkCheaper(s, Apply(cfg, s, Dispatch), job.conn, s.links[job.conn].(stage := Queued));
  }

  lemma TakeCost(cfg: Config, o: Oracle, s: System, w: nat)
    requires PipeOk(cfg, o, s) && Enabled(s, Take(w))
    ensures Measure(Apply(cfg, s, Take(w))) < Measure(s)
  {
    hide Budget, WorkerOk, LinkOk, Sound, Measure;
    var job := s.queue[0];
    assert JobOk(s.links, job, Queued);
    BothCheaper(s, Apply(cfg, s, Take(w)), job.conn, s.links[job.conn].(stage := AtWorker(w)), w, Took(job));
  }

  lemma ReadTypeCost(cfg: Config, s: System, w: nat)
    requires Enabled(s, ReadType(w))
    ensures Measure(Apply(cfg, s, ReadType(w))) < Measure(s)
  {
    hide Measure;
    var job := s.workers[w].job;
    WorkerCheaper(s, Apply(cfg, s, ReadType(w)), w, Typed(job, LiveType(s.links[job.conn].buf)));
  }

  lemma TypedLink(o: Oracle, s: System, w: nat)
    requires Inv(o, s) && w < |s.workers| && s.workers[w].Typed?
    ensures s.workers[w].job.conn < |s.links|
    ensures s.links[s.workers[w].job.conn].stage == AtWorker(w) && s.links[s.workers[w].job.conn].down == []
  {
    assert WorkerOk(o, s.links, w, s.workers[w]);
    assert LinkOk(o, s.workers[w].job.conn, s.links[s.workers[w].job.conn]);
  }

  /** The reply still to be sent costs less than the way the request had left. */
  lemma ResultCost(l: Link, w: nat, x: Worker, out: Outcome)
    requires l.stage.AtWorker? && l.down == [] && x.Typed? && IsPacket(out.reply)
    ensures LinkCost(Executed(l, w, out)) + WorkerCost(Sending(x.job.conn, out.reply)) < LinkCost(l) + WorkerCost(x)
  {
    hide Budget;
  }

  lemma SettleCost(cfg: Config, o: Oracle, s: System, w: nat, out: Outcome)
    requires PipeOk(cfg, o, s) && Facing(s, w) && IsPacket(out.reply)
    ensures Measure(Settle(s, w, out)) < Measure(s)
  {
    hide Measure, LinkCost, WorkerCost, Inv, Sound;
    TypedLink(o, s, w);
    var i := s.workers[w].job.conn;
    ResultCost(s.links[i], w, s.workers[w], out);
    BothCheaper(s, Settle(s, w, out), i, Executed(s.links[i], w, out), w, Sending(i, out.reply));
  }

  lemma ExecuteCost(cfg: Config, o: Oracle, s: System, w: nat)
    requires PipeOk(cfg, o, s) && Enabled(s, Execute(w))
    ensures Measure(Apply(cfg, s, Execute(w))) < Measure(s)
  {
    hide Measure, PipeOk, Settle, Result, Onward, AtHandler;
    ModelledAnswers(cfg, o, s, w);
    SettleCost(cfg, o, s, w, Result(cfg, s, w));
  }

  lemma OtherCost(cfg: Config, o: Oracle, s: System, step: Step)
    requires PipeOk(cfg, o, s) && Enabled(s, step) && step.ExecuteOther?
    ensures Measure(Apply(cfg, s, step)) < Measure(s)
  {
    hide Measure, PipeOk, Settle, OtherResult, Onward, AtHandler;
    OtherAnswers(cfg, o, s, step.w, step.io, step.download, step.files);
    SettleCost(cfg, o, s, step.w, OtherResult(s, step.w, step.io, step.download, step.files));
  }

  lemma IgnoreCost(cfg: Config, o: Oracle, s: System, w: nat)
    requires PipeOk(cfg, o, s) && Enabled(s, Ignore(w))
    ensures Measure(Apply(cfg, s, Ignore(w))) < Measure(s)
  {
    hide Measure, Inv, Sound, Budget;
    TypedLink(o, s, w);
    var i := s.workers[w].job.conn;
    BothCheaper(s, Apply(cfg, s, Ignore(w)), i, s.links[i].(stage := Unanswered), w, Sending(i, []));
  }

  lemma PieceCost(l: Link, x: Worker, k: nat)
    requires l.stage.Replying? && x.Sending? && 0 < k <= |x.rest|
    ensures LinkCost(Fed(l, x.rest, k)) + WorkerCost(Sending(x.conn, x.rest[k..])) < LinkCost(l) + WorkerCost(x)
  {
    hide Budget;
  }

  lemma SendingLink(o: Oracle, s: System, w: nat)
    requires Inv(o, s) && w < |s.workers| && s.workers[w].Sending? && s.workers[w].rest != []
    ensures s.workers[w].conn < |s.links| && s.links[s.workers[w].conn].stage == Replying(w)
  {
    assert WorkerOk(o, s.links, w, s.workers[w]);
  }

  lemma TransmitCost(cfg: Config, o: Oracle, s: System, w: nat, k: nat)
    requires PipeOk(cfg, o, s) && Enabled(s, Transmit(w, k))
    ensures Measure(Apply(cfg, s, Transmit(w, k))) < Measure(s)
  {
    hide Measure, LinkCost, WorkerCost, Inv, Sound;
    SendingLink(o, s, w);
    var Sending(i, rest) := s.workers[w];
    PieceCost(s.links[i], s.workers[w], k);
    BothCheaper(s, Apply(cfg, s, Transmit(w, k)), i, Fed(s.links[i], rest, k), w, Sending(i, rest[k..]));
  }

  lemma FinishCost(cfg: Config, s: System, w: nat)
    requires Enabled(s, Finish(w))
    ensures Measure(Apply(cfg, s, Finish(w))) < Measure(s)
  {
    hide Measure;
    WorkerCheaper(s, Apply(cfg, s, Finish(w)), w, Idle);
  }

  lemma RecvCost(cfg: Config, o: Oracle, s: System, i: nat, k: nat)
    requires PipeOk(cfg, o, s) && Enabled(s, ClientRecv(i, k))
    ensures Measure(Apply(cfg, s, ClientRecv(i, k))) < Measure(s)
  {
    hide Budget, WorkerOk, JobsOk, Sound, Measure;
    assert LinkOk(o, i, s.links[i]);
    LinkCheaper(s, Apply(cfg, s, ClientRecv(i, k)), i, Read(s.links[i], k));
  }

  lemma MovedCost(l: Link)
    requires l.phase.Waiting? && IsPacket(l.phase.got) && Request(l.client).Some? && l.stage == Replied
    requires l.client.fetch.Fetching? ==> l.client.fetch.next < l.client.fetch.chunks
    ensures LinkCost(Moved(l)) < LinkCost(l)
  {
    hide Budget, Advance;
    AdvanceSpends(l.client, l.phase.got);
  }

  /** The client of a connection whose reply is in has one of the oracle's states. */
  lemma RepliedClient(cfg: Config, o: Oracle, s: System, i: nat)
    requires PipeOk(cfg, o, s) && i < |s.links| && s.links[i].stage == Replied
    ensures var fetch := s.links[i].client.fetch; fetch.Fetching? ==> fetch.next < fetch.chunks
  {
    hide WorkerOk, JobsOk, MovesOn, GoodPlan;
    assert LinkOk(o, i, s.links[i]) && SoundAt(cfg, o, i, s.links[i].served);
  }

  lemma DoneCost(cfg: Config, o: Oracle, s: System, i: nat)
    requires PipeOk(cfg, o, s) && Enabled(s, ClientDone(i))
    ensures Measure(Apply(cfg, s, ClientDone(i))) < Measure(s)
  {
    hide Measure, LinkCost, Inv, Sound;
    ReplyIsWhole(o, s, i);
    RepliedClient(cfg, o, s, i);
    MovedCost(s.links[i]);
    LinkCheaper(s, Apply(cfg, s, ClientDone(i)), i, Moved(s.links[i]));
  }

  lemma StepDecreases(cfg: Config, o: Oracle, s: System, step: Step)
    requires PipeOk(cfg, o, s) && Enabled(s, step)
    ensures Measure(Apply(cfg, s, step)) < Measure(s)
  {
    hide Measure, Apply, PipeOk;
    match step
    case ClientSend(i) => SendCost(cfg, o, s, i);
    case Poll(i, k) => PollCost(cfg, o, s, i, k);
    case Dispatch => DispatchCost(cfg, o, s);
    case Take(w) => TakeCost(cfg, o, s, w);
    case ReadType(w) => ReadTypeCost(cfg, s, w);
    case Execute(w) => ExecuteCost(cfg, o, s, w);
    case ExecuteOther(_, _, _, _) => OtherCost(cfg, o, s, step);
    case Ignore(w) => IgnoreCost(cfg, o, s, w);
    case Transmit(w, k) => TransmitCost(cfg, o, s, w, k);
    case Finish(w) => FinishCost(cfg, s, w);
    case ClientRecv(i, k) => RecvCost(cfg, o, s, i, k);
    case ClientDone(i) => DoneCost(cfg, o, s, i);
  }

  lemma {:induction false} RunBound(cfg: Config, o: Oracle, s: System, steps: seq<Step>)
    requires PipeOk(cfg, o, s) && IsRun(cfg, s, steps)
    ensures |steps| <= Measure(s)
    decreases |steps|
  {
    hide Measure, Apply, PipeOk;
    if steps != [] {
      StepDecreases(cfg, o, s, steps[0]);
      var p := StepExtends(cfg, o, s, steps[0]);
      RunBound(cfg, p, Apply(cfg, s, steps[0]), steps[1..]);
    }
  }

  // ---------- every run ends ----------

  /** One bound, read off the clients' commands, holds for every run from a given start. */
  lemma RunsAreBounded(cfg: Config, init: System, steps: seq<Step>)
    requires Initial(cfg, init) && IsRun(cfg, init, steps)
    ensures |steps| <= Measure(init)
  {
    hide Measure, Apply, PipeOk;
    var none: seq<Step> := [];
    var o := Reachable(cfg, init, none);
    RunBound(cfg, o, init, steps);
  }

  lemma {:induction false} CanFinish(cfg: Config, o: Oracle, s: System) returns (more: seq<Step>)
    requires PipeOk(cfg, o, s) && AllAnswerable(s.links)
    ensures IsRun(cfg, s, more) && Finished(After(cfg, s, more))
    decreases Measure(s)
  {
    hide Measure, Apply, PipeOk, Finished, Enabled, AllAnswerable;
    more := [];
    var step := Progress(cfg, o, s);
    if !Finished(s) {
      StepDecreases(cfg, o, s, step);
      AnswerableStays(cfg, s, step);
      var p := StepExtends(cfg, o, s, step);
      var rest := CanFinish(cfg, p, Apply(cfg, s, step));
      more := [step] + rest;
      assert more[1..] == rest;
    }
  }

  /** Whatever has happened so far, the system can be run on to the end. */
  lemma RunsCanFinish(cfg: Config, init: System, steps: seq<Step>) returns (more: seq<Step>)
    requires Initial(cfg, init) && AllAnswerable(init.links) && IsRun(cfg, init, steps)
    ensures IsRun(cfg, After(cfg, init, steps), more) && Finished(After(cfg, After(cfg, init, steps), more))
  {
    hide Apply, PipeOk, Finished, AllAnswerable;
    AnswerableRun(cfg, init, steps);
    var o := Reachable(cfg, init, steps);
    more := CanFinish(cfg, o, After(cfg, init, steps));
  }
}
