/** The handlers of an interleaved run, one after another as they take effect, are a run of the sessions: what
    holds of sessions whose requests are handled one at a time holds in the concurrent server.
    Source: src/server/client_controller.cpp:477-490 under src/server/main.cpp:25-38. */
module Histories {
  import opened Protocol
  import opened Handlers
  import opened Clients
  import opened SoloRuns
  import opened Systems
  import opened Lockstep
  import opened Pipelines
  import Sessions

  /** All connections' sessions and the shared state. */
  ghost function HouseOf(s: System): Sessions.House {
    Sessions.House(seq(|s.links|, i requires 0 <= i < |s.links| => s.links[i].sess), s.shared)
  }

  /** The request a step handles. */
  ghost function EventOf(s: System, step: Step): seq<Sessions.Event>
    requires Enabled(s, step)
  {
    if step.Execute? then [Sessions.Event(s.workers[step.w].job.conn, s.workers[step.w].job.data)] else []
  }

  /** The requests a run handles, in order. */
  ghost function EventsOf(cfg: Config, s: System, steps: seq<Step>): seq<Sessions.Event>
    requires IsRun(cfg, s, steps)
    decreases |steps|
  {
    if steps == [] then []
    else EventOf(s, steps[0]) + EventsOf(cfg, Apply(cfg, s, steps[0]), steps[1..])
  }

  lemma {:induction false} RunCons(cfg: Config, h: Sessions.House, e: Sessions.Event, es: seq<Sessions.Event>)
    requires Sessions.Allowed(h, e) && Sessions.IsRun(cfg, Sessions.Step(cfg, h, e), es)
    ensures Sessions.IsRun(cfg, h, [e] + es)
    ensures Sessions.After(cfg, h, [e] + es) == Sessions.After(cfg, Sessions.Step(cfg, h, e), es)
    decreases |es|
  {
    hide Sessions.Step, Sessions.Allowed;
    var none: seq<Sessions.Event> := [];
    if es == [] {
      assert ([e] + es)[..0] == none && [e] + es == [e];
    } else {
      var last := |es| - 1;
      RunCons(cfg, h, e, es[..last]);
      assert ([e] + es)[..|es|] == [e] + es[..last];
    }
  }

  // ---------- only modelled requests ----------

  /** No client has a request left whose handler is not modelled in full. */
  ghost predicate OnlyModelled(links: seq<Link>) {
    forall i :: 0 <= i < |links| ==> AllModelled(links[i].client.plan)
  }

  lemma ModelledStays(cfg: Config, s: System, step: Step)
    requires OnlyModelled(s.links) && Enabled(s, step)
    ensures OnlyModelled(Apply(cfg, s, step).links)
  {
    hide Apply, Enabled, Advance, Modelled, Asks;
    var t := Apply(cfg, s, step);
    LinksStay(cfg, s, step);
    forall i | 0 <= i < |t.links| ensures AllModelled(t.links[i].client.plan) {
      LinkStays(cfg, s, step, i);
      if step == ClientDone(i) {
        MovedOn(s, i);
      }
    }
  }

  lemma LinksStay(cfg: Config, s: System, step: Step)
    requires Enabled(s, step)
    ensures |Apply(cfg, s, step).links| == |s.links|
  {
    hide Handle;
  }

  lemma MovedOn(s: System, i: nat)
    requires Enabled(s, ClientDone(i))
    ensures Asks(Advance(s.links[i].client, s.links[i].phase.got).plan) <= Asks(s.links[i].client.plan)
  {
    hide Advance, Asks;
    AdvanceAsks(s.links[i].client, s.links[i].phase.got);
  }

  /** Then only modelled handlers run. */
  lemma HandlesModelled(cfg: Config, o: Oracle, s: System, step: Step)
    requires PipeOk(cfg, o, s) && OnlyModelled(s.links) && Enabled(s, step)
    ensures !step.ExecuteOther?
  {
    hide Inv, Sound, SoloOk, Advance, Asks, OtherMay;
    if step.ExecuteOther? {
      var i := s.workers[step.w].job.conn;
      HandlerFaces(cfg, o, s, step.w);
      HeldRequest(o, s, step.w);
      AdvanceAsks(s.links[i].client, Sample(RESP_OK));
    }
  }

  // ---------- one step ----------

  /** A handler is one event, and no other step is any. */
  lemma StepIsEvent(cfg: Config, o: Oracle, s: System, step: Step)
    requires PipeOk(cfg, o, s) && Enabled(s, step) && !step.ExecuteOther?
    ensures if step.Execute? then
              var e := EventOf(s, step)[0];
              Sessions.Allowed(HouseOf(s), e) && HouseOf(Apply(cfg, s, step)) == Sessions.Step(cfg, HouseOf(s), e)
            else HouseOf(Apply(cfg, s, step)) == HouseOf(s)
  {
    hide Handle, Inv, Sound, SoloOk, Advance, Apply;
    LinksStay(cfg, s, step);
    SharedStays(cfg, s, step);
    forall i | 0 <= i < |s.links|
      ensures Apply(cfg, s, step).links[i].sess ==
              if step.Execute? && s.workers[step.w].job.conn == i then Result(cfg, s, step.w).sess else s.links[i].sess
    {
      SessionMoves(cfg, s, step, i);
    }
    if step.Execute? {
      HandlerFaces(cfg, o, s, step.w);
    }
  }

  lemma SharedStays(cfg: Config, s: System, step: Step)
    requires Enabled(s, step) && !step.ExecuteOther?
    ensures Apply(cfg, s, step).shared == if step.Execute? then Result(cfg, s, step.w).shared else s.shared
  {
    hide Handle, Advance, PollResult;
  }

  lemma SessionMoves(cfg: Config, s: System, step: Step, i: nat)
    requires Enabled(s, step) && !step.ExecuteOther? && i < |s.links|
    ensures i < |Apply(cfg, s, step).links|
    ensures Apply(cfg, s, step).links[i].sess ==
            if step.Execute? && s.workers[step.w].job.conn == i then Result(cfg, s, step.w).sess else s.links[i].sess
  {
    hide Handle, Advance, PollResult;
  }

  // ---------- every run ----------

  lemma {:induction false} RunIsHistory(cfg: Config, o: Oracle, s: System, steps: seq<Step>)
    requires PipeOk(cfg, o, s) && OnlyModelled(s.links) && IsRun(cfg, s, steps)
    ensures Sessions.IsRun(cfg, HouseOf(s), EventsOf(cfg, s, steps))
    ensures Sessions.After(cfg, HouseOf(s), EventsOf(cfg, s, steps)) == HouseOf(After(cfg, s, steps))
    decreases |steps|
  {
    hide PipeOk, Apply, Enabled, OnlyModelled, HouseOf, Sessions.Step, Sessions.Allowed;
    if steps != [] {
      var t := Apply(cfg, s, steps[0]);
      HandlesModelled(cfg, o, s, steps[0]);
      StepIsEvent(cfg, o, s, steps[0]);
      ModelledStays(cfg, s, steps[0]);
      var p := StepExtends(cfg, o, s, steps[0]);
      RunIsHistory(cfg, p, t, steps[1..]);
      if steps[0].Execute? {
        RunCons(cfg, HouseOf(s), EventOf(s, steps[0])[0], EventsOf(cfg, t, steps[1..]));
      } else {
        assert [] + EventsOf(cfg, t, steps[1..]) == EventsOf(cfg, t, steps[1..]);
      }
    }
  }

  /** In every interleaving the sessions and the shared state are what the requests handled so far, one at a
      time in the order in which they were handled, make of them. */
  lemma HandledInOrder(cfg: Config, init: System, steps: seq<Step>)
    requires Initial(cfg, init) && OnlyModelled(init.links) && IsRun(cfg, init, steps)
    ensures Sessions.IsRun(cfg, HouseOf(init), EventsOf(cfg, init, steps))
    ensures Sessions.After(cfg, HouseOf(init), EventsOf(cfg, init, steps)) == HouseOf(After(cfg, init, steps))
  {
    hide PipeOk, Apply, OnlyModelled, HouseOf;
    var none: seq<Step> := [];
    var o := Reachable(cfg, init, none);
    RunIsHistory(cfg, o, init, steps);
  }

  /** So in every interleaving of clients just connected, whoever they are, a session is user x's if and only
      if its own client has been let in as x and not been out or in since; and it is in that user's tree. */
  lemma LoggedInConcurrently(cfg: Config, init: System, steps: seq<Step>, i: nat, x: string)
    requires Initial(cfg, init) && OnlyModelled(init.links) && IsRun(cfg, init, steps) && GoodIds(cfg)
    requires !init.shared.adminConnected && forall j :: 0 <= j < |init.links| ==> init.links[j].sess == FRESH
    requires i < |init.links| && x != ""
    ensures var opening := Sessions.Opening(|init.links|, init.shared.files);
            var es := EventsOf(cfg, init, steps);
            && Sessions.IsRun(cfg, opening, es) && i < |After(cfg, init, steps).links|
            && (After(cfg, init, steps).links[i].sess.id == x <==> Sessions.InAs(cfg, opening, es, i, x))
            && SessionRooted(After(cfg, init, steps).links[i].sess)
  {
    hide Apply, OnlyModelled, Initial, Sessions.InAs, SessionRooted;
    HandledInOrder(cfg, init, steps);
    var opening := Sessions.Opening(|init.links|, init.shared.files);
    OpeningIs(init);
    var es := EventsOf(cfg, init, steps);
    Sessions.LoggedInIff(cfg, |init.links|, init.shared.files, es, i, x);
    FreshIsRooted(|init.links|, init.shared.files);
    Sessions.RunKeepsRoot(cfg, opening, es);
    assert HouseOf(After(cfg, init, steps)).sessions[i] == After(cfg, init, steps).links[i].sess;
  }

  lemma OpeningIs(init: System)
    requires !init.shared.adminConnected && forall j :: 0 <= j < |init.links| ==> init.links[j].sess == FRESH
    ensures HouseOf(init) == Sessions.Opening(|init.links|, init.shared.files)
  {
  }

  lemma FreshIsRooted(n: nat, files: Disk)
    ensures Sessions.AllRooted(Sessions.Opening(n, files))
  {
  }
}
