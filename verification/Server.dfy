/** The server thread: polling the connection list with erasure in passing, handing completed packets to
    the pool last-in first-out, and taking in accepted connections, turn after turn.
    Source: src/server/main.cpp:25-38, 68-82, 85-197, src/server/state.hpp:8-21. */
module Server {
  import opened Protocol
  import opened Sequences
  import opened Framing
  import opened Connection

  /** What the network has for one recv on a non-blocking connection, and what recv comes back with. */
  datatype RecvResult = Data(bytes: seq<byte>) | Again | LostConnection | Closed

  datatype Completed = Completed(conn: ConnectionWrapper, data: seq<byte>)

  /** One call of recv: on which connection, and what it came back with. */
  datatype Recv = Recv(conn: ConnectionWrapper, result: RecvResult)

  /** A connection's receive state at some moment. */
  datatype Snapshot = Snapshot(buf: seq<byte>, pos: nat, received: seq<byte>, framed: seq<seq<byte>>)

  predicate Keeps(r: RecvResult) {
    r.Data? || r.Again?
  }

  /** recv with room for so many bytes. Asked for none while there is data it returns 0, as for a closed
      connection; with no data it may do that, which is offering Closed, or say to try again. */
  function RecvOf(offer: RecvResult, room: nat): RecvResult {
    match offer
    case Data(bytes) =>
      if room == 0 then Closed
      else if bytes == [] then Again
      else Data(if |bytes| <= room then bytes else bytes[..room])
    case _ => offer
  }

  function OfferAt(offers: seq<RecvResult>, v: nat): RecvResult {
    if v < |offers| then offers[v] else Again
  }

  ghost predicate Whole(s: Snapshot) {
    |s.buf| == BUFFER_SIZE && s.pos <= BUFFER_SIZE
  }

  ghost predicate Fits(s: Snapshot, r: RecvResult) {
    Whole(s) && (r.Data? ==> 0 < |r.bytes| && s.pos + |r.bytes| <= |s.buf|)
  }

  ghost predicate AllFit(was: seq<Snapshot>, results: seq<RecvResult>) {
    |was| == |results| && forall k :: 0 <= k < |was| ==> Fits(was[k], results[k])
  }

  /** What recv returns at each connection of the list. */
  ghost function Results(offers: seq<RecvResult>, was: seq<Snapshot>): (r: seq<RecvResult>)
    requires forall k :: 0 <= k < |was| ==> Whole(was[k])
    ensures AllFit(was, r)
  {
    seq(|was|, k requires 0 <= k < |was| && Whole(was[k]) => RecvOf(OfferAt(offers, k), BUFFER_SIZE - was[k].pos))
  }

  /** The connections a poll leaves in the list, in their old order. */
  ghost function Survivors(conns: seq<ConnectionWrapper>, results: seq<RecvResult>): (r: seq<ConnectionWrapper>)
    requires |conns| == |results|
  {
    if conns == [] then []
    else
      var n := |conns| - 1;
      Survivors(conns[..n], results[..n]) + (if Keeps(results[n]) then [conns[n]] else [])
  }

  ghost function Recvs(conns: seq<ConnectionWrapper>, results: seq<RecvResult>): (r: seq<Recv>)
    requires |conns| == |results|
    ensures |r| == |conns| && forall k :: 0 <= k < |r| ==> r[k] == Recv(conns[k], results[k])
  {
    seq(|conns|, k requires 0 <= k < |conns| => Recv(conns[k], results[k]))
  }

  /** Some recv on the connection has found it closed or lost. */
  ghost predicate Ended(polled: seq<Recv>, c: ConnectionWrapper) {
    exists k :: 0 <= k < |polled| && polled[k].conn == c &&
                (polled[k].result.Closed? || polled[k].result.LostConnection?)
  }

  /** How many calls of recv have been made on a connection. */
  ghost function Times(polled: seq<Recv>, c: ConnectionWrapper): nat {
    if polled == [] then 0
    else
      var n := |polled| - 1;
      Times(polled[..n], c) + (if polled[n].conn == c then 1 else 0)
  }

  /** The connections listed or about to be are those accepted that have not ended. */
  ghost predicate KeepsAll(known: set<ConnectionWrapper>, active: seq<ConnectionWrapper>,
                           pending: seq<ConnectionWrapper>, polled: seq<Recv>) {
    && (forall k :: 0 <= k < |polled| ==> polled[k].conn in known)
    && (forall c :: c in known ==> (c in active || c in pending <==> !Ended(polled, c)))
  }

  function Tagged(c: ConnectionWrapper, packets: seq<seq<byte>>): seq<Completed> {
    seq(|packets|, k requires 0 <= k < |packets| => Completed(c, packets[k]))
  }

  ghost function AfterRecv(s: Snapshot, r: RecvResult): Snapshot
    requires Fits(s, r)
  {
    if r.Data? then
      var d := Framing.Receive(s.buf, s.pos, r.bytes);
      Snapshot(d.buf, d.pos, s.received + r.bytes, s.framed + d.packets)
    else s
  }

  ghost function Cut(s: Snapshot, r: RecvResult): seq<seq<byte>>
    requires Fits(s, r)
  {
    if r.Data? then Framing.Receive(s.buf, s.pos, r.bytes).packets else []
  }

  /** The packets a poll completes: connections in list order, each one's packets in stream order. */
  ghost function Emitted(conns: seq<ConnectionWrapper>, was: seq<Snapshot>, results: seq<RecvResult>): seq<Completed>
    requires |conns| == |was| && AllFit(was, results)
  {
    if conns == [] then []
    else
      var n := |conns| - 1;
      Emitted(conns[..n], was[..n], results[..n]) + Tagged(conns[n], Cut(was[n], results[n]))
  }

  /** Each byte a connection receives is in its buffer or in exactly one packet it completed, in order. */
  lemma PollConservesBytes(s: Snapshot, r: RecvResult)
    requires Fits(s, r) && r.Data?
    ensures Concat(Cut(s, r)) + AfterRecv(s, r).buf[..AfterRecv(s, r).pos] == s.buf[..s.pos] + r.bytes
  {
    ReceiveRefinesParse(s.buf, s.pos, r.bytes);
    ParseConserves(s.buf[..s.pos] + r.bytes);
  }

  // ---------- what is handed over, connection by connection ----------

  /** The packets of one connection among those handed over, in order. */
  ghost function From(handed: seq<Completed>, c: ConnectionWrapper): seq<seq<byte>> {
    if handed == [] then []
    else
      var n := |handed| - 1;
      From(handed[..n], c) + (if handed[n].conn == c then [handed[n].data] else [])
  }

  lemma {:induction false} FromAppend(a: seq<Completed>, b: seq<Completed>, c: ConnectionWrapper)
    ensures From(a + b, c) == From(a, c) + From(b, c)
    decreases |b|
  {
    if b == [] {
      assert a + b == a;
    } else {
      var n := |b| - 1;
      assert (a + b)[..|a + b| - 1] == a + b[..n];
      FromAppend(a, b[..n], c);
      Regroup(From(a, c), From(b[..n], c), if b[n].conn == c then [b[n].data] else []);
    }
  }

  lemma {:induction false} FromTagged(c: ConnectionWrapper, packets: seq<seq<byte>>, d: ConnectionWrapper)
    ensures From(Tagged(c, packets), d) == if c == d then packets else []
    decreases |packets|
  {
    if packets != [] {
      var n := |packets| - 1;
      assert Tagged(c, packets)[..n] == Tagged(c, packets[..n]);
      FromTagged(c, packets[..n], d);
      assert packets == packets[..n] + [packets[n]];
    }
  }

  /** A connection just accepted has handed nothing over. */
  lemma {:induction false} NothingFrom(some: seq<Completed>, c: ConnectionWrapper)
    requires forall k :: 0 <= k < |some| ==> some[k].conn != c
    ensures From(some, c) == []
    decreases |some|
  {
    if some != [] {
      NothingFrom(some[..|some| - 1], c);
    }
  }

  ghost predicate NoRepeats(conns: seq<ConnectionWrapper>) {
    forall i, j :: 0 <= i < j < |conns| ==> conns[i] != conns[j]
  }

  /** A poll hands over, for each connection of the list, the packets cut there, and for no other any. */
  lemma {:induction false} FromEmitted(conns: seq<ConnectionWrapper>, was: seq<Snapshot>, results: seq<RecvResult>,
                                       c: ConnectionWrapper)
    requires |conns| == |was| && AllFit(was, results) && NoRepeats(conns)
    ensures c !in conns ==> From(Emitted(conns, was, results), c) == []
    ensures forall k :: 0 <= k < |conns| && conns[k] == c ==>
              From(Emitted(conns, was, results), c) == Cut(was[k], results[k])
    decreases |conns|
  {
    hide Cut, Fits, Tagged, From;
    if conns == [] {
      NothingFrom(Emitted(conns, was, results), c);
    } else {
      var n := |conns| - 1;
      var cut := Cut(was[n], results[n]);
      FromEmitted(conns[..n], was[..n], results[..n], c);
      FromAppend(Emitted(conns[..n], was[..n], results[..n]), Tagged(conns[n], cut), c);
      FromTagged(conns[n], cut, c);
      assert [] + cut == cut;
      assert conns[n] !in conns[..n];
    }
  }

  // ---------- the list ----------

  /** What one more visit does to the list and to the packets completed. */
  lemma ListStep(all: seq<ConnectionWrapper>, was: seq<Snapshot>, results: seq<RecvResult>, v: nat)
    requires |all| == |was| && AllFit(was, results) && v < |all|
    ensures var kept, list := Survivors(all[..v], results[..v]), Survivors(all[..v], results[..v]) + all[v..];
            var kept', list' := Survivors(all[..v + 1], results[..v + 1]),
                                Survivors(all[..v + 1], results[..v + 1]) + all[v + 1..];
            && list[|kept|] == all[v]
            && (if Keeps(results[v]) then list' == list && |kept'| == |kept| + 1
                else list' == list[..|kept|] + list[|kept| + 1..] && |kept'| == |kept|)
    ensures Emitted(all[..v + 1], was[..v + 1], results[..v + 1]) ==
            Emitted(all[..v], was[..v], results[..v]) + Tagged(all[v], Cut(was[v], results[v]))
    ensures !results[v].Data? ==>
              Emitted(all[..v + 1], was[..v + 1], results[..v + 1]) == Emitted(all[..v], was[..v], results[..v])
  {
    hide Fits;
    assert all[..v + 1][..v] == all[..v] && was[..v + 1][..v] == was[..v] && results[..v + 1][..v] == results[..v];
    var kept := Survivors(all[..v], results[..v]);
    assert all[v..] == [all[v]] + all[v + 1..];
    Regroup(kept, [all[v]], all[v + 1..]);
    ErasePast(kept, all[v], all[v + 1..]);
  }

  /** The iterator is at the end of the list only when every connection has been visited. */
  lemma AllVisited(all: seq<ConnectionWrapper>, was: seq<Snapshot>, results: seq<RecvResult>, v: nat)
    requires |all| == |was| && AllFit(was, results) && v <= |all|
    requires |Survivors(all[..v], results[..v])| >= |Survivors(all[..v], results[..v]) + all[v..]|
    ensures v == |all| && Survivors(all[..v], results[..v]) + all[v..] == Survivors(all, results)
    ensures Emitted(all[..v], was[..v], results[..v]) == Emitted(all, was, results)
  {
    assert all[..v] == all && was[..v] == was && results[..v] == results;
  }

  lemma ErasePast<T>(before: seq<T>, x: T, after: seq<T>)
    ensures var list := before + [x] + after;
            list[..|before|] + list[|before| + 1..] == before + after
  {
  }

  predicate At(conns: seq<ConnectionWrapper>, i: int, c: ConnectionWrapper) {
    0 <= i < |conns| && conns[i] == c
  }

  /** The connections of one list come in the order they have in another. */
  ghost predicate InOrder(some: seq<ConnectionWrapper>, all: seq<ConnectionWrapper>) {
    forall a, b, i, j :: 0 <= a < b < |some| && At(all, i, some[a]) && At(all, j, some[b]) ==> i < j
  }

  lemma {:induction false} SurvivorsAreListed(conns: seq<ConnectionWrapper>, results: seq<RecvResult>)
    requires |conns| == |results|
    ensures forall c :: c in Survivors(conns, results) ==> c in conns
    decreases |conns|
  {
    if conns != [] {
      SurvivorsAreListed(conns[..|conns| - 1], results[..|conns| - 1]);
    }
  }

  /** A connection stays exactly when its recv finds it neither closed nor lost. */
  ghost predicate StayIff(conns: seq<ConnectionWrapper>, results: seq<RecvResult>, now: seq<ConnectionWrapper>) {
    |conns| == |results| &&
    forall k :: 0 <= k < |conns| ==> (conns[k] in now <==> !results[k].Closed? && !results[k].LostConnection?)
  }

  /** A poll keeps exactly the connections that recv finds neither closed nor lost, none twice, and in the
      order they had. */
  lemma {:induction false} SurvivorsIff(conns: seq<ConnectionWrapper>, results: seq<RecvResult>)
    requires |conns| == |results| && NoRepeats(conns)
    ensures NoRepeats(Survivors(conns, results)) && InOrder(Survivors(conns, results), conns)
    ensures StayIff(conns, results, Survivors(conns, results))
    decreases |conns|
  {
    hide InOrder;
    if conns == [] {
      NoneInOrder(conns);
    } else {
      var n := |conns| - 1;
      SurvivorsIff(conns[..n], results[..n]);
      SurvivorsAreListed(conns[..n], results[..n]);
      assert conns[n] !in conns[..n];
      OneMoreInOrder(Survivors(conns[..n], results[..n]), conns, Keeps(results[n]));
      forall k | 0 <= k < n
        ensures conns[k] in Survivors(conns, results) <==> !results[k].Closed? && !results[k].LostConnection?
      {
        assert conns[..n][k] == conns[k] && results[..n][k] == results[k];
      }
    }
  }

  lemma NoneInOrder(all: seq<ConnectionWrapper>)
    ensures InOrder([], all)
  {
  }

  lemma OneMoreInOrder(some: seq<ConnectionWrapper>, conns: seq<ConnectionWrapper>, more: bool)
    requires conns != [] && NoRepeats(conns) && InOrder(some, conns[..|conns| - 1])
    requires forall c :: c in some ==> c in conns[..|conns| - 1]
    ensures InOrder(some + (if more then [conns[|conns| - 1]] else []), conns)
  {
    var n := |conns| - 1;
    var now := some + (if more then [conns[n]] else []);
    forall a, b, i, j | 0 <= a < b < |now| && At(conns, i, now[a]) && At(conns, j, now[b]) ensures i < j {
      assert some[a] in some && conns[n] !in conns[..n];
      assert i < n && At(conns[..n], i, some[a]);
      if b < |some| {
        assert some[b] in some;
        assert j < n && At(conns[..n], j, some[b]);
      } else {
        assert j == n;
      }
    }
  }

  lemma {:induction false} EmittedAreListed(conns: seq<ConnectionWrapper>, was: seq<Snapshot>, results: seq<RecvResult>,
                                            a: nat)
    requires |conns| == |was| && AllFit(was, results) && a < |Emitted(conns, was, results)|
    ensures Emitted(conns, was, results)[a].conn in conns
    decreases |conns|
  {
    hide Cut, Fits;
    var n := |conns| - 1;
    if a < |Emitted(conns[..n], was[..n], results[..n])| {
      EmittedAreListed(conns[..n], was[..n], results[..n], a);
    }
  }

  /** The packets a poll completes come connection by connection, in the order of the list. */
  lemma {:induction false} EmittedInOrder(conns: seq<ConnectionWrapper>, was: seq<Snapshot>, results: seq<RecvResult>,
                                          a: nat, b: nat, i: nat, j: nat)
    requires |conns| == |was| && AllFit(was, results) && NoRepeats(conns)
    requires a < b < |Emitted(conns, was, results)|
    requires At(conns, i, Emitted(conns, was, results)[a].conn) && At(conns, j, Emitted(conns, was, results)[b].conn)
    ensures i <= j
    decreases |conns|
  {
    hide Cut, Fits;
    var n := |conns| - 1;
    var front := Emitted(conns[..n], was[..n], results[..n]);
    if b < |front| {
      EmittedAreListed(conns[..n], was[..n], results[..n], a);
      EmittedAreListed(conns[..n], was[..n], results[..n], b);
      assert conns[n] !in conns[..n];
      EmittedInOrder(conns[..n], was[..n], results[..n], a, b, i, j);
    }
  }

  /** A poll calls recv once on each connection of the list, and on no other. */
  lemma {:induction false} OncePerPoll(polled: seq<Recv>, all: seq<ConnectionWrapper>, results: seq<RecvResult>,
                                       c: ConnectionWrapper)
    requires |all| == |results| && NoRepeats(all)
    ensures Times(polled + Recvs(all, results), c) == Times(polled, c) + (if c in all then 1 else 0)
    decreases |all|
  {
    var now := polled + Recvs(all, results);
    if all == [] {
      assert now == polled;
    } else {
      var n := |all| - 1;
      OncePerPoll(polled, all[..n], results[..n], c);
      assert now[..|now| - 1] == polled + Recvs(all[..n], results[..n]);
      assert now[|now| - 1] == Recv(all[n], results[n]);
      assert all == all[..n] + [all[n]] && all[n] !in all[..n];
    }
  }

  /** A connection still listed after a turn was listed before it, unless it has just been let in. */
  lemma StillListed(conns: seq<ConnectionWrapper>, results: seq<RecvResult>, pending: seq<ConnectionWrapper>,
                    c: ConnectionWrapper)
    requires |conns| == |results| && c in Survivors(conns, results) + Reverse(pending) && (pending == [] || c in conns)
    ensures c in conns
  {
    SurvivorsAreListed(conns, results);
  }

  /** After a poll the connections kept are again those that have not ended. */
  lemma PollKeepsAll(known: set<ConnectionWrapper>, all: seq<ConnectionWrapper>, results: seq<RecvResult>,
                     pending: seq<ConnectionWrapper>, polled: seq<Recv>)
    requires |all| == |results| && NoRepeats(all) && KeepsAll(known, all, pending, polled)
    requires forall c :: c in all ==> c in known && c !in pending
    ensures KeepsAll(known, Survivors(all, results), pending, polled + Recvs(all, results))
  {
    hide Survivors, Ended, InOrder, Recvs;
    SurvivorsIff(all, results);
    SurvivorsAreListed(all, results);
    var more := Recvs(all, results);
    forall k | 0 <= k < |polled + more| ensures (polled + more)[k].conn in known {
      RecvIsListed(known, all, results, polled, k);
    }
    forall c | c in known
      ensures c in Survivors(all, results) || c in pending <==> !Ended(polled + more, c)
    {
      EndedMore(polled, more, c);
      EndedNow(all, results, c);
    }
  }

  lemma RecvIsListed(known: set<ConnectionWrapper>, all: seq<ConnectionWrapper>, results: seq<RecvResult>,
                     polled: seq<Recv>, k: nat)
    requires |all| == |results| && k < |polled + Recvs(all, results)|
    requires (forall c :: c in all ==> c in known) && forall j :: 0 <= j < |polled| ==> polled[j].conn in known
    ensures (polled + Recvs(all, results))[k].conn in known
  {
    if k >= |polled| {
      assert (polled + Recvs(all, results))[k] == Recvs(all, results)[k - |polled|];
      assert all[k - |polled|] in all;
    }
  }

  /** One poll ends a connection of the list if its recv does, and no other. */
  lemma EndedNow(all: seq<ConnectionWrapper>, results: seq<RecvResult>, c: ConnectionWrapper)
    requires |all| == |results| && NoRepeats(all)
    ensures forall k :: 0 <= k < |all| && all[k] == c ==>
              (Ended(Recvs(all, results), c) <==> results[k].Closed? || results[k].LostConnection?)
    ensures c !in all ==> !Ended(Recvs(all, results), c)
  {
    forall k | 0 <= k < |all| && all[k] == c
      ensures Ended(Recvs(all, results), c) <==> results[k].Closed? || results[k].LostConnection?
    {
      assert Recvs(all, results)[k] == Recv(c, results[k]);
    }
  }

  lemma EndedMore(polled: seq<Recv>, more: seq<Recv>, c: ConnectionWrapper)
    ensures Ended(polled + more, c) <==> Ended(polled, c) || Ended(more, c)
  {
    var now, was := polled + more, |polled|;
    if k :| 0 <= k < |polled| && polled[k].conn == c && (polled[k].result.Closed? || polled[k].result.LostConnection?) {
      assert now[k] == polled[k];
    }
    if k :| 0 <= k < |more| && more[k].conn == c && (more[k].result.Closed? || more[k].result.LostConnection?) {
      assert now[was + k] == more[k];
    }
  }

  /** The last of one list goes to the end of another that shares nothing with it. */
  lemma MoveLast(a: seq<ConnectionWrapper>, b: seq<ConnectionWrapper>)
    requires NoRepeats(a) && NoRepeats(b) && b != [] && forall c :: c in a ==> c !in b
    ensures var last := |b| - 1;
            && NoRepeats(a + [b[last]]) && NoRepeats(b[..last])
            && (forall c :: c in a + [b[last]] ==> c !in b[..last] && (c in a || c in b))
            && (forall c :: c in b[..last] ==> c in b)
  {
    var last := |b| - 1;
    assert forall k :: 0 <= k < last ==> b[..last][k] == b[k] && b[k] != b[last];
    assert b[last] in b && b[last] !in a;
  }

  /** The same packets handed over and stacked. */
  lemma OneMoreEach<T>(stack: seq<T>, queue: seq<T>, taken: seq<T>, handed: seq<T>, more: seq<T>)
    requires multiset(handed) == multiset(stack) + multiset(queue) + multiset(taken)
    ensures multiset(handed + more) == multiset(stack + more) + multiset(queue) + multiset(taken)
  {
  }

  /** Moving the last of a stack behind a list, again and again, appends the stack in reverse. */
  lemma LastFirst<T>(list: seq<T>, stack: seq<T>)
    requires stack != []
    ensures var last := |stack| - 1;
            (list + [stack[last]]) + Reverse(stack[..last]) == list + Reverse(stack)
  {
    hide Reverse;
    var last := |stack| - 1;
    LastSplit(stack);
    MoveOne(list, stack[..last], stack[last]);
  }

  lemma LastSplit<T>(s: seq<T>)
    requires s != []
    ensures s[..|s| - 1] + [s[|s| - 1]] == s
  {
  }

  lemma MoveOne<T>(list: seq<T>, front: seq<T>, x: T)
    ensures (list + [x]) + Reverse(front) == list + Reverse(front + [x])
  {
    hide Reverse;
    ReverseSnoc(front, x);
    Regroup(list, [x], Reverse(front));
  }

  ghost function Buffers(conns: seq<ConnectionWrapper>): set<object> {
    set c | c in conns :: c.buffer
  }

  ghost function BuffersOf(conns: set<ConnectionWrapper>): set<object> {
    set c | c in conns :: c.buffer
  }

  ghost predicate Distinct(conns: seq<ConnectionWrapper>) {
    forall i, j :: 0 <= i < j < |conns| ==> conns[i] != conns[j] && conns[i].buffer != conns[j].buffer
  }

  ghost function Now(c: ConnectionWrapper): Snapshot
    reads c, c.buffer
  {
    Snapshot(c.buffer[..], c.bufferPos, c.received, c.framed)
  }

  /** The first v connections of the list have been polled, the others not yet. */
  ghost predicate Polled(all: seq<ConnectionWrapper>, was: seq<Snapshot>, results: seq<RecvResult>, v: nat)
    reads all, Buffers(all)
  {
    && |all| == |was| && AllFit(was, results) && v <= |all|
    && (forall k :: 0 <= k < |all| ==> all[k].Valid())
    && (forall k :: 0 <= k < v ==> Now(all[k]) == AfterRecv(was[k], results[k]))
    && (forall k :: v <= k < |all| ==> Now(all[k]) == was[k])
  }

  lemma PolledIdle(all: seq<ConnectionWrapper>, was: seq<Snapshot>, results: seq<RecvResult>, v: nat)
    requires Polled(all, was, results, v) && v < |all| && !results[v].Data?
    ensures Polled(all, was, results, v + 1)
  {
  }

  /** A poll of one connection that has data. */
  method PollData(connection: ConnectionWrapper, bytes: seq<byte>, ghost all: seq<ConnectionWrapper>,
                  ghost was: seq<Snapshot>, ghost results: seq<RecvResult>, ghost v: nat)
    returns (packets: seq<seq<byte>>)
    requires Distinct(all) && Polled(all, was, results, v) && v < |all|
    requires connection == all[v] && results[v] == Data(bytes)
    modifies connection`bufferPos, connection`received, connection`framed, connection.buffer
    ensures Polled(all, was, results, v + 1)
    ensures packets == Cut(was[v], results[v])
  {
    assert forall k :: 0 <= k < |all| && k != v ==> all[k] != connection && all[k].buffer != connection.buffer;
    assert Now(connection) == was[v];
    packets := connection.Receive(bytes);
    assert Now(connection) == AfterRecv(was[v], results[v]);
  }

  /** One action of one thread: the accept thread's, a worker's, or a piece of the server thread's turn. */
  datatype Event = Arrival | Taking | Polling(offers: seq<RecvResult>) | Dispatching | Admitting

  class ServerState {
    var pending: seq<ConnectionWrapper>
    var active: seq<ConnectionWrapper>
    var completed: seq<Completed>
    var queue: seq<Completed>

    ghost var known: set<ConnectionWrapper>   // every connection ever accepted
    ghost var handed: seq<Completed>          // every packet ever completed, in order
    ghost var taken: seq<Completed>           // every packet a worker has taken, in order
    ghost var polled: seq<Recv>               // every call of recv, in order

    /** Listed connections are accepted ones, none listed twice, and no two share a buffer. */
    ghost predicate Listed()
      reads this`known, this`active, this`pending
    {
      && NoRepeats(active) && NoRepeats(pending)
      && (forall c :: c in active ==> c in known && c !in pending)
      && (forall c :: c in pending ==> c in known)
      && (forall c, d :: c in known && d in known && c != d ==> c.buffer != d.buffer)
    }

    /** What has been handed over of a connection is exactly what its stream parses to so far. */
    ghost predicate Framed()
      reads this`known, this`handed, known, BuffersOf(known)
    {
      forall c :: c in known ==> c.Valid() && From(handed, c) == c.framed
    }

    /** Every packet handed over is in one place: on the stack, in the queue, or taken. */
    ghost predicate Accounted()
      reads this`handed, this`completed, this`queue, this`taken
    {
      multiset(handed) == multiset(completed) + multiset(queue) + multiset(taken)
    }

    /** Listed or pending are exactly the connections accepted that no recv has found closed or lost. */
    ghost predicate Kept()
      reads this`known, this`active, this`pending, this`polled
    {
      KeepsAll(known, active, pending, polled)
    }

    ghost predicate Valid()
      reads this, known, BuffersOf(known)
    {
      Listed() && Framed() && Accounted() && Kept()
    }

    /** Each byte a connection ever received is in its buffer or in exactly one packet handed over, in order. */
    ghost predicate Conserved()
      reads this, known, BuffersOf(known)
    {
      forall c :: c in known ==>
        c.bufferPos <= c.buffer.Length && c.received == Concat(From(handed, c)) + c.buffer[..c.bufferPos]
    }

    lemma ValidConserves()
      requires Valid()
      ensures Conserved()
    {
      forall c | c in known
        ensures c.bufferPos <= c.buffer.Length && c.received == Concat(From(handed, c)) + c.buffer[..c.bufferPos]
      {
        assert c.Valid();
        ParseConserves(c.received);
      }
    }

    constructor ()
      ensures Valid() && known == {} && pending == [] && active == [] && completed == [] && queue == []
      ensures handed == [] && taken == [] && polled == []
    {
      pending, active, completed, queue := [], [], [], [];
      known, handed, taken, polled := {}, [], [], [];
    }

    ghost function Snapshots(): (r: seq<Snapshot>)
      reads this, active, Buffers(active)
      ensures |r| == |active| && forall k :: 0 <= k < |active| ==> r[k] == Now(active[k])
    {
      seq(|active|, k requires 0 <= k < |active| reads this, active, Buffers(active) => Now(active[k]))
    }

    /** What recv returns at each active connection, given what the network offers. */
    ghost function Polls(offers: seq<RecvResult>): (r: seq<RecvResult>)
      requires Valid()
      reads this, active, Buffers(active), known, BuffersOf(known)
      ensures AllFit(Snapshots(), r)
    {
      assert forall k :: 0 <= k < |active| ==> active[k] in known;
      Results(offers, Snapshots())
    }

    /** receive_all_connections. */
    method ReceiveAllConnections(offers: seq<RecvResult>)
      requires Valid()
      modifies this`active, this`completed, this`handed, this`polled, active, Buffers(active)
      ensures Valid()
      ensures polled == old(polled) + Recvs(old(active), old(Polls(offers)))
      ensures StayIff(old(active), old(Polls(offers)), active) && InOrder(active, old(active))
      ensures active == Survivors(old(active), old(Polls(offers)))
      ensures completed == old(completed) + Emitted(old(active), old(Snapshots()), old(Polls(offers)))
      ensures handed == old(handed) + Emitted(old(active), old(Snapshots()), old(Polls(offers)))
      ensures Polled(old(active), old(Snapshots()), old(Polls(offers)), |old(active)|)
    {
      hide Fits, AfterRecv, Cut, Survivors, Emitted, From, RecvOf, Whole, ConnectionWrapper.Valid;
      hide Ended, InOrder, KeepsAll, Recvs, Results, StayIff, Polls, AllFit, Visiting;
      ghost var all, was, results := active, Snapshots(), Polls(offers);
      ghost var before, handedBefore := completed, handed;
      PollReady(offers);
      VisitAll(offers, all, was, results, before, handedBefore);
      SurvivorsIff(all, results);
      ghost var recvs := polled;
      polled := polled + Recvs(all, results);
      PollLists(all, results, recvs);
      PollFrames(all, was, results, handedBefore);
      OneMoreEach(before, queue, taken, handedBefore, Emitted(all, was, results));
    }

    /** What a poll may rely on. */
    lemma PollReady(offers: seq<RecvResult>)
      requires Valid()
      ensures Distinct(active) && NoRepeats(active) && |Polls(offers)| == |active|
      ensures Visiting(active, Snapshots(), Polls(offers), 0, 0, completed, handed)
      ensures (forall k :: 0 <= k < |active| ==> Whole(Snapshots()[k])) && Polls(offers) == Results(offers, Snapshots())
      ensures forall k :: 0 <= k < |active| ==> From(handed, active[k]) == Snapshots()[k].framed
      ensures forall c :: c in known && c !in active ==> c.buffer !in Buffers(active)
    {
      hide From, RecvOf;
      var all := active;
      assert all[..0] == [] && all[0..] == all;
      forall k | 0 <= k < |active| ensures active[k] in known && active[k].Valid() {
      }
    }

    /** After a poll the list is again the connections accepted that have not ended, none twice. */
    lemma PollLists(all: seq<ConnectionWrapper>, results: seq<RecvResult>, before: seq<Recv>)
      requires |all| == |results| && NoRepeats(all) && NoRepeats(pending) && KeepsAll(known, all, pending, before)
      requires (forall c :: c in all ==> c in known && c !in pending) && (forall c :: c in pending ==> c in known)
      requires forall c, d :: c in known && d in known && c != d ==> c.buffer != d.buffer
      requires active == Survivors(all, results) && polled == before + Recvs(all, results)
      ensures Listed() && Kept()
    {
      hide KeepsAll, Survivors, Recvs, InOrder, StayIff;
      SurvivorsIff(all, results);
      SurvivorsAreListed(all, results);
      PollKeepsAll(known, all, results, pending, before);
    }

    /** After a poll every accepted connection has handed over what its stream parses to. */
    lemma PollFrames(all: seq<ConnectionWrapper>, was: seq<Snapshot>, results: seq<RecvResult>, before: seq<Completed>)
      requires Polled(all, was, results, |all|) && NoRepeats(all)
      requires forall k :: 0 <= k < |all| ==> From(before, all[k]) == was[k].framed
      requires forall c :: c in known && c !in all ==> c.Valid() && From(before, c) == c.framed
      requires handed == before + Emitted(all, was, results)
      ensures Framed()
    {
      hide ConnectionWrapper.Valid, From, Emitted, Fits;
      forall c | c in known ensures c.Valid() && From(handed, c) == c.framed {
        FromAppend(before, Emitted(all, was, results), c);
        FromEmitted(all, was, results, c);
        if k :| 0 <= k < |all| && all[k] == c {
          assert Now(all[k]) == AfterRecv(was[k], results[k]);
        }
      }
    }

    /** The loop, from the front of the list. */
    method VisitAll(offers: seq<RecvResult>, ghost all: seq<ConnectionWrapper>, ghost was: seq<Snapshot>,
                    ghost results: seq<RecvResult>, ghost before: seq<Completed>, ghost handedBefore: seq<Completed>)
      requires Distinct(all) && Visiting(all, was, results, 0, 0, before, handedBefore)
      requires (forall k :: 0 <= k < |was| ==> Whole(was[k])) && results == Results(offers, was)
      modifies this`active, this`completed, this`handed, all, Buffers(all)
      ensures Polled(all, was, results, |all|)
      ensures active == Survivors(all, results)
      ensures completed == before + Emitted(all, was, results)
      ensures handed == handedBefore + Emitted(all, was, results)
    {
      hide Fits, AfterRecv, Cut, ConnectionWrapper.Valid, Survivors, Emitted;
      var it: nat, v: nat := 0, 0;
      while it < |active|
        invariant Visiting(all, was, results, v, it, before, handedBefore)
        decreases |all| - v
      {
        it := Visit(OfferAt(offers, v), it, v, all, was, results, before, handedBefore);
        v := v + 1;
      }
      AllVisited(all, was, results, v);
    }

    /** v connections have been visited; the iterator stands behind those of them that stay. */
    ghost predicate Visiting(all: seq<ConnectionWrapper>, was: seq<Snapshot>, results: seq<RecvResult>,
                             v: nat, it: nat, before: seq<Completed>, handedBefore: seq<Completed>)
      reads this, all, Buffers(all)
    {
      && Polled(all, was, results, v)
      && it == |Survivors(all[..v], results[..v])|
      && active == Survivors(all[..v], results[..v]) + all[v..]
      && completed == before + Emitted(all[..v], was[..v], results[..v])
      && handed == handedBefore + Emitted(all[..v], was[..v], results[..v])
    }

    /** One turn of the loop; the new value of the iterator. */
    method Visit(offer: RecvResult, it: nat, v: nat, ghost all: seq<ConnectionWrapper>, ghost was: seq<Snapshot>,
                 ghost results: seq<RecvResult>, ghost before: seq<Completed>, ghost handedBefore: seq<Completed>)
      returns (next: nat)
      requires Distinct(all) && Visiting(all, was, results, v, it, before, handedBefore) && it < |active|
      requires v < |all| ==> results[v] == RecvOf(offer, BUFFER_SIZE - was[v].pos)
      modifies this`active, this`completed, this`handed, all, Buffers(all)
      ensures Visiting(all, was, results, v + 1, next, before, handedBefore)
    {
      hide AfterRecv, Cut, RecvOf, Survivors, Emitted, Tagged;
      assert v < |all|;
      ListStep(all, was, results, v);
      var connection := active[it];
      assert connection == all[v] && Now(connection) == was[v];
      var result := RecvOf(offer, connection.buffer.Length - connection.bufferPos);
      if result.Data? {
        var packets := PollData(connection, result.bytes, all, was, results, v);
        Regroup(before, Emitted(all[..v], was[..v], results[..v]), Tagged(connection, packets));
        Regroup(handedBefore, Emitted(all[..v], was[..v], results[..v]), Tagged(connection, packets));
        completed := completed + Tagged(connection, packets);
        handed := handed + Tagged(connection, packets);
        next := it + 1;
      } else {
        PolledIdle(all, was, results, v);
        if result.Again? {
          next := it + 1;
        } else {
          active := active[..it] + active[it + 1..];
          next := it;
        }
      }
    }

    /** One round of handle_packets: the last packet completed is dispatched. */
    method DispatchOne()
      requires Valid() && completed != []
      modifies this`completed, this`queue
      ensures Valid()
      ensures var last := |old(completed)| - 1;
              completed == old(completed)[..last] && queue == old(queue) + [old(completed)[last]]
    {
      hide From, ConnectionWrapper.Valid;
      var last := |completed| - 1;
      assert completed == completed[..last] + [completed[last]];
      queue := queue + [completed[last]];
      completed := completed[..last];
    }

    /** handle_packets. */
    method HandlePackets()
      requires Valid()
      modifies this`completed, this`queue
      ensures Valid()
      ensures completed == [] && queue == old(queue) + Reverse(old(completed))
    {
      hide From, ConnectionWrapper.Valid;
      while completed != []
        invariant Valid()
        invariant queue + Reverse(completed) == old(queue) + Reverse(old(completed))
        decreases |completed|
      {
        LastFirst(queue, completed);
        DispatchOne();
      }
    }

    /** One round of handle_pending_connections. */
    method AdmitOne()
      requires Valid() && pending != []
      modifies this`pending, this`active
      ensures Valid()
      ensures var last := |old(pending)| - 1;
              pending == old(pending)[..last] && active == old(active) + [old(pending)[last]]
    {
      hide From, ConnectionWrapper.Valid;
      var last := |pending| - 1;
      MoveLast(active, pending);
      active := active + [pending[last]];
      pending := pending[..last];
    }

    /** handle_pending_connections. */
    method HandlePendingConnections()
      requires Valid()
      modifies this`pending, this`active
      ensures Valid()
      ensures pending == [] && active == old(active) + Reverse(old(pending))
    {
      hide From, ConnectionWrapper.Valid;
      while pending != []
        invariant Valid()
        invariant active + Reverse(pending) == old(active) + Reverse(old(pending))
        decreases |pending|
      {
        LastFirst(active, pending);
        AdmitOne();
      }
    }

    /** What a turn does after the poll. */
    method HandOn()
      requires Valid()
      modifies this`pending, this`active, this`completed, this`queue
      ensures Valid() && pending == [] && completed == []
      ensures active == old(active) + Reverse(old(pending)) && queue == old(queue) + Reverse(old(completed))
    {
      hide Valid;
      HandlePackets();
      HandlePendingConnections();
    }

    /** One turn of server_thread. Nothing is lost or duplicated: the queue gains exactly the packets
        completed, the list loses exactly the connections that ended and gains exactly the accepted ones. */
    method ServerTurn(offers: seq<RecvResult>)
      requires Valid()
      modifies this`pending, this`active, this`completed, this`queue, this`handed, this`polled, active, Buffers(active)
      ensures Valid() && pending == [] && completed == []
      ensures polled == old(polled) + Recvs(old(active), old(Polls(offers)))
      ensures Polled(old(active), old(Snapshots()), old(Polls(offers)), |old(active)|)
      ensures active == Survivors(old(active), old(Polls(offers))) + Reverse(old(pending))
      ensures handed == old(handed) + Emitted(old(active), old(Snapshots()), old(Polls(offers)))
      ensures queue == old(queue) + Reverse(old(completed) + Emitted(old(active), old(Snapshots()), old(Polls(offers))))
    {
      hide Valid, Survivors, Emitted, Reverse, InOrder, StayIff, Recvs, Results, Polls, Snapshots, AllFit, Polled;
      ReceiveAllConnections(offers);
      HandOn();
    }

    /** accept_thread_handler: a new connection is put on the pending stack. */
    method Accept()
      requires Valid()
      modifies this`pending, this`known
      ensures Valid() && |pending| == |old(pending)| + 1 && old(pending) <= pending
      ensures var c := pending[|old(pending)|]; fresh(c) && fresh(c.buffer) && known == old(known) + {c}
    {
      hide ConnectionWrapper.Valid, From;
      var c := new ConnectionWrapper();
      NothingFrom(handed, c);
      pending := pending + [c];
      known := known + {c};
    }

    /** A worker takes the task at the front of the queue. */
    method Take()
      requires Valid() && queue != []
      modifies this`queue, this`taken
      ensures Valid() && taken == old(taken) + [old(queue)[0]] && queue == old(queue)[1..]
    {
      hide From, ConnectionWrapper.Valid;
      assert queue == [queue[0]] + queue[1..];
      taken := taken + [queue[0]];
      queue := queue[1..];
    }

    /** Every recv on the connection has brought data or said to try again. */
    ghost predicate Alive(c: ConnectionWrapper)
      reads this`polled
    {
      forall k :: 0 <= k < |polled| && polled[k].conn == c ==> polled[k].result.Data? || polled[k].result.Again?
    }

    lemma KeptAreAlive()
      requires Valid()
      ensures forall c :: c in known ==> (c in active || c in pending <==> Alive(c))
    {
      hide From, ConnectionWrapper.Valid;
    }

    /** server_thread: turn after turn. At the end the list holds exactly the connections accepted of which
        every recv has brought data or said to try again. */
    method ServerThread(turns: seq<seq<RecvResult>>)
      requires Valid()
      modifies this`pending, this`active, this`completed, this`queue, this`handed, this`polled, known, BuffersOf(known)
      ensures Valid() && Conserved()
      ensures old(handed) <= handed && old(queue) <= queue && old(polled) <= polled
      ensures turns != [] ==> completed == [] && pending == []
      ensures turns != [] ==> forall c :: c in known ==> (c in active <==> Alive(c))
      ensures forall c :: c in old(active) && c in active ==> Times(polled, c) == old(Times(polled, c)) + |turns|
    {
      hide From, ConnectionWrapper.Valid, Times, Survivors, Reverse, Emitted, Ended;
      for i := 0 to |turns|
        invariant Valid() && (i > 0 ==> completed == [] && pending == [])
        invariant i == 0 ==> active == old(active)
        invariant old(handed) <= handed && old(queue) <= queue && old(polled) <= polled
        invariant forall c :: c in old(active) && c in active ==> Times(polled, c) == old(Times(polled, c)) + i
      {
        ActiveIsKnown();
        assert forall o :: o in Buffers(active) ==> o in BuffersOf(known);
        ghost var conns, results, arrived, recvs := active, Polls(turns[i]), pending, polled;
        ServerTurn(turns[i]);
        forall c | c in old(active) && c in active ensures Times(polled, c) == Times(recvs, c) + 1 && c in conns {
          StillListed(conns, results, arrived, c);
          OncePerPoll(recvs, conns, results, c);
        }
      }
      ValidConserves();
      KeptAreAlive();
    }

    lemma ActiveIsKnown()
      requires Valid()
      ensures forall c :: c in active ==> c in known
    {
    }

    /** A worker, or the server thread, with something to move along. */
    method Move(e: Event)
      requires Valid() && (e.Taking? ==> queue != []) && (e.Dispatching? ==> completed != [])
      requires e.Taking? || e.Dispatching?
      modifies this`completed, this`queue, this`taken
      ensures Valid() && old(taken + queue) <= taken + queue
    {
      hide ServerState.Valid;
      if e.Taking? {
        assert queue == [queue[0]] + queue[1..];
        Regroup(taken, [queue[0]], queue[1..]);
        Take();
      } else {
        Regroup(taken, queue, [completed[|completed| - 1]]);
        DispatchOne();
      }
    }

    /** One action, if there is anything for it to act on. */
    method Act(e: Event)
      requires Valid()
      modifies this, active, Buffers(active)
      ensures Valid()
      ensures old(known) <= known && forall c :: c in known - old(known) ==> fresh(c) && fresh(c.buffer)
      ensures old(handed) <= handed && old(taken + queue) <= taken + queue
    {
      hide ServerState.Valid, Survivors, Emitted;
      if e.Arrival? {
        Accept();
      } else if e.Polling? {
        ReceiveAllConnections(e.offers);
      } else if e.Admitting? {
        if pending != [] {
          AdmitOne();
        }
      } else if (e.Taking? && queue != []) || (e.Dispatching? && completed != []) {
        Move(e);
      }
    }

    /** Server thread, accept thread and workers in any order of their actions, of which the order of the
        server's own turns is one: every byte ever received is in its connection's buffer or in exactly one
        packet, every packet is stacked, queued or taken once, each stream's packets are handed over in
        order, and workers take tasks in the order they were queued. */
    method AnyOrder(events: seq<Event>)
      requires Valid()
      modifies this, known, BuffersOf(known)
      ensures Valid() && Conserved()
      ensures multiset(handed) == multiset(completed) + multiset(queue) + multiset(taken)
      ensures forall c :: c in known ==> (c in active || c in pending <==> Alive(c))
      ensures old(known) <= known && forall c :: c in known - old(known) ==> fresh(c) && fresh(c.buffer)
      ensures old(handed) <= handed && old(taken + queue) <= taken + queue
    {
      hide From, ConnectionWrapper.Valid;
      for i := 0 to |events|
        invariant Valid()
        invariant old(known) <= known && forall c :: c in known - old(known) ==> fresh(c) && fresh(c.buffer)
        invariant old(handed) <= handed && old(taken + queue) <= taken + queue
      {
        ActiveIsKnown();
        assert forall c :: c in active ==> c in old(known) || fresh(c);
        assert forall o :: o in Buffers(active) ==> o in BuffersOf(old(known)) || fresh(o);
        Act(events[i]);
      }
      ValidConserves();
      KeptAreAlive();
    }
  }
}
