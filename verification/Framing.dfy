/** Rebuilding packets from a byte stream. Parse is the reference definition: it reads the whole
    stream at once. Drain is what the server's inner loop leaves in its fixed buffer, stale bytes
    included. Source: src/server/main.cpp:123-163. */
module Framing {
  import opened Protocol
  import opened Sequences

  datatype Parsed = Parsed(packets: seq<seq<byte>>, rest: seq<byte>)

  /** The loop cuts a packet off the front: the header is there, its size is not zero, and that many bytes are in. */
  predicate Complete(s: seq<byte>) {
    |s| >= HEADER_SIZE && SizeField(s) != 0 && |s| >= SizeField(s)
  }

  function Parse(s: seq<byte>): Parsed
    decreases |s|
  {
    if !Complete(s) then Parsed([], s)
    else
      var n := SizeField(s);
      var tail := Parse(s[n..]);
      Parsed([s[..n]] + tail.packets, tail.rest)
  }

  /** Nothing is lost, duplicated or reordered by framing. */
  lemma {:induction false} ParseConserves(s: seq<byte>)
    ensures Concat(Parse(s).packets) + Parse(s).rest == s
    ensures !Complete(Parse(s).rest)
    decreases |s|
  {
    if Complete(s) {
      var n := SizeField(s);
      ParseConserves(s[n..]);
      CutConserves(s, n, Parse(s[n..]));
    }
  }

  lemma CutConserves(s: seq<byte>, n: nat, tail: Parsed)
    requires n <= |s| && Concat(tail.packets) + tail.rest == s[n..]
    ensures Concat([s[..n]] + tail.packets) + tail.rest == s
  {
    ConcatCons(s[..n], tail.packets);
    Regroup(s[..n], Concat(tail.packets), tail.rest);
  }

  /** Parsing may stop anywhere and go on from what was left. */
  lemma {:induction false} ParseAppend(a: seq<byte>, b: seq<byte>)
    ensures var p := Parse(a);
            var q := Parse(p.rest + b);
            Parse(a + b) == Parsed(p.packets + q.packets, q.rest)
    decreases |a|
  {
    if Complete(a) {
      var n := SizeField(a);
      var head, more := a[..n], a[n..];
      ParseAppend(more, b);
      SplitHeader(a, b);
      var t := Parse(more);
      var q := Parse(t.rest + b);
      Regroup([head], t.packets, q.packets);
    }
  }

  lemma SplitHeader(a: seq<byte>, b: seq<byte>)
    requires Complete(a)
    ensures Complete(a + b) && SizeField(a + b) == SizeField(a)
    ensures (a + b)[..SizeField(a)] == a[..SizeField(a)]
    ensures (a + b)[SizeField(a)..] == a[SizeField(a)..] + b
  {
  }

  lemma {:induction false} ParseOne(p: seq<byte>, more: seq<byte>)
    requires IsPacket(p)
    ensures Parse(p + more) == Parsed([p] + Parse(more).packets, Parse(more).rest)
  {
    var s := p + more;
    assert SizeField(s) == |p|;
    assert s[..|p|] == p && s[|p|..] == more;
  }

  /** A proper prefix of one packet frames nothing. */
  lemma ParsePrefix(p: seq<byte>, k: nat)
    requires IsPacket(p) && k < |p|
    ensures Parse(p[..k]) == Parsed([], p[..k])
  {
    if k >= HEADER_SIZE {
      assert SizeField(p[..k]) == SizeField(p);
    }
  }

  /** Framing undoes serialisation. */
  lemma {:induction false} ParseOfPackets(ps: seq<seq<byte>>)
    requires forall k :: 0 <= k < |ps| ==> IsPacket(ps[k])
    ensures Parse(Concat(ps)) == Parsed(ps, [])
  {
    if ps != [] {
      ParseOfPackets(ps[1..]);
      ParseOne(ps[0], Concat(ps[1..]));
      assert [ps[0]] + ps[1..] == ps;
    }
  }

  // ---------- the fixed buffer ----------

  datatype Drained = Drained(buf: seq<byte>, pos: nat, packets: seq<seq<byte>>)

  /** What memmove(buffer, buffer + n, pos - n) leaves in the buffer. */
  function MoveDown(buf: seq<byte>, n: nat, pos: nat): (r: seq<byte>)
    requires n <= pos <= |buf|
    ensures |r| == |buf| && r[..pos - n] == buf[n..pos]
  {
    buf[n..pos] + buf[pos - n..]
  }

  function Overwrite(buf: seq<byte>, at: nat, data: seq<byte>): (r: seq<byte>)
    requires at + |data| <= |buf|
    ensures |r| == |buf| && r[..at + |data|] == buf[..at] + data
  {
    buf[..at] + data + buf[at + |data|..]
  }

  function Drain(buf: seq<byte>, pos: nat): (d: Drained)
    requires pos <= |buf|
    ensures |d.buf| == |buf| && d.pos <= pos
    decreases pos
  {
    if !Complete(buf[..pos]) then Drained(buf, pos, [])
    else
      var n := SizeField(buf);
      var d := Drain(MoveDown(buf, n, pos), pos - n);
      Drained(d.buf, d.pos, [buf[..n]] + d.packets)
  }

  /** One successful recv of data at the cursor, then the inner loop. */
  function Receive(buf: seq<byte>, pos: nat, data: seq<byte>): (d: Drained)
    requires pos + |data| <= |buf|
    ensures |d.buf| == |buf|
  {
    Drain(Overwrite(buf, pos, data), pos + |data|)
  }

  /** The in-place loop refines Parse. */
  lemma {:induction false} DrainRefinesParse(buf: seq<byte>, pos: nat)
    requires pos <= |buf|
    ensures var d := Drain(buf, pos);
            Parse(buf[..pos]) == Parsed(d.packets, d.buf[..d.pos])
    decreases pos
  {
    if Complete(buf[..pos]) {
      var n := SizeField(buf);
      assert SizeField(buf[..pos]) == n;
      DrainRefinesParse(MoveDown(buf, n, pos), pos - n);
      assert buf[..pos][n..] == buf[n..pos];
      assert buf[..pos][..n] == buf[..n];
    }
  }

  lemma ReceiveRefinesParse(buf: seq<byte>, pos: nat, data: seq<byte>)
    requires pos + |data| <= |buf|
    ensures var d := Receive(buf, pos, data);
            Parse(buf[..pos] + data) == Parsed(d.packets, d.buf[..d.pos])
  {
    hide Drain, Parse, Overwrite;
    DrainRefinesParse(Overwrite(buf, pos, data), pos + |data|);
  }

  lemma DrainExact(buf: seq<byte>, p: seq<byte>)
    requires |p| <= |buf| && IsPacket(p) && buf[..|p|] == p
    ensures Drain(buf, |p|) == Drained(buf, 0, [p])
  {
    hide MoveDown;
    SizeInFront(buf, p);
    MoveNothing(buf, |p|);
    assert Drain(buf, 0) == Drained(buf, 0, []);
    assert [p] + [] == [p];
  }

  lemma SizeInFront(buf: seq<byte>, p: seq<byte>)
    requires HEADER_SIZE <= |p| <= |buf| && buf[..|p|] == p
    ensures SizeField(buf) == SizeField(p)
  {
    assert buf[2] == buf[..|p|][2] && buf[3] == buf[..|p|][3];
  }

  lemma MoveNothing(buf: seq<byte>, n: nat)
    requires n <= |buf|
    ensures MoveDown(buf, n, n) == buf
  {
  }

  /** When one packet is completed exactly, its bytes stay where they were received although the
      cursor goes back to zero: the fact ConnectionBuffer::get_packet_type lives on. */
  lemma ReceiveExact(buf: seq<byte>, pos: nat, data: seq<byte>, p: seq<byte>)
    requires pos + |data| <= |buf| && IsPacket(p) && buf[..pos] + data == p
    ensures var d := Receive(buf, pos, data);
            d.packets == [p] && d.pos == 0 && d.buf[..|p|] == p
  {
    DrainExact(Overwrite(buf, pos, data), p);
  }

  lemma ReceivePartial(buf: seq<byte>, pos: nat, data: seq<byte>, p: seq<byte>, k: nat)
    requires pos + |data| <= |buf| && IsPacket(p) && k < |p| && buf[..pos] + data == p[..k]
    ensures var d := Receive(buf, pos, data);
            d.packets == [] && d.pos == k && d.buf[..k] == p[..k]
  {
    ReceiveRefinesParse(buf, pos, data);
    ParsePrefix(p, k);
  }

  /** After a poll the buffer still has room, unless a zero-size header sits at its front. */
  lemma RoomAfterDrain(buf: seq<byte>, pos: nat)
    requires pos <= |buf| == BUFFER_SIZE
    ensures var d := Drain(buf, pos);
            d.pos == BUFFER_SIZE <==> pos == BUFFER_SIZE && SizeField(buf) == 0
  {
    if Complete(buf[..pos]) {
      assert SizeField(buf[..pos]) == SizeField(buf);
    } else if pos == BUFFER_SIZE {
      assert SizeField(buf[..pos]) == SizeField(buf);
    }
  }

  // ---------- any segmentation ----------

  /** Each piece of the stream fits in the room the buffer has when it arrives. */
  ghost predicate Accepted(buf: seq<byte>, pos: nat, cuts: seq<seq<byte>>)
    requires pos <= |buf|
    decreases |cuts|
  {
    cuts == [] ||
    (pos + |cuts[0]| <= |buf| &&
     var d := Receive(buf, pos, cuts[0]);
     Accepted(d.buf, d.pos, cuts[1..]))
  }

  ghost function ReceiveAll(buf: seq<byte>, pos: nat, cuts: seq<seq<byte>>): (d: Drained)
    requires pos <= |buf| && Accepted(buf, pos, cuts)
    ensures d.pos <= |d.buf| == |buf|
    decreases |cuts|
  {
    if cuts == [] then Drained(buf, pos, [])
    else
      var one := Receive(buf, pos, cuts[0]);
      var rest := ReceiveAll(one.buf, one.pos, cuts[1..]);
      Drained(rest.buf, rest.pos, one.packets + rest.packets)
  }

  lemma OneMoreCut(held: seq<byte>, cut: seq<byte>, more: seq<byte>)
    ensures var p := Parse(held + cut);
            var q := Parse(p.rest + more);
            Parse(held + (cut + more)) == Parsed(p.packets + q.packets, q.rest)
  {
    Regroup(held, cut, more);
    ParseAppend(held + cut, more);
  }

  /** However the stream is cut, the poll loop emits and keeps what Parse says of the whole stream. */
  lemma {:induction false} AnySegmentation(buf: seq<byte>, pos: nat, cuts: seq<seq<byte>>)
    requires pos <= |buf| && Accepted(buf, pos, cuts) && !Complete(buf[..pos])
    ensures var d := ReceiveAll(buf, pos, cuts);
            Parse(buf[..pos] + Concat(cuts)) == Parsed(d.packets, d.buf[..d.pos])
    decreases |cuts|
  {
    if cuts == [] {
      assert buf[..pos] + Concat(cuts) == buf[..pos];
    } else {
      var one := Receive(buf, pos, cuts[0]);
      ReceiveRefinesParse(buf, pos, cuts[0]);
      ParseConserves(buf[..pos] + cuts[0]);
      AnySegmentation(one.buf, one.pos, cuts[1..]);
      OneMoreCut(buf[..pos], cuts[0], Concat(cuts[1..]));
    }
  }

  /** Two ways of cutting one stream cannot be told apart. */
  lemma SegmentationIndependence(buf: seq<byte>, a: seq<seq<byte>>, b: seq<seq<byte>>)
    requires Accepted(buf, 0, a) && Accepted(buf, 0, b) && Concat(a) == Concat(b)
    ensures var d, e := ReceiveAll(buf, 0, a), ReceiveAll(buf, 0, b);
            d.packets == e.packets && d.pos == e.pos && d.buf[..d.pos] == e.buf[..e.pos]
  {
    AnySegmentation(buf, 0, a);
    AnySegmentation(buf, 0, b);
  }

  /** Packets delivered in arbitrary pieces come out whole, and the buffer ends empty. */
  lemma FramingInvertsSerialisation(buf: seq<byte>, ps: seq<seq<byte>>, cuts: seq<seq<byte>>)
    requires forall k :: 0 <= k < |ps| ==> IsPacket(ps[k])
    requires Accepted(buf, 0, cuts) && Concat(cuts) == Concat(ps)
    ensures var d := ReceiveAll(buf, 0, cuts);
            d.packets == ps && d.pos == 0
  {
    hide Parse, ReceiveAll, Accepted;
    AnySegmentation(buf, 0, cuts);
    ParseOfPackets(ps);
    assert buf[..0] + Concat(cuts) == Concat(ps);
  }

  /** A zero-size header at the front of the buffer stays there whatever arrives: nothing more is ever
      framed on this connection, and the buffer only fills up. */
  lemma {:induction false} ZeroHeaderStays(buf: seq<byte>, pos: nat, cuts: seq<seq<byte>>)
    requires HEADER_SIZE <= pos <= |buf| && SizeField(buf) == 0 && Accepted(buf, pos, cuts)
    ensures var d := ReceiveAll(buf, pos, cuts);
            |d.buf| >= HEADER_SIZE && SizeField(d.buf) == 0 && d.packets == [] && d.pos == pos + |Concat(cuts)|
    decreases |cuts|
  {
    if cuts != [] {
      var filled := Overwrite(buf, pos, cuts[0]);
      assert filled[..pos][..HEADER_SIZE] == buf[..HEADER_SIZE];
      assert SizeField(filled) == SizeField(filled[..pos]) == SizeField(buf);
      assert SizeField(filled[..pos + |cuts[0]|]) == SizeField(filled);
      ZeroHeaderStays(filled, pos + |cuts[0]|, cuts[1..]);
    }
  }
}
