/** The server's per-connection object: its fixed receive buffer filled and shifted in place, and the
    session fields the handlers change. Source: src/server/connection.hpp:8-22,
    src/server/connection.cpp:30-62, src/server/main.cpp:93-163. */
module Connection {
  import opened Protocol
  import opened Sequences
  import opened Framing
  import opened Handlers
  import opened Systems

  /** What one call of send on a non-blocking socket comes back with. */
  datatype SendResult = Accepted(count: nat) | TryAgain | Broken

  datatype SendOutcome = Sent | GaveUp | StillTrying

  /** Storing into a uint16_t. */
  function ToUint16(n: nat): (r: nat)
    ensures r < 65536 && (n < 65536 ==> r == n)
  {
    n % 65536
  }

  class ConnectionWrapper {
    const buffer: array<byte>
    var bufferPos: nat
    var currentDir: string
    var isAdmin: bool
    var fd: Fd
    var downloadFd: Fd
    var id: string

    ghost var received: seq<byte>       // every byte ever received
    ghost var framed: seq<seq<byte>>    // every packet ever completed

    /** The buffer and the packets handed out are what Parse makes of everything received. */
    ghost predicate Valid()
      reads this, buffer
    {
      && buffer.Length == BUFFER_SIZE && bufferPos <= BUFFER_SIZE
      && Parse(received) == Parsed(framed, buffer[..bufferPos])
    }

    ghost function View(): Session
      reads this
    {
      Session(id, currentDir, isAdmin, fd, downloadFd)
    }

    constructor ()
      ensures Valid() && fresh(buffer)
      ensures bufferPos == 0 && received == [] && framed == [] && View() == FRESH
    {
      buffer := new byte[BUFFER_SIZE](_ => 0);
      bufferPos := 0;
      currentDir, isAdmin, fd, downloadFd, id := "", false, NoFile, NoFile, "";
      received, framed := [], [];
    }

    /** A successful recv of data at the cursor, then the loop that cuts packets off the front. The
        cursor is a 16-bit variable; it never wraps. */
    method Receive(data: seq<byte>) returns (packets: seq<seq<byte>>)
      requires Valid() && 0 < |data| && bufferPos + |data| <= buffer.Length
      modifies this`bufferPos, this`received, this`framed, buffer
      ensures Valid()
      ensures received == old(received) + data && framed == old(framed) + packets
      ensures Drained(buffer[..], bufferPos, packets) == Framing.Receive(old(buffer[..]), old(bufferPos), data)
      ensures bufferPos == BUFFER_SIZE ==> SizeField(buffer[..]) == 0
    {
      ReceiveExtends(received, framed, buffer[..], bufferPos, data);
      packets := FillAndCut(data);
      received, framed := received + data, framed + packets;
    }

    /** The same on the buffer alone. */
    method FillAndCut(data: seq<byte>) returns (packets: seq<seq<byte>>)
      requires buffer.Length == BUFFER_SIZE && bufferPos + |data| <= buffer.Length
      modifies this`bufferPos, buffer
      ensures Drained(buffer[..], bufferPos, packets) == Framing.Receive(old(buffer[..]), old(bufferPos), data)
    {
      ghost var filled := Overwrite(buffer[..], bufferPos, data);
      Fill(data);
      bufferPos := ToUint16(bufferPos + |data|);
      packets := CutPackets(filled);
    }

    /** The rest of a poll: nothing without a whole header, then the inner loop. */
    method CutPackets(ghost filled: seq<byte>) returns (packets: seq<seq<byte>>)
      requires buffer.Length == BUFFER_SIZE && bufferPos <= BUFFER_SIZE && buffer[..] == filled
      modifies this`bufferPos, buffer
      ensures Drained(buffer[..], bufferPos, packets) == Drain(filled, old(bufferPos))
    {
      hide Continues, Drain;
      packets := [];
      if bufferPos < HEADER_SIZE {
        DrainStops(buffer[..], bufferPos);
        return;
      }
      ghost var goal := Drain(buffer[..], bufferPos);
      ContinuesStart(buffer[..], bufferPos);
      var packetSize := ReadSize();
      while bufferPos >= packetSize
        invariant HEADER_SIZE <= bufferPos <= BUFFER_SIZE && packetSize == SizeField(buffer[..])
        invariant Continues(buffer[..], bufferPos, packets, goal)
        decreases bufferPos
      {
        ghost var now, pos := buffer[..], bufferPos;
        if packetSize == 0 {
          break;
        }
        CutOne(now, pos, packets, goal);
        packets := packets + [buffer[..packetSize]];
        var delta := bufferPos - packetSize;
        if delta == 0 {
          bufferPos := 0;
          assert MoveDown(now, pos, pos) == now;
          break;
        }
        ShiftDown(packetSize);
        bufferPos := delta;
        if bufferPos < HEADER_SIZE {
          break;
        }
        packetSize := ReadSize();
      }
      ContinuesEnd(buffer[..], bufferPos, packets, goal);
    }

    /** recv's copy into the buffer at the cursor. */
    method Fill(data: seq<byte>)
      requires bufferPos + |data| <= buffer.Length
      modifies buffer
      ensures buffer[..] == Overwrite(old(buffer[..]), bufferPos, data)
    {
      ghost var was := buffer[..];
      forall k | 0 <= k < |data| {
        buffer[bufferPos + k] := data[k];
      }
      ghost var o := Overwrite(was, bufferPos, data);
      assert forall k :: 0 <= k < buffer.Length ==> buffer[..][k] == o[k];
    }

    /** memmove of the bytes after the first packet to the front. */
    method ShiftDown(n: nat)
      requires n <= bufferPos <= buffer.Length
      modifies buffer
      ensures buffer[..] == MoveDown(old(buffer[..]), n, bufferPos)
    {
      ghost var was := buffer[..];
      forall k | 0 <= k < bufferPos - n {
        buffer[k] := buffer[n + k];
      }
      ghost var m := MoveDown(was, n, bufferPos);
      assert forall k :: 0 <= k < buffer.Length ==> buffer[..][k] == m[k];
    }

    method ReadSize() returns (n: nat)
      requires buffer.Length == BUFFER_SIZE
      ensures n == SizeField(buffer[..])
    {
      n := buffer[2] as int + 256 * buffer[3] as int;
    }

    /** get_packet_type: reads the live receive buffer, not the packet. */
    method GetPacketType() returns (command: byte)
      requires buffer.Length == BUFFER_SIZE
      ensures command == LiveType(buffer[..])
      ensures command == if buffer[1] <= RESP_FILE_LIST then buffer[1] else REQ_SET_SETTING
    {
      if buffer[1] > RESP_FILE_LIST {
        return REQ_SET_SETTING;
      }
      return buffer[1];
    }
  }

  lemma DrainStops(buf: seq<byte>, pos: nat)
    requires pos <= |buf|
    ensures !Complete(buf[..pos]) ==> Drain(buf, pos) == Drained(buf, pos, [])
    ensures pos < HEADER_SIZE || SizeField(buf) == 0 || pos < SizeField(buf) ==> !Complete(buf[..pos])
  {
    if pos >= HEADER_SIZE {
      assert SizeField(buf[..pos]) == SizeField(buf);
    }
  }

  /** What has been received so far parses to the packets cut so far and what is left in the buffer,
      and goes on doing so; the buffer only fills up behind a zero-size header. */
  lemma ReceiveExtends(received: seq<byte>, framed: seq<seq<byte>>, buf: seq<byte>, pos: nat, data: seq<byte>)
    requires pos + |data| <= |buf| == BUFFER_SIZE && Parse(received) == Parsed(framed, buf[..pos])
    ensures var d := Framing.Receive(buf, pos, data);
            && d.pos <= BUFFER_SIZE
            && Parse(received + data) == Parsed(framed + d.packets, d.buf[..d.pos])
            && (d.pos == BUFFER_SIZE ==> SizeField(d.buf) == 0)
  {
    ReceiveRefinesParse(buf, pos, data);
    ParseAppend(received, data);
    var filled := Overwrite(buf, pos, data);
    RoomAfterDrain(filled, pos + |data|);
    DrainStops(filled, pos + |data|);
  }

  /** Draining what is in the buffer after the packets already cut gives the goal. */
  ghost predicate Continues(buf: seq<byte>, pos: nat, packets: seq<seq<byte>>, goal: Drained)
    requires pos <= |buf|
  {
    var d := Drain(buf, pos);
    goal == Drained(d.buf, d.pos, packets + d.packets)
  }

  lemma ContinuesStart(buf: seq<byte>, pos: nat)
    requires pos <= |buf|
    ensures Continues(buf, pos, [], Drain(buf, pos))
  {
    hide Drain;
    assert [] + Drain(buf, pos).packets == Drain(buf, pos).packets;
  }

  lemma ContinuesEnd(buf: seq<byte>, pos: nat, packets: seq<seq<byte>>, goal: Drained)
    requires pos <= |buf| && Continues(buf, pos, packets, goal)
    requires pos < HEADER_SIZE || SizeField(buf) == 0 || pos < SizeField(buf)
    ensures goal == Drained(buf, pos, packets)
  {
    DrainStops(buf, pos);
    assert packets + [] == packets;
  }

  lemma CutOne(buf: seq<byte>, pos: nat, packets: seq<seq<byte>>, goal: Drained)
    requires HEADER_SIZE <= pos <= |buf| && 0 < SizeField(buf) <= pos && Continues(buf, pos, packets, goal)
    ensures var n := SizeField(buf);
            Continues(MoveDown(buf, n, pos), pos - n, packets + [buf[..n]], goal)
  {
    var n := SizeField(buf);
    assert SizeField(buf[..pos]) == n;
    Regroup(packets, [buf[..n]], Drain(MoveDown(buf, n, pos), pos - n).packets);
  }

  /** send_response_sync against any sequence of send results: what goes out is the buffer's bytes in
      order, each once; all of them exactly when it returns having sent them. A broken socket ends it
      early without telling the caller. */
  method SendResponseSync(tls: array<byte>, length: nat, results: seq<SendResult>)
    returns (delivered: seq<byte>, outcome: SendOutcome)
    requires length <= tls.Length
    ensures delivered <= tls[..length]
    ensures outcome == Sent ==> delivered == tls[..length]
    ensures delivered == tls[..length] && length > 0 ==> outcome == Sent
    ensures outcome == GaveUp ==> Broken in results
    ensures outcome == StillTrying ==> Broken !in results
    ensures outcome == StillTrying ==> Offered(results) < length || length == 0
  {
    delivered := [];
    var sentBytes := 0;
    var t := 0;
    while t < |results|
      invariant 0 <= t <= |results| && 0 <= sentBytes <= length && (sentBytes < length || length == 0)
      invariant delivered == tls[..sentBytes] && Broken !in results[..t]
      invariant Offered(results[..t]) == sentBytes
    {
      assert results[..t + 1] == results[..t] + [results[t]];
      OfferedSnoc(results[..t], results[t]);
      match results[t] {
        case TryAgain =>
        case Broken =>
          return delivered, GaveUp;
        case Accepted(count) =>
          var took := if count <= length - sentBytes then count else length - sentBytes;
          TakeMore(tls[..], sentBytes, took);
          delivered := delivered + tls[sentBytes..sentBytes + took];
          sentBytes := sentBytes + took;
          if sentBytes >= length {
            return delivered, Sent;
          }
      }
      t := t + 1;
    }
    assert results[..|results|] == results;
    return delivered, StillTrying;
  }

  lemma TakeMore(s: seq<byte>, a: nat, b: nat)
    requires a + b <= |s|
    ensures s[..a] + s[a..a + b] == s[..a + b]
  {
  }

  /** The bytes a schedule of results would take in all. */
  ghost function Offered(results: seq<SendResult>): nat {
    if results == [] then 0
    else Offered(results[..|results| - 1]) +
         (if results[|results| - 1].Accepted? then results[|results| - 1].count else 0)
  }

  lemma OfferedSnoc(results: seq<SendResult>, last: SendResult)
    ensures Offered(results + [last]) == Offered(results) + (if last.Accepted? then last.count else 0)
  {
    assert (results + [last])[..|results|] == results;
  }
}
