/** The client's recv_from_server against every way the kernel may cut the reply.
    Source: src/common/utils.hpp:13-46. */
module Transport {
  import opened Protocol

  /** What one recv comes back with: at least one byte, or an error. */
  datatype RecvResult = Bytes(count: nat) | Lost

  datatype Outcome = Received | Failed | Blocked

  function Least(a: nat, b: nat): nat {
    if a <= b then a else b
  }

  /** The bytes the first recv brings: it asks for four. */
  function FirstCount(stream: seq<byte>, results: seq<RecvResult>): nat {
    if results == [] || results[0].Lost? then 0 else Least(results[0].count, Least(HEADER_SIZE, |stream|))
  }

  /** Reads one packet from stream into buffer, whose old content is arbitrary. The packet at the front
      of the stream comes out whole, and nothing after it is consumed, exactly when the first recv brings
      all four header bytes. */
  method RecvFromServer(stream: seq<byte>, results: seq<RecvResult>, buffer: array<byte>)
    returns (outcome: Outcome, consumed: nat, calls: nat)
    requires buffer.Length == BUFFER_SIZE
    requires HEADER_SIZE <= |stream|
    requires forall t :: 0 <= t < |results| && results[t].Bytes? ==> results[t].count > 0
    modifies buffer
    ensures consumed <= |stream|
    ensures outcome == Received ==>
              var n := ReadLength(stream);
              (FirstCount(stream, results) == HEADER_SIZE <==>
               n <= |stream| && buffer[..n] == stream[..n] && consumed == n)
    ensures FirstCount(stream, results) == HEADER_SIZE ==>
              consumed <= ReadLength(stream) && buffer[..consumed] == stream[..consumed]
    ensures calls <= |results| && Lost !in results[..if calls > 0 then calls - 1 else 0]
    ensures outcome == Failed ==> calls > 0 && results[calls - 1].Lost?
    ensures outcome == Blocked ==> calls == |results| || consumed == |stream|
    ensures outcome == Blocked && FirstCount(stream, results) == HEADER_SIZE ==> consumed < ReadLength(stream)
  {
    consumed := 0;
    if results == [] {
      return Blocked, 0, 0;
    }
    if results[0].Lost? {
      return Failed, 0, 1;
    }
    var first := Least(results[0].count, HEADER_SIZE);
    CopyIn(buffer, 0, stream, 0, first);
    consumed := first;
    ghost var head := buffer[..HEADER_SIZE];
    assert head[..first] == stream[..first];
    var packetSize := buffer[2] as int + 256 * buffer[3] as int;
    assert packetSize == SizeField(head) == SizeField(buffer[..]);
    if packetSize == HEADER_SIZE {
      Verdict(stream, buffer[..], head, first, consumed, HEADER_SIZE);
      return Received, consumed, 1;
    }
    var recvCount := HEADER_SIZE;
    var t := 1;
    while recvCount < packetSize
      invariant HEADER_SIZE <= recvCount && (recvCount <= packetSize || recvCount == HEADER_SIZE)
      invariant 1 <= t <= |results| && Lost !in results[..t]
      invariant consumed == first + (recvCount - HEADER_SIZE) <= |stream|
      invariant buffer[..HEADER_SIZE] == head
      invariant buffer[HEADER_SIZE..recvCount] == stream[first..consumed]
      decreases packetSize - recvCount
    {
      Verdict(stream, buffer[..], head, first, consumed, recvCount);
      if t == |results| || consumed == |stream| {
        return Blocked, consumed, t;
      }
      if results[t].Lost? {
        return Failed, consumed, t + 1;
      }
      var bytesRead := Least(results[t].count, Least(packetSize - recvCount, |stream| - consumed));
      ghost var was := buffer[..];
      CopyIn(buffer, recvCount, stream, consumed, bytesRead);
      Extends(was, buffer[..], stream, first, recvCount, consumed, bytesRead);
      recvCount := recvCount + bytesRead;
      consumed := consumed + bytesRead;
      assert results[..t + 1] == results[..t] + [results[t]];
      t := t + 1;
    }
    Verdict(stream, buffer[..], head, first, consumed, recvCount);
    return Received, consumed, t;
  }

  method CopyIn(buffer: array<byte>, at: nat, stream: seq<byte>, from: nat, count: nat)
    requires at + count <= buffer.Length && from + count <= |stream|
    modifies buffer
    ensures buffer[..] == old(buffer[..at]) + stream[from..from + count] + old(buffer[at + count..])
  {
    forall k | 0 <= k < count {
      buffer[at + k] := stream[from + k];
    }
  }

  lemma Extends(was: seq<byte>, now: seq<byte>, stream: seq<byte>, first: nat, at: nat, from: nat, count: nat)
    requires HEADER_SIZE <= at && at + count <= |was| && first <= from && from + count <= |stream|
    requires now == was[..at] + stream[from..from + count] + was[at + count..]
    requires was[HEADER_SIZE..at] == stream[first..from]
    ensures |now| == |was| && now[..HEADER_SIZE] == was[..HEADER_SIZE]
    ensures now[HEADER_SIZE..at + count] == stream[first..from + count]
  {
    assert now[HEADER_SIZE..at + count] == was[HEADER_SIZE..at] + stream[from..from + count];
    assert stream[first..from + count] == stream[first..from] + stream[from..from + count];
  }

  /** The first recv brought first bytes of the header; count - 4 more have been put behind it. */
  lemma Verdict(stream: seq<byte>, buf: seq<byte>, head: seq<byte>, first: nat, consumed: nat, count: nat)
    requires |buf| == BUFFER_SIZE && HEADER_SIZE <= |stream|
    requires 0 < first <= HEADER_SIZE <= count <= |buf| && consumed == first + (count - HEADER_SIZE) <= |stream|
    requires head == buf[..HEADER_SIZE] && head[..first] == stream[..first]
    requires buf[HEADER_SIZE..count] == stream[first..consumed]
    ensures first == HEADER_SIZE ==> SizeField(head) == SizeField(stream) && buf[..consumed] == stream[..consumed]
    ensures var n := ReadLength(stream);
            count == ReadLength(head) ==>
              (first == HEADER_SIZE <==> n <= |stream| && buf[..n] == stream[..n] && consumed == n)
  {
    var n := ReadLength(stream);
    if first == HEADER_SIZE {
      assert head == stream[..HEADER_SIZE];
      assert head[2] == stream[..HEADER_SIZE][2] && head[3] == stream[..HEADER_SIZE][3];
      assert buf[..consumed] == buf[..HEADER_SIZE] + buf[HEADER_SIZE..consumed];
      assert stream[..consumed] == stream[..HEADER_SIZE] + stream[HEADER_SIZE..consumed];
    } else if n <= |stream| && buf[..n] == stream[..n] {
      assert head[2] == buf[..n][2] == stream[2] && head[3] == buf[..n][3] == stream[3];
    }
  }
}
