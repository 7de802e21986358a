/** Files as byte sequences: positioned writes, and the chunks a download reads.
    Source: the write, lseek and read calls of src/server/client_controller.cpp:271-307,
    src/server/packets_utils.hpp:97-122 and src/client/menu.hpp:139-165. */
module Files {
  import opened Protocol
  import opened Sequences

  /** write(2) at an offset: bytes before and after the written range stay, a gap reads as zeros, and
      writing nothing changes nothing. */
  function WriteAt(file: seq<byte>, offset: nat, data: seq<byte>): seq<byte> {
    if data == [] then file else
    var head := if offset <= |file| then file[..offset] else file + Zeros(offset - |file|);
    var tail := if offset + |data| <= |file| then file[offset + |data|..] else [];
    head + data + tail
  }

  /** Byte by byte: what is written, elsewhere what was there, and zeros in a gap. */
  lemma WriteAtIs(file: seq<byte>, offset: nat, data: seq<byte>, k: nat)
    requires data != []
    ensures var now := WriteAt(file, offset, data);
            && |now| == (if |file| <= offset + |data| then offset + |data| else |file|)
            && (k < |now| ==>
                  now[k] == if offset <= k < offset + |data| then data[k - offset]
                            else if k < |file| then file[k] else 0)
  {
    var now := WriteAt(file, offset, data);
    var head := if offset <= |file| then file[..offset] else file + Zeros(offset - |file|);
    assert |head| == offset;
    if k < offset && k >= |file| {
      assert head[k] == Zeros(offset - |file|)[k - |file|];
    }
  }

  /** New bytes over the old prefix, old tail kept: what an upload promises, as files are opened without truncation. */
  function Overlay(was: seq<byte>, data: seq<byte>): seq<byte> {
    data + (if |data| <= |was| then was[|data|..] else [])
  }

  /** Without truncation a transfer leaves exactly its data when and only when the old file was no longer. */
  lemma OverlayIsData(was: seq<byte>, data: seq<byte>)
    ensures Overlay(was, data) == data <==> |was| <= |data|
  {
    assert |Overlay(was, data)| == if |data| <= |was| then |was| else |data|;
  }

  /** Writing on from where the last write ended extends the overlay. */
  lemma OverlayExtends(was: seq<byte>, done: seq<byte>, data: seq<byte>)
    ensures WriteAt(Overlay(was, done), |done|, data) == Overlay(was, done + data)
  {
    var file := Overlay(was, done);
    assert file[..|done|] == done;
    if |done| + |data| <= |was| {
      assert file[|done| + |data|..] == was[|done| + |data|..];
    }
  }

  // ---------- chunks ----------

  /** The client's break_vector_into. */
  function Chunks(size: nat, data: seq<byte>): (r: seq<seq<byte>>)
    requires size > 0
    decreases |data|
  {
    if data == [] then []
    else if |data| <= size then [data]
    else [data[..size]] + Chunks(size, data[size..])
  }

  /** The server's ceiling division for the number of chunks of a file. */
  function ChunkCount(length: nat): nat {
    length / MAX_CHUNK + (if length % MAX_CHUNK != 0 then 1 else 0)
  }

  /** The bytes one chunk request reads: seek to index * MAX_CHUNK, then read at most MAX_CHUNK. */
  function ChunkAt(file: seq<byte>, index: nat): (r: seq<byte>)
    ensures |r| <= MAX_CHUNK
  {
    var from := index * MAX_CHUNK;
    Field(file, from, MAX_CHUNK)
  }

  lemma FrontAndRest(data: seq<byte>, size: nat, rest: seq<seq<byte>>)
    requires size <= |data| && Concat(rest) == data[size..]
    ensures Concat([data[..size]] + rest) == data
  {
    ConcatCons(data[..size], rest);
  }

  lemma {:induction false} ChunksCover(size: nat, data: seq<byte>)
    requires size > 0
    ensures Concat(Chunks(size, data)) == data
    decreases |data|
  {
    if |data| > size {
      ChunksCover(size, data[size..]);
      FrontAndRest(data, size, Chunks(size, data[size..]));
    } else if data != [] {
      assert [data][1..] == [];
    }
  }

  /** Every chunk but the last is full, the last is not empty, and there are ceil(n / size) of them. */
  lemma {:induction false} ChunkShape(size: nat, data: seq<byte>)
    requires size > 0
    ensures var cs := Chunks(size, data);
            && (forall k :: 0 <= k < |cs| ==> 0 < |cs[k]| <= size)
            && (forall k :: 0 <= k < |cs| - 1 ==> |cs[k]| == size)
            && (|data| <= |cs| * size < |data| + size)
    decreases |data|
  {
    if |data| > size {
      var tail := Chunks(size, data[size..]);
      ChunkShape(size, data[size..]);
      assert (|tail| + 1) * size == |tail| * size + size;
    } else if data != [] {
      assert 1 * size == size;
    }
  }

  /** The k-th chunk the client cuts is the k-th chunk the server would read back. */
  lemma {:induction false} ChunksAreSlices(data: seq<byte>, k: nat)
    requires k < |Chunks(MAX_CHUNK, data)|
    ensures Chunks(MAX_CHUNK, data)[k] == ChunkAt(data, k)
    decreases k
  {
    if k == 0 || |data| <= MAX_CHUNK {
      assert |data| <= MAX_CHUNK ==> data[0..|data|] == data;
    } else {
      var rest := data[MAX_CHUNK..];
      ChunksAreSlices(rest, k - 1);
      ChunkShift(data, k);
    }
  }

  lemma ChunkShift(data: seq<byte>, k: nat)
    requires k > 0 && |data| > MAX_CHUNK
    ensures ChunkAt(data, k) == ChunkAt(data[MAX_CHUNK..], k - 1)
  {
  }

  lemma {:induction false} ChunkCountIsLength(data: seq<byte>)
    ensures ChunkCount(|data|) == |Chunks(MAX_CHUNK, data)|
    decreases |data|
  {
    if |data| > MAX_CHUNK {
      ChunkCountIsLength(data[MAX_CHUNK..]);
    }
  }

  /** The first k chunks. */
  function Prefix(file: seq<byte>, k: nat): seq<byte> {
    if k == 0 then [] else Prefix(file, k - 1) + ChunkAt(file, k - 1)
  }

  lemma {:induction false} PrefixIs(file: seq<byte>, k: nat)
    ensures Prefix(file, k) == file[..if k * MAX_CHUNK <= |file| then k * MAX_CHUNK else |file|]
  {
    if k > 0 {
      PrefixIs(file, k - 1);
    }
  }

  lemma CountCovers(length: nat)
    ensures length <= ChunkCount(length) * MAX_CHUNK < length + MAX_CHUNK
  {
  }

  /** Reading indices 0 to count - 1 covers the file exactly, for every length. */
  lemma ChunksReadBack(file: seq<byte>)
    ensures Prefix(file, ChunkCount(|file|)) == file
  {
    var n := ChunkCount(|file|);
    CountCovers(|file|);
    PrefixIs(file, n);
    if n * MAX_CHUNK <= |file| {
      assert file[..n * MAX_CHUNK] == file;
    } else {
      assert file[..|file|] == file;
    }
  }
}
