/** The wire format shared by client and server: a four-byte header (version, command,
    little-endian total_size) followed by a body, and the field encodings the bodies use.
    Source: src/common/protocol.hpp, src/common/packets.hpp. */
module Protocol {

  type byte = x: int | 0 <= x < 256

  const HEADER_SIZE: nat := 4
  const BUFFER_SIZE: nat := 65535
  const MAX_CHUNK: nat := BUFFER_SIZE - HEADER_SIZE

  // Values of the PacketType enumeration that the model names.
  const REQ_FILE_TRANSFER_START: byte := 0
  const REQ_FILE_TRANSFER_CHUNK: byte := 1
  const REQ_FILE_TRANSFER_END: byte := 2
  const REQ_CRC_VERIFY: byte := 3
  const REQ_SERVER_STATUS: byte := 4
  const REQ_GET_SETTINGS: byte := 5
  const REQ_SET_SETTING: byte := 6
  const REQ_LOGIN: byte := 10
  const REQ_FILE_LIST: byte := 11
  const REQ_CONNECTIONS_INFO: byte := 12
  const REQ_PING: byte := 13
  const REQ_LOGOUT: byte := 14
  const REQ_GET_CURRENT_USER: byte := 15
  const REQ_FILE_OPEN: byte := 16
  const REQ_FILE_DOWNLOAD_CHUNK: byte := 17
  const REQ_FILE_CLOSE: byte := 18
  const REQ_CURRENT_DIRECTORY: byte := 19
  const REQ_CHANGE_WORKING_DIRECTORY: byte := 20
  const REQ_COMPRESS: byte := 22
  const REQ_CLEAN: byte := 23
  const RESP_CURRENT_DIRECTORY: byte := 24
  const RESP_IO_ERROR: byte := 25
  const RESP_FILE_OPENED: byte := 26
  const RESP_FILE_CHUNK: byte := 27
  const RESP_CONTINUE: byte := 29
  const RESP_ADMIN_ALREADY_CONNECTED: byte := 30
  const RESP_OK: byte := 31
  const RESP_SERVER_STATUS_RESPONSE: byte := 33
  const RESP_FILE_TRANSFER_OK: byte := 34
  const RESP_REQUIRES_ADMIN: byte := 35
  const RESP_LOGGED_IN: byte := 36
  const RESP_NOT_LOGGED_IN: byte := 37
  const RESP_CURRENT_USER: byte := 38
  const RESP_BAD_LOGIN: byte := 39
  const RESP_SETTINGS: byte := 40
  const RESP_CONNECTIONS_INFO: byte := 41
  const RESP_PONG: byte := 42
  const RESP_FILE_LIST: byte := 43
  const RESP_COMPRESS: byte := 44

  function SizeField(s: seq<byte>): nat
    requires |s| >= HEADER_SIZE
  {
    s[2] as int + 256 * s[3] as int
  }

  /** How many bytes recv_from_server means to take: the header, and on to total_size if that is more. */
  function ReadLength(s: seq<byte>): nat
    requires |s| >= HEADER_SIZE
  {
    if SizeField(s) < HEADER_SIZE then HEADER_SIZE else SizeField(s)
  }

  function Header(command: byte, size: nat): (h: seq<byte>)
    requires size <= BUFFER_SIZE
    ensures |h| == HEADER_SIZE && h[1] == command && SizeField(h) == size
  {
    [0, command, size % 256, size / 256]
  }

  /** A byte string whose total_size field is its own length. */
  predicate IsPacket(p: seq<byte>) {
    HEADER_SIZE <= |p| <= BUFFER_SIZE && SizeField(p) == |p|
  }

  function MakePacket(command: byte, body: seq<byte>): (p: seq<byte>)
    requires |body| <= MAX_CHUNK
    ensures IsPacket(p) && p[1] == command && p[HEADER_SIZE..] == body && |p| == HEADER_SIZE + |body|
  {
    Header(command, HEADER_SIZE + |body|) + body
  }

  // ---------- fixed-size fields ----------

  function Field(data: seq<byte>, from: nat, width: nat): seq<byte> {
    var lo := if from <= |data| then from else |data|;
    var hi := if from + width <= |data| then from + width else |data|;
    data[lo..hi]
  }

  function Zeros(n: nat): (z: seq<byte>)
    ensures |z| == n && forall k :: 0 <= k < n ==> z[k] == 0
  {
    seq(n, _ => 0)
  }

  /** The first width bytes of s, zero-filled: what strcpy or strncpy leaves in a zeroed field. */
  function Pad(s: seq<byte>, width: nat): (r: seq<byte>)
    ensures |r| == width
  {
    if |s| >= width then s[..width] else s + Zeros(width - |s|)
  }

  /** A C string: the characters before the first NUL. */
  function Text(s: seq<byte>): string {
    if s == [] || s[0] == 0 then "" else [s[0] as char] + Text(s[1..])
  }

  /** Names that survive a round trip through a char field of the given width. */
  predicate FitsField(name: string, width: nat) {
    |name| < width && forall k :: 0 <= k < |name| ==> 0 < name[k] as int < 256
  }

  /** Characters are single bytes. */
  function Bytes(name: string): (s: seq<byte>)
    ensures |s| == |name|
  {
    seq(|name|, k requires 0 <= k < |name| => name[k] as int % 256)
  }

  lemma {:induction false} TextOfBytes(name: string, rest: seq<byte>)
    requires forall k :: 0 <= k < |name| ==> 0 < name[k] as int < 256
    requires rest == [] || rest[0] == 0
    ensures Text(Bytes(name) + rest) == name
  {
    if name == "" {
      assert Bytes(name) + rest == rest;
    } else {
      var s := Bytes(name) + rest;
      assert s[1..] == Bytes(name[1..]) + rest;
      TextOfBytes(name[1..], rest);
      assert s[0] as char == name[0];
    }
  }

  lemma TextOfPad(name: string, width: nat)
    requires FitsField(name, width)
    ensures Text(Pad(Bytes(name), width)) == name
  {
    TextOfBytes(name, Zeros(width - |name|));
  }

  // ---------- little-endian integers ----------

  function LittleEndian(n: nat, width: nat): (s: seq<byte>)
    ensures |s| == width
  {
    if width == 0 then [] else [n % 256] + LittleEndian(n / 256, width - 1)
  }

  function FromLittleEndian(s: seq<byte>): nat {
    if s == [] then 0 else s[0] as int + 256 * FromLittleEndian(s[1..])
  }

  function Power256(width: nat): (p: nat)
    ensures p > 0
  {
    if width == 0 then 1 else 256 * Power256(width - 1)
  }

  lemma {:induction false} FromLittleEndianBound(s: seq<byte>, width: nat)
    requires |s| <= width
    ensures FromLittleEndian(s) < Power256(width)
    decreases width
  {
    if width > 0 {
      FromLittleEndianBound(if s == [] then s else s[1..], width - 1);
    }
  }

  lemma {:induction false} LittleEndianRoundTrip(n: nat, width: nat)
    requires n < Power256(width)
    ensures FromLittleEndian(LittleEndian(n, width)) == n
  {
    if width > 0 {
      LittleEndianRoundTrip(n / 256, width - 1);
      assert LittleEndian(n, width)[1..] == LittleEndian(n / 256, width - 1);
    }
  }

  /** Byte k of the encoding is the digit of weight 256 to the k: the least significant comes first. */
  lemma {:induction false} LittleEndianDigit(n: nat, width: nat, k: nat)
    requires k < width
    ensures LittleEndian(n, width)[k] == n / Power256(k) % 256
    decreases k
  {
    if k > 0 {
      LittleEndianDigit(n / 256, width - 1, k - 1);
      DivideTwice(n, Power256(k - 1));
    }
  }

  lemma DivideTwice(n: nat, p: nat)
    requires p > 0
    ensures n / 256 / p == n / (256 * p)
  {
    var q, r := n / 256 / p, n / 256 % p;
    assert n / 256 == q * p + r;
    assert n == (q * p + r) * 256 + n % 256;
    assert n == q * (256 * p) + (r * 256 + n % 256);
    assert 0 <= r * 256 + n % 256 < 256 * p;
    QuotientIs(n, 256 * p, q, r * 256 + n % 256);
  }

  lemma QuotientIs(n: nat, d: nat, q: nat, r: nat)
    requires d > 0 && n == q * d + r && r < d
    ensures n / d == q
  {
    var q' := n / d;
    assert q' < q ==> (q' + 1) * d <= q * d;
    assert q < q' ==> (q + 1) * d <= q' * d;
  }

  /** The header's size is the little-endian integer in its last two bytes. */
  lemma SizeIsLittleEndian(p: seq<byte>)
    requires |p| >= HEADER_SIZE
    ensures SizeField(p) == FromLittleEndian(p[2..4])
  {
    var s := p[2..4];
    assert s[1..][1..] == [];
    assert FromLittleEndian(s) == s[0] as int + 256 * FromLittleEndian(s[1..]);
  }
}
