/** The 20-byte record the distributor and the servers exchange: a 32-bit descriptor
    followed by the client's 16 request bytes, as it lies in memory on a little-endian
    machine, and the byte image of a queue of such records. */
module Wire {

  const NORMAL_LEN := 16
  const MESS_LEN := 20

  type byte = x: int | 0 <= x < 256
  type int32 = x: int | -0x8000_0000 <= x < 0x8000_0000
  type Payload = s: seq<byte> | |s| == NORMAL_LEN witness seq(16, i => 0)

  datatype Message = Message(fd: int32, m: Payload)

  function EncodeFd(fd: int32): (b: seq<byte>)
    ensures |b| == 4
  {
    var u := if fd < 0 then fd + 0x1_0000_0000 else fd;
    [u % 256, u / 256 % 256, u / 256 / 256 % 256, u / 256 / 256 / 256]
  }

  function LittleEndian(b: seq<byte>): (u: int)
    requires |b| == 4
    ensures 0 <= u < 0x1_0000_0000
  {
    b[0] as int + 256 * (b[1] as int + 256 * (b[2] as int + 256 * b[3] as int))
  }

  function DecodeFd(b: seq<byte>): int32
    requires |b| == 4
  {
    var u := LittleEndian(b);
    if u >= 0x8000_0000 then u - 0x1_0000_0000 else u
  }

  function Encode(msg: Message): (b: seq<byte>)
    ensures |b| == MESS_LEN
  {
    EncodeFd(msg.fd) + msg.m
  }

  function Decode(b: seq<byte>): Message
    requires |b| == MESS_LEN
  {
    Message(DecodeFd(b[..4]), b[4..])
  }

  lemma Digit(low: int, high: int)
    requires 0 <= low < 256
    ensures (low + 256 * high) % 256 == low && (low + 256 * high) / 256 == high
  {
  }

  /** How the record lies in memory: 20 bytes, of which the first four are the digits of the
      descriptor in base 256, least significant first (a negative one counted from 2^32), and
      the other 16 the payload. */
  lemma RecordLayout(msg: Message)
    ensures |Encode(msg)| == 20 && |msg.m| == 16 && Encode(msg)[4..] == msg.m
    ensures var u := if msg.fd < 0 then msg.fd + 4294967296 else msg.fd as int; var b := Encode(msg);
      && b[0] == u % 256 && b[1] == u / 256 % 256 && b[2] == u / 65536 % 256 && b[3] == u / 16777216 % 256
      && b[0] as int + 256 * b[1] as int + 65536 * b[2] as int + 16777216 * b[3] as int == u
  {
    var u := if msg.fd < 0 then msg.fd + 4294967296 else msg.fd as int;
    assert Encode(msg)[..4] == EncodeFd(msg.fd) && Encode(msg)[4..] == msg.m;
    assert u / 256 / 256 == u / 65536 && u / 256 / 256 / 256 == u / 16777216;
  }

  lemma FdRoundTrip(fd: int32)
    ensures DecodeFd(EncodeFd(fd)) == fd
  {
  }

  lemma FdBytesRoundTrip(b: seq<byte>)
    requires |b| == 4
    ensures EncodeFd(DecodeFd(b)) == b
  {
    var b2 := b[2] as int + 256 * b[3] as int;
    var b1 := b[1] as int + 256 * b2;
    Digit(b[0], b1);
    Digit(b[1], b2);
    Digit(b[2], b[3]);
  }

  /** A record survives the trip through its 20 bytes. */
  lemma DecodeEncode(msg: Message)
    ensures Decode(Encode(msg)) == msg
  {
    FdRoundTrip(msg.fd);
    assert Encode(msg)[..4] == EncodeFd(msg.fd) && Encode(msg)[4..] == msg.m;
  }

  /** Any 20 bytes are the image of exactly one record. */
  lemma EncodeDecode(b: seq<byte>)
    requires |b| == MESS_LEN
    ensures Encode(Decode(b)) == b
  {
    FdBytesRoundTrip(b[..4]);
    assert b == b[..4] + b[4..];
  }

  /** The bytes of a stream that holds the records of q, oldest first. */
  function Image(q: seq<Message>): seq<byte> {
    if q == [] then [] else Encode(q[0]) + Image(q[1..])
  }

  lemma {:induction false} ImageLength(q: seq<Message>)
    ensures |Image(q)| == MESS_LEN * |q|
  {
    if q != [] {
      ImageLength(q[1..]);
    }
  }

  /** Writing one whole record at the tail of the stream appends it to the queue. */
  lemma {:induction false} ImageAppend(q: seq<Message>, msg: Message)
    ensures Image(q + [msg]) == Image(q) + Encode(msg)
  {
    if q == [] {
      assert [msg][1..] == [];
    } else {
      ImageAppend(q[1..], msg);
      assert (q + [msg])[1..] == q[1..] + [msg];
    }
  }

  /** Reading 20 bytes at the head of the stream removes exactly the oldest record. */
  lemma ImageHead(q: seq<Message>)
    requires q != []
    ensures |Image(q)| >= MESS_LEN
    ensures Image(q)[..MESS_LEN] == Encode(q[0])
    ensures Image(q)[MESS_LEN..] == Image(q[1..])
  {
    ImageLength(q);
  }

  /** A byte stream holds at most one queue of records. */
  lemma {:induction false} ImageInjective(p: seq<Message>, q: seq<Message>)
    requires Image(p) == Image(q)
    ensures p == q
  {
    ImageLength(p);
    ImageLength(q);
    if p != [] {
      ImageHead(p);
      ImageHead(q);
      DecodeEncode(p[0]);
      DecodeEncode(q[0]);
      ImageInjective(p[1..], q[1..]);
      assert p == [p[0]] + p[1..] && q == [q[0]] + q[1..];
    }
  }
}
