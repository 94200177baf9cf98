/**
 * The length-prefixed frames of judge/judgeapi.py: a 4-byte unsigned big-endian byte count
 * (`struct.Struct('!I')`) followed by that many payload bytes. The payload itself (compressed
 * JSON) is an opaque byte sequence here.
 */
module Framing {
  import opened Wrappers

  newtype byte = x: int | 0 <= x < 256

  /** `size_pack.size`. */
  const PrefixSize: nat := 4
  /** The first length a 4-byte unsigned prefix cannot hold. */
  const MaxLength: nat := 0x1_0000_0000

  /** Why reading or writing a frame failed. */
  datatype FrameError =
    | LengthOverflow   // `struct.error` from packing a length that does not fit in 4 bytes
    | BadPrefix        // `struct.error` from unpacking fewer than 4 bytes
    | NoResponse       // `ValueError('Judge did not respond')`: an empty read

  /** `size_pack.pack(n)`: the 4 big-endian bytes of `n`, or an error when `n` does not fit. */
  function Pack(n: nat): (r: Result<seq<byte>, FrameError>)
    ensures r.Success? <==> n < MaxLength
    ensures r.Success? ==> |r.value| == PrefixSize
  {
    if n >= MaxLength then Failure(LengthOverflow)
    else
      var n1 := n / 0x100;
      var n2 := n1 / 0x100;
      Success([(n2 / 0x100) as byte, (n2 % 0x100) as byte, (n1 % 0x100) as byte, (n % 0x100) as byte])
  }

  /** `size_pack.unpack(b)[0]`: the big-endian number in 4 bytes, or an error for any other length. */
  function Unpack(b: seq<byte>): (r: Result<nat, FrameError>)
    ensures r.Success? <==> |b| == PrefixSize
    ensures r.Success? ==> r.value < MaxLength
  {
    if |b| != PrefixSize then Failure(BadPrefix)
    else Success(((b[0] as nat * 0x100 + b[1] as nat) * 0x100 + b[2] as nat) * 0x100 + b[3] as nat)
  }

  /** Unpacking a packed length gives the length back. */
  lemma UnpackPack(n: nat)
    requires n < MaxLength
    ensures Unpack(Pack(n).value) == Success(n)
  {
    var n1 := n / 0x100;
    var n2 := n1 / 0x100;
    assert n == n1 * 0x100 + n % 0x100;
    assert n1 == n2 * 0x100 + n1 % 0x100;
    assert n2 == (n2 / 0x100) * 0x100 + n2 % 0x100;
  }

  /** Packing an unpacked prefix gives the prefix back: every 4-byte prefix is some length's encoding. */
  lemma PackUnpack(b: seq<byte>)
    requires |b| == PrefixSize
    ensures Pack(Unpack(b).value) == Success(b)
  {
    var b0, b1, b2, b3 := b[0] as nat, b[1] as nat, b[2] as nat, b[3] as nat;
    var n2 := b0 * 0x100 + b1;
    var n1 := n2 * 0x100 + b2;
    var n := n1 * 0x100 + b3;
    DivMod(n1, b3, 0x100);
    DivMod(n2, b2, 0x100);
    DivMod(b0, b1, 0x100);
    var c := Pack(n).value;
    assert c[0] == b[0] && c[1] == b[1] && c[2] == b[2] && c[3] == b[3];
    assert c == b;
  }

  /** Euclidean division of q * m + d by m, for a remainder d below m. */
  lemma DivMod(q: nat, d: nat, m: nat)
    requires d < m
    ensures (q * m + d) / m == q && (q * m + d) % m == d
  {
    var a := q * m + d;
    var q', d' := a / m, a % m;
    assert a == q' * m + d';
    if q' > q {
      MulMonotone(q + 1, q', m);
    } else if q' < q {
      MulMonotone(q' + 1, q, m);
    }
  }

  lemma MulMonotone(x: int, y: int, m: nat)
    requires x <= y
    ensures x * m <= y * m
  {
  }

  /** What the writer sends for a payload: its packed length, then the payload. */
  function Frame(payload: seq<byte>): (r: Result<seq<byte>, FrameError>)
    ensures r.Success? <==> |payload| < MaxLength
    ensures r.Success? ==> |r.value| == PrefixSize + |payload| && r.value[PrefixSize..] == payload
  {
    match Pack(|payload|)
    case Failure(e) => Failure(e)
    case Success(prefix) => Success(prefix + payload)
  }

  /**
   * Reading a reply from the bytes the peer sends: `read(4)`, an error if that is empty, unpack,
   * then `read(length)`, an error if that is empty. A payload cut short by the end of the stream
   * is returned as read.
   */
  function ReadReply(stream: seq<byte>): (r: Result<seq<byte>, FrameError>)
    ensures stream == [] ==> r == Failure(NoResponse)
    ensures r.Success? ==> 0 < |r.value| && PrefixSize + |r.value| <= |stream|
    ensures r.Success? ==> r.value == stream[PrefixSize..PrefixSize + |r.value|] &&
                           |r.value| <= Unpack(stream[..PrefixSize]).value
  {
    var head := stream[..if |stream| < PrefixSize then |stream| else PrefixSize];
    if head == [] then Failure(NoResponse)
    else match Unpack(head)
      case Failure(e) => Failure(e)
      case Success(length) =>
        var end := if PrefixSize + length < |stream| then PrefixSize + length else |stream|;
        var body := stream[PrefixSize..end];
        if body == [] then Failure(NoResponse) else Success(body)
  }

  /** A framed non-empty payload, whatever follows it, reads back as that payload. */
  lemma ReadFrame(payload: seq<byte>, rest: seq<byte>)
    requires 0 < |payload| < MaxLength
    ensures ReadReply(Frame(payload).value + rest) == Success(payload)
  {
    var prefix := Pack(|payload|).value;
    var stream := Frame(payload).value + rest;
    UnpackPack(|payload|);
    assert stream[..PrefixSize] == prefix;
    assert stream[PrefixSize..PrefixSize + |payload|] == payload;
  }

  /** A frame announcing zero bytes is read as no response at all. */
  lemma EmptyFrameIsNoResponse(rest: seq<byte>)
    ensures ReadReply(Frame([]).value + rest) == Failure(NoResponse)
  {
    var stream := Frame([]).value + rest;
    UnpackPack(0);
    assert stream[..PrefixSize] == Pack(0).value;
  }
}
