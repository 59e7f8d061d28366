/** Length-prefixed frames, as one side of a socket writes them and the other side parses them. */
module Framing {
  import opened Options

  type Byte = b: int | 0 <= b < 256

  /** Largest payload a reader accepts. */
  const MAX_PAYLOAD_SIZE: nat := 2 * 1024 * 1024

  const U32: nat := 0x1_0000_0000

  lemma Regroup(a: seq<Byte>, b: seq<Byte>, c: seq<Byte>)
    ensures (a + b) + c == a + (b + c)
  {
  }

  /** The serialiser: foreign code in the source, so a pair of functions here. */
  datatype Codec<!T> = Codec(enc: T -> seq<Byte>, dec: seq<Byte> -> Option<T>)

  /** A decoder that is handed more bytes than one message stops at the end of that message. */
  ghost predicate SelfDelimiting<T(!new)>(c: Codec<T>) {
    forall m: T, rest: seq<Byte> :: c.dec(c.enc(m) + rest) == Some(m)
  }

  /** `len as u32`, little endian: lengths of 2^32 and more are truncated. */
  function LE32(n: nat): (b: seq<Byte>)
    ensures |b| == 4
  {
    [n % 256, n / 256 % 256, n / 65536 % 256, n / 16777216 % 256]
  }

  function FromLE32(b: seq<Byte>): nat
    requires |b| == 4
  {
    b[0] as int + 256 * (b[1] as int) + 65536 * (b[2] as int) + 16777216 * (b[3] as int)
  }

  lemma LE32RoundTrip(n: nat)
    ensures FromLE32(LE32(n)) == n % U32
  {
    var q1, q2, q3 := n / 256, n / 65536, n / 16777216;
    assert q2 == q1 / 256 && q3 == q2 / 256;
    assert n == n % 256 + 256 * (q1 % 256) + 65536 * (q2 % 256) + 16777216 * (q3 % 256) + U32 * (q3 / 256);
  }

  function Frame<T>(c: Codec<T>, m: T): seq<Byte> {
    LE32(|c.enc(m)|) + c.enc(m)
  }

  predicate Sendable<T>(c: Codec<T>, m: T) {
    |c.enc(m)| <= MAX_PAYLOAD_SIZE
  }

  ghost predicate AllSendable<T>(c: Codec<T>, ms: seq<T>) {
    forall i :: 0 <= i < |ms| ==> Sendable(c, ms[i])
  }

  function Frames<T>(c: Codec<T>, ms: seq<T>): seq<Byte> {
    if ms == [] then [] else Frame(c, ms[0]) + Frames(c, ms[1..])
  }

  lemma {:induction false} FramesAppend<T>(c: Codec<T>, a: seq<T>, b: seq<T>)
    ensures Frames(c, a + b) == Frames(c, a) + Frames(c, b)
  {
    if a == [] {
      assert a + b == b;
    } else {
      assert (a + b)[1..] == a[1..] + b;
      FramesAppend(c, a[1..], b);
    }
  }

  datatype ReadError = ZeroByteRead | PayloadSizeProhibitive | Serialisation | Io

  datatype Parsed<+T> = Incomplete | Bad(error: ReadError) | Complete(msg: T, rest: seq<Byte>)

  /** What one attempt to take a message off the front of a byte string gives. */
  function Parse<T>(c: Codec<T>, bytes: seq<Byte>): Parsed<T> {
    if |bytes| < 4 then Incomplete
    else
      var len := FromLE32(bytes[..4]);
      if len > MAX_PAYLOAD_SIZE then Bad(PayloadSizeProhibitive)
      else if len > |bytes| - 4 then Incomplete
      else match c.dec(bytes[4..])
           case None => Bad(Serialisation)
           case Some(m) => Complete(m, bytes[4 + len..])
  }

  /** A length prefix and a body, whatever the bytes of the prefix. */
  lemma ParsePrefixed<T>(c: Codec<T>, head: seq<Byte>, body: seq<Byte>)
    requires |head| == 4
    ensures var len := FromLE32(head);
            Parse(c, head + body) ==
              if len > MAX_PAYLOAD_SIZE then Bad(PayloadSizeProhibitive)
              else if len > |body| then Incomplete
              else match c.dec(body)
                   case None => Bad(Serialisation)
                   case Some(m) => Complete(m, body[len..])
  {
    var bytes, len := head + body, FromLE32(head);
    assert bytes[..4] == head && bytes[4..] == body;
    if len <= |body| { assert bytes[4 + len..] == body[len..]; }
  }

  /** A frame followed by anything parses to its message and exactly the rest, whatever the rest
      is, if and only if its payload is no larger than the limit. */
  lemma FrameRoundTrip<T(!new)>(c: Codec<T>, m: T, rest: seq<Byte>)
    requires SelfDelimiting(c)
    ensures Parse(c, Frame(c, m) + rest) == Complete(m, rest) <==> Sendable(c, m)
  {
    var payload := c.enc(m);
    var size := |payload|;
    LE32RoundTrip(size);
    Regroup(LE32(size), payload, rest);
    ParsePrefixed(c, LE32(size), payload + rest);
    if Sendable(c, m) {
      assert (payload + rest)[size..] == rest;
    } else if size % U32 <= MAX_PAYLOAD_SIZE {
      assert |(payload + rest)[size % U32..]| != |rest|;
    }
  }

  /** Any proper prefix of a frame is incomplete: neither a message nor an error. */
  lemma FramePrefixIncomplete<T>(c: Codec<T>, m: T, part: seq<Byte>)
    requires Sendable(c, m) && |part| < |Frame(c, m)| && part <= Frame(c, m)
    ensures Parse(c, part).Incomplete?
  {
    if |part| >= 4 {
      LE32RoundTrip(|c.enc(m)|);
      assert part[..4] == Frame(c, m)[..4] == LE32(|c.enc(m)|);
    }
  }

  /** A byte string that starts a run of frames holds a complete frame exactly when it reaches
      the end of the first one; what comes off is that frame's message. */
  lemma ParsePrefixOfFrames<T(!new)>(c: Codec<T>, ms: seq<T>, bytes: seq<Byte>)
    requires SelfDelimiting(c) && AllSendable(c, ms) && bytes <= Frames(c, ms)
    ensures ms == [] ==> bytes == [] && Parse(c, bytes).Incomplete?
    ensures ms != [] && |bytes| < |Frame(c, ms[0])| ==> Parse(c, bytes).Incomplete?
    ensures ms != [] && |bytes| >= |Frame(c, ms[0])| ==>
              var rest := bytes[|Frame(c, ms[0])|..];
              && Parse(c, bytes) == Complete(ms[0], rest)
              && rest <= Frames(c, ms[1..])
              && bytes == Frame(c, ms[0]) + rest
  {
    if ms != [] {
      var f := Frame(c, ms[0]);
      assert Frames(c, ms) == f + Frames(c, ms[1..]);
      if |bytes| < |f| {
        assert bytes <= f;
        FramePrefixIncomplete(c, ms[0], bytes);
      } else {
        var rest := bytes[|f|..];
        assert bytes[..|f|] == f;
        assert bytes == f + rest;
        assert rest <= Frames(c, ms[1..]);
        FrameRoundTrip(c, ms[0], rest);
      }
    }
  }
}
