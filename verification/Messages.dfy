/** The messages peers exchange, and one serialiser for them that meets what sockets assume of it. */
module Messages {
  import opened Options
  import opened Framing

  const U64: nat := 0x1_0000_0000_0000_0000

  type Uid = n: int | 0 <= n < U64
  type NameHash = h: seq<Byte> | |h| == 32 witness seq(32, _ => 0)
  /** Address and port; for IPv6 flow information and scope as well. */
  type V4Bytes = a: seq<Byte> | |a| == 6 witness seq(6, _ => 0)
  type V6Bytes = a: seq<Byte> | |a| == 26 witness seq(26, _ => 0)
  datatype Addr = V4(v4: V4Bytes) | V6(v6: V6Bytes)
  type Payload = d: seq<Byte> | |d| < U64 witness []
  type Listeners = l: seq<Addr> | |l| < U64 witness []

  datatype DenyReason = InvalidNameHash | FailedExternalReachability | NodeNotWhitelisted | ClientNotWhitelisted

  datatype Reachability = NotRequired | Required(listeners: Listeners)

  datatype Message =
    | Heartbeat
    | BootstrapRequest(uid: Uid, nameHash: NameHash, reach: Reachability)
    | BootstrapGranted(uid: Uid)
    | BootstrapDenied(reason: DenyReason)
    | EchoAddrReq
    | EchoAddrResp(addr: Addr)
    | ChooseConnection
    | Connect(uid: Uid, nameHash: NameHash)
    | Data(data: Payload)

  // ----- Numbers -----

  function EncNat(k: nat, n: nat): (b: seq<Byte>)
    ensures |b| == k
  {
    if k == 0 then [] else [n % 256] + EncNat(k - 1, n / 256)
  }

  function DecNat(k: nat, b: seq<Byte>): nat
    requires |b| >= k
  {
    if k == 0 then 0 else b[0] as int + 256 * DecNat(k - 1, b[1..])
  }

  function Pow256(k: nat): nat {
    if k == 0 then 1 else 256 * Pow256(k - 1)
  }

  lemma {:induction false} NatRoundTrip(k: nat, n: nat, rest: seq<Byte>)
    requires n < Pow256(k)
    ensures DecNat(k, EncNat(k, n) + rest) == n
  {
    if k > 0 {
      NatRoundTrip(k - 1, n / 256, rest);
      assert (EncNat(k, n) + rest)[1..] == EncNat(k - 1, n / 256) + rest;
    }
  }

  lemma U64RoundTrip(n: nat, rest: seq<Byte>)
    requires n < U64
    ensures DecNat(8, EncNat(8, n) + rest) == n
    ensures (EncNat(8, n) + rest)[8..] == rest
  {
    assert Pow256(4) == 0x1_0000_0000;
    assert Pow256(8) == 256 * Pow256(7) == 65536 * Pow256(6) == 16777216 * Pow256(5) == U64;
    NatRoundTrip(8, n, rest);
  }

  // ----- Address lists -----

  function EncAddr(a: Addr): seq<Byte> {
    match a
    case V4(b) => [4] + b
    case V6(b) => [6] + b
  }

  /** The address that `b` begins with. */
  function DecAddr(b: seq<Byte>): (r: Option<Addr>)
    ensures r.Some? ==> |EncAddr(r.value)| <= |b|
  {
    if |b| >= 7 && b[0] == 4 then Some(V4(b[1..7]))
    else if |b| >= 27 && b[0] == 6 then Some(V6(b[1..27]))
    else None
  }

  lemma AddrRoundTrip(a: Addr, rest: seq<Byte>)
    ensures DecAddr(EncAddr(a) + rest) == Some(a)
    ensures (EncAddr(a) + rest)[|EncAddr(a)|..] == rest
  {
    var b := EncAddr(a) + rest;
    if a.V4? { assert b[1..7] == a.v4; } else { assert b[1..27] == a.v6; }
  }

  function EncAddrs(l: seq<Addr>): seq<Byte> {
    if l == [] then [] else EncAddr(l[0]) + EncAddrs(l[1..])
  }

  function DecAddrs(n: nat, b: seq<Byte>): (r: Option<seq<Addr>>)
    ensures r.Some? ==> |r.value| == n
  {
    if n == 0 then Some([])
    else match DecAddr(b)
         case None => None
         case Some(a) =>
           match DecAddrs(n - 1, b[|EncAddr(a)|..])
           case None => None
           case Some(l) => Some([a] + l)
  }

  lemma {:induction false} AddrsRoundTrip(l: seq<Addr>, rest: seq<Byte>)
    ensures DecAddrs(|l|, EncAddrs(l) + rest) == Some(l)
  {
    if l != [] {
      AddrsRoundTrip(l[1..], rest);
      Regroup(EncAddr(l[0]), EncAddrs(l[1..]), rest);
      AddrRoundTrip(l[0], EncAddrs(l[1..]) + rest);
      assert [l[0]] + l[1..] == l;
    }
  }

  // ----- Messages -----

  function Tag(m: Message): Byte {
    match m
    case Heartbeat => 0
    case BootstrapRequest(_, _, _) => 1
    case BootstrapGranted(_) => 2
    case BootstrapDenied(_) => 3
    case EchoAddrReq => 4
    case EchoAddrResp(_) => 5
    case ChooseConnection => 6
    case Connect(_, _) => 7
    case Data(_) => 8
  }

  function ReasonIndex(r: DenyReason): Byte {
    match r
    case InvalidNameHash => 0
    case FailedExternalReachability => 1
    case NodeNotWhitelisted => 2
    case ClientNotWhitelisted => 3
  }

  function EncReach(r: Reachability): seq<Byte> {
    match r
    case NotRequired => [0]
    case Required(l) => [1] + EncNat(8, |l|) + EncAddrs(l)
  }

  function EncBody(m: Message): seq<Byte> {
    match m
    case Heartbeat => []
    case BootstrapRequest(u, h, r) => EncNat(8, u) + h + EncReach(r)
    case BootstrapGranted(u) => EncNat(8, u)
    case BootstrapDenied(r) => [ReasonIndex(r)]
    case EchoAddrReq => []
    case EchoAddrResp(a) => EncAddr(a)
    case ChooseConnection => []
    case Connect(u, h) => EncNat(8, u) + h
    case Data(d) => EncNat(8, |d|) + d
  }

  function Enc(m: Message): seq<Byte> {
    [Tag(m)] + EncBody(m)
  }

  function DecUid(b: seq<Byte>): Option<Uid> {
    if |b| < 8 then None else var n := DecNat(8, b); if n < U64 then Some(n) else None
  }

  function DecReach(b: seq<Byte>): Option<Reachability> {
    if b == [] then None
    else if b[0] == 0 then Some(NotRequired)
    else if b[0] != 1 || |b| < 9 then None
    else match DecUid(b[1..])
         case None => None
         case Some(n) => DecListeners(n, b[9..])
  }

  function DecListeners(n: Uid, b: seq<Byte>): Option<Reachability> {
    match DecAddrs(n, b)
    case None => None
    case Some(l) => Some(Required(l))
  }

  function DecBody(tag: Byte, b: seq<Byte>): Option<Message> {
    match tag
    case 0 => Some(Heartbeat)
    case 1 =>
      (match DecUid(b)
       case None => None
       case Some(u) =>
         if |b| < 40 then None
         else match DecReach(b[40..])
              case None => None
              case Some(r) => Some(BootstrapRequest(u, b[8..40], r)))
    case 2 => (match DecUid(b) case None => None case Some(u) => Some(BootstrapGranted(u)))
    case 3 =>
      if b == [] || b[0] > 3 then None
      else Some(BootstrapDenied(
        if b[0] == 0 then InvalidNameHash else if b[0] == 1 then FailedExternalReachability
        else if b[0] == 2 then NodeNotWhitelisted else ClientNotWhitelisted))
    case 4 => Some(EchoAddrReq)
    case 5 => (match DecAddr(b) case None => None case Some(a) => Some(EchoAddrResp(a)))
    case 6 => Some(ChooseConnection)
    case 7 =>
      (match DecUid(b)
       case None => None
       case Some(u) => if |b| < 40 then None else Some(Connect(u, b[8..40])))
    case 8 =>
      (match DecUid(b)
       case None => None
       case Some(n) => if |b| - 8 < n then None else Some(Data(b[8..8 + n])))
    case _ => None
  }

  function Dec(b: seq<Byte>): Option<Message> {
    if b == [] then None else DecBody(b[0], b[1..])
  }

  function MessageCodec(): Codec<Message> {
    Codec(Enc, Dec)
  }

  lemma UidRoundTrip(n: Uid, rest: seq<Byte>)
    ensures DecUid(EncNat(8, n) + rest) == Some(n)
    ensures (EncNat(8, n) + rest)[8..] == rest
  {
    U64RoundTrip(n, rest);
  }

  lemma ListenersRoundTrip(l: Listeners, tail: seq<Byte>)
    requires DecAddrs(|l|, tail) == Some(l)
    ensures DecReach([1] + (EncNat(8, |l|) + tail)) == Some(Required(l))
  {
    var word := EncNat(8, |l|) + tail;
    UidRoundTrip(|l|, tail);
    var b := [1] + word;
    assert b[1..] == word;
    assert b[9..] == word[8..];
  }

  lemma ReachRoundTrip(r: Reachability, rest: seq<Byte>)
    ensures DecReach(EncReach(r) + rest) == Some(r)
  {
    if r.Required? {
      AddrsRoundTrip(r.listeners, rest);
      ListenersRoundTrip(r.listeners, EncAddrs(r.listeners) + rest);
      var n, l := EncNat(8, |r.listeners|), EncAddrs(r.listeners);
      Regroup([1] + n, l, rest);
      Regroup([1], n, l + rest);
    }
  }

  lemma RequestRoundTrip(u: Uid, h: NameHash, r: Reachability, rest: seq<Byte>)
    ensures DecBody(1, EncBody(BootstrapRequest(u, h, r)) + rest) == Some(BootstrapRequest(u, h, r))
  {
    var id, tail := EncNat(8, u), EncReach(r) + rest;
    Regroup(id + h, EncReach(r), rest);
    Regroup(id, h, tail);
    UidRoundTrip(u, h + tail);
    HashThenTail(id, h, tail);
    ReachRoundTrip(r, rest);
  }

  lemma HashThenTail(id: seq<Byte>, h: NameHash, tail: seq<Byte>)
    requires |id| == 8
    ensures var b := id + (h + tail); |b| >= 40 && b[8..40] == h && b[40..] == tail
  {
  }

  lemma ConnectRoundTrip(u: Uid, h: NameHash, rest: seq<Byte>)
    ensures DecBody(7, EncBody(Connect(u, h)) + rest) == Some(Connect(u, h))
  {
    Regroup(EncNat(8, u), h, rest);
    UidRoundTrip(u, h + rest);
    HashThenTail(EncNat(8, u), h, rest);
  }

  lemma DataRoundTrip(d: Payload, rest: seq<Byte>)
    ensures DecBody(8, EncBody(Data(d)) + rest) == Some(Data(d))
  {
    var b := EncNat(8, |d|) + (d + rest);
    assert EncBody(Data(d)) + rest == b;
    UidRoundTrip(|d|, d + rest);
    assert b[8..8 + |d|] == d;
  }

  lemma BodyRoundTrip(m: Message, rest: seq<Byte>)
    ensures DecBody(Tag(m), EncBody(m) + rest) == Some(m)
  {
    match m {
      case BootstrapRequest(u, h, r) => RequestRoundTrip(u, h, r, rest);
      case BootstrapGranted(u) => UidRoundTrip(u, rest);
      case EchoAddrResp(a) => AddrRoundTrip(a, rest);
      case Connect(u, h) => ConnectRoundTrip(u, h, rest);
      case Data(d) => DataRoundTrip(d, rest);
      case _ =>
    }
  }

  /** Decoding a message followed by anything gives that message. */
  lemma MessagesSelfDelimiting()
    ensures SelfDelimiting(MessageCodec())
  {
    var c := MessageCodec();
    forall m: Message, rest: seq<Byte> ensures c.dec(c.enc(m) + rest) == Some(m) {
      var b := Enc(m) + rest;
      assert b[1..] == EncBody(m) + rest;
      BodyRoundTrip(m, rest);
    }
  }
}
