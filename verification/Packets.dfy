/** The packet codec: what deserialize reads back is what serialize wrote, for every packet type. */
module Packets {
  import opened Reassembly

  /** The layouts packets are built from. */
  datatype Schema =
    | Unit
    | Num(width: nat)                                     // big-endian integer
    | Raw(size: nat)                                      // fixed-length array of bytes
    | Str                                                 // 64-bit length and the bytes
    | Then(first: Schema, second: Schema)
    | ListOf(item: Schema)                                // 64-bit count and the items
    | Columns(a: Schema, b: Schema, c: Schema)            // one 64-bit count for three lists
    | Either(yes: Schema, no: Schema)                     // a flag decides what follows
    | Switch(cases: map<nat, Schema>)                     // a byte decides what follows

  datatype Value =
    | Nothing
    | N(n: nat)
    | B(bytes: seq<Byte>)
    | P(first: Value, second: Value)
    | L(items: seq<Value>)
    | C(a: seq<Value>, b: seq<Value>, c: seq<Value>)
    | E(flag: bool, body: Value)
    | S(tag: nat, body: Value)

  /** Values that fit a layout. */
  ghost predicate Fits(t: Schema, v: Value)
    decreases t
  {
    match t
    case Unit => v == Nothing
    case Num(width) => v.N? && v.n < Pow(width)
    case Raw(size) => v.B? && |v.bytes| == size
    case Str => v.B? && |v.bytes| < Pow(8)
    case Then(x, y) => v.P? && Fits(x, v.first) && Fits(y, v.second)
    case ListOf(x) => v.L? && |v.items| < Pow(8) && forall i :: 0 <= i < |v.items| ==> Fits(x, v.items[i])
    case Columns(x, y, z) =>
      && v.C? && |v.a| == |v.b| == |v.c| < Pow(8)
      && (forall i :: 0 <= i < |v.a| ==> Fits(x, v.a[i]))
      && (forall i :: 0 <= i < |v.b| ==> Fits(y, v.b[i]))
      && (forall i :: 0 <= i < |v.c| ==> Fits(z, v.c[i]))
    case Either(x, y) => v.E? && Fits(if v.flag then x else y, v.body)
    case Switch(cases) => v.S? && v.tag < 256 && v.tag in cases && Fits(cases[v.tag], v.body)
  }

  function Encode(t: Schema, v: Value): seq<Byte>
    decreases t, 0
  {
    match t
    case Unit => []
    case Num(width) => if v.N? then BigEndian(v.n, width) else []
    case Raw(_) => if v.B? then v.bytes else []
    case Str => if v.B? then BigEndian(|v.bytes|, 8) + v.bytes else []
    case Then(x, y) => if v.P? then Encode(x, v.first) + Encode(y, v.second) else []
    case ListOf(x) => if v.L? then BigEndian(|v.items|, 8) + EncodeAll(x, v.items) else []
    case Columns(x, y, z) =>
      if v.C? then BigEndian(|v.a|, 8) + (EncodeAll(x, v.a) + (EncodeAll(y, v.b) + EncodeAll(z, v.c))) else []
    case Either(x, y) =>
      if !v.E? then [] else if v.flag then [1] + Encode(x, v.body) else [0] + Encode(y, v.body)
    case Switch(cases) =>
      if v.S? && v.tag < 256 && v.tag in cases then [v.tag] + Encode(cases[v.tag], v.body) else []
  }

  function EncodeAll(t: Schema, vs: seq<Value>): seq<Byte>
    decreases t, 1, |vs|
  {
    if vs == [] then [] else Encode(t, vs[0]) + EncodeAll(t, vs[1..])
  }

  datatype Option<T> = None | Some(value: T)

  /** What was read and what is left; reading past the end fails. */
  datatype Read<T> = Read(value: T, rest: seq<Byte>)

  function DecodeNum(bs: seq<Byte>, width: nat): Option<Read<nat>> {
    if |bs| < width then None else Some(Read(FromBigEndian(bs[..width]), bs[width..]))
  }

  function Decode(t: Schema, bs: seq<Byte>): Option<Read<Value>>
    decreases t, 0
  {
    match t
    case Unit => Some(Read(Nothing, bs))
    case Num(width) =>
      var r := DecodeNum(bs, width);
      if r == None then None else Some(Read(N(r.value.value), r.value.rest))
    case Raw(size) => if |bs| < size then None else Some(Read(B(bs[..size]), bs[size..]))
    case Str =>
      var r := DecodeNum(bs, 8);
      if r == None || |r.value.rest| < r.value.value then None
      else Some(Read(B(r.value.rest[..r.value.value]), r.value.rest[r.value.value..]))
    case Then(x, y) =>
      var r := Decode(x, bs);
      if r == None then None
      else
        var q := Decode(y, r.value.rest);
        if q == None then None else Some(Read(P(r.value.value, q.value.value), q.value.rest))
    case ListOf(x) =>
      var r := DecodeNum(bs, 8);
      if r == None then None
      else
        var q := DecodeAll(x, r.value.value, r.value.rest);
        if q == None then None else Some(Read(L(q.value.value), q.value.rest))
    case Columns(x, y, z) =>
      var r := DecodeNum(bs, 8);
      if r == None then None
      else
        var n := r.value.value;
        var a := DecodeAll(x, n, r.value.rest);
        if a == None then None
        else
          var b := DecodeAll(y, n, a.value.rest);
          if b == None then None
          else
            var c := DecodeAll(z, n, b.value.rest);
            if c == None then None else Some(Read(C(a.value.value, b.value.value, c.value.value), c.value.rest))
    case Either(x, y) =>
      if bs == [] then None
      else
        var r := if bs[0] != 0 then Decode(x, bs[1..]) else Decode(y, bs[1..]);
        if r == None then None else Some(Read(E(bs[0] != 0, r.value.value), r.value.rest))
    case Switch(cases) =>
      if bs == [] || bs[0] !in cases then None
      else
        var r := Decode(cases[bs[0]], bs[1..]);
        if r == None then None else Some(Read(S(bs[0], r.value.value), r.value.rest))
  }

  function DecodeAll(t: Schema, n: nat, bs: seq<Byte>): Option<Read<seq<Value>>>
    decreases t, 1, n
  {
    if n == 0 then Some(Read([], bs))
    else
      var r := Decode(t, bs);
      if r == None then None
      else
        var q := DecodeAll(t, n - 1, r.value.rest);
        if q == None then None else Some(Read([r.value.value] + q.value.value, q.value.rest))
  }

  // Round trips -------------------------------------------------------------------------------------

  lemma NumRoundTrip(n: nat, width: nat, rest: seq<Byte>)
    requires n < Pow(width)
    ensures DecodeNum(BigEndian(n, width) + rest, width) == Some(Read(n, rest))
  {
    hide BigEndian, FromBigEndian, Pow;
    BigEndianRoundTrip(n, width);
    Cut(BigEndian(n, width), rest);
  }

  lemma Cut(a: seq<Byte>, b: seq<Byte>)
    ensures (a + b)[..|a|] == a && (a + b)[|a|..] == b
  {
  }

  lemma Assoc(a: seq<Byte>, b: seq<Byte>, c: seq<Byte>)
    ensures (a + b) + c == a + (b + c)
  {
  }

  /** deserialize undoes serialize and reads nothing more. */
  lemma {:induction false} RoundTrip(t: Schema, v: Value, rest: seq<Byte>)
    requires Fits(t, v)
    ensures Decode(t, Encode(t, v) + rest) == Some(Read(v, rest))
    decreases t, 1
  {
    hide BigEndian, FromBigEndian, Pow, DecodeNum, DecodeAll, EncodeAll;
    match t {
      case Unit => assert [] + rest == rest;
      case Num(width) => NumRoundTrip(v.n, width, rest);
      case Raw(_) => Cut(v.bytes, rest);
      case Str =>
        Assoc(BigEndian(|v.bytes|, 8), v.bytes, rest);
        NumRoundTrip(|v.bytes|, 8, v.bytes + rest);
        Cut(v.bytes, rest);
      case Then(x, y) =>
        Assoc(Encode(x, v.first), Encode(y, v.second), rest);
        RoundTrip(x, v.first, Encode(y, v.second) + rest);
        RoundTrip(y, v.second, rest);
      case ListOf(x) =>
        Assoc(BigEndian(|v.items|, 8), EncodeAll(x, v.items), rest);
        NumRoundTrip(|v.items|, 8, EncodeAll(x, v.items) + rest);
        RoundTripAll(x, v.items, rest);
      case Columns(_, _, _) => ColumnsRoundTrip(t, v, rest);
      case Either(x, y) =>
        var body := if v.flag then Encode(x, v.body) else Encode(y, v.body);
        Cut([if v.flag then 1 else 0], body + rest);
        Assoc([if v.flag then 1 else 0], body, rest);
        RoundTrip(if v.flag then x else y, v.body, rest);
      case Switch(cases) =>
        Cut([v.tag], Encode(cases[v.tag], v.body) + rest);
        Assoc([v.tag], Encode(cases[v.tag], v.body), rest);
        RoundTrip(cases[v.tag], v.body, rest);
    }
  }

  lemma {:induction false} RoundTripAll(t: Schema, vs: seq<Value>, rest: seq<Byte>)
    requires forall i :: 0 <= i < |vs| ==> Fits(t, vs[i])
    ensures DecodeAll(t, |vs|, EncodeAll(t, vs) + rest) == Some(Read(vs, rest))
    decreases t, 2, |vs|
  {
    hide Encode, Decode, Fits;
    if vs == [] {
      assert [] + rest == rest;
    } else {
      Assoc(Encode(t, vs[0]), EncodeAll(t, vs[1..]), rest);
      RoundTrip(t, vs[0], EncodeAll(t, vs[1..]) + rest);
      RoundTripAll(t, vs[1..], rest);
      assert [vs[0]] + vs[1..] == vs;
    }
  }

  lemma {:induction false} ColumnsRoundTrip(t: Schema, v: Value, rest: seq<Byte>)
    requires t.Columns? && Fits(t, v)
    ensures Decode(t, Encode(t, v) + rest) == Some(Read(v, rest))
    decreases t, 0
  {
    hide BigEndian, FromBigEndian, Pow, DecodeNum, DecodeAll, EncodeAll;
    var a, b, c := EncodeAll(t.a, v.a), EncodeAll(t.b, v.b), EncodeAll(t.c, v.c);
    Assoc(BigEndian(|v.a|, 8), a + (b + c), rest);
    NumRoundTrip(|v.a|, 8, (a + (b + c)) + rest);
    Assoc(a, b + c, rest);
    RoundTripAll(t.a, v.a, (b + c) + rest);
    Assoc(b, c, rest);
    RoundTripAll(t.b, v.b, c + rest);
    RoundTripAll(t.c, v.c, rest);
  }

  // The packets -------------------------------------------------------------------------------------

  const UUID := Raw(16)
  const FLAG := Num(1)

  /** writeSocketAddress: IPv4 or IPv6 octets, then the port. */
  const ADDRESS := Then(Either(Raw(4), Raw(16)), Num(2))

  /** Data types by the size of their values; two-bit and four-bit types have none. */
  function Sized(twice: bool): Schema {
    var one := if twice then Then(Raw(1), Raw(1)) else Raw(1);
    var two := if twice then Then(Raw(2), Raw(2)) else Raw(2);
    var four := if twice then Then(Raw(4), Raw(4)) else Raw(4);
    var eight := if twice then Then(Raw(8), Raw(8)) else Raw(8);
    Switch(map[2 := one, 3 := one, 4 := two, 6 := two, 10 := two, 11 := two,
               5 := four, 7 := four, 12 := four, 8 := eight, 9 := eight, 13 := eight])
  }

  datatype Kind =
    | RequestSessionRegistration | RequestEstablishP2P | P2PEstablished | CheckPeersPending | OptimizeTopology
    | ReportPeerBandwidth | OptimizeTopologyWorkComplete | SyncSharedState | DistSharedStateComplete
    | CollectiveCommsInitiate | CollectiveCommsComplete
    | RegistrationResponse | P2PConnectionInfo | P2PEstablishedResponse | PeersPendingResponse
    | OptimizeTopologyResponse | OptimizeTopologyComplete | SyncSharedStateResponse | SyncSharedStateComplete
    | CollectiveCommsCommence | CollectiveCommsCompleted | CollectiveCommsAbort
    | Hello | HelloAck | DequantizationMeta | RequestSharedState | SharedStateResponse | BenchmarkHello | BenchmarkBusy

  function SchemaOf(k: Kind): Schema {
    match k
    case RequestSessionRegistration => Then(Num(2), Then(Num(2), Then(Num(2), Num(4))))
    case RequestEstablishP2P => FLAG
    case P2PEstablished => Then(FLAG, ListOf(UUID))
    case CheckPeersPending => Unit
    case OptimizeTopology => Unit
    case ReportPeerBandwidth => Then(UUID, Num(8))
    case OptimizeTopologyWorkComplete => Unit
    case SyncSharedState =>
      Then(Num(8), Then(Num(1), ListOf(Then(Str, Then(Num(8), Then(Num(1), Then(Num(8), Then(Num(1), FLAG))))))))
    case DistSharedStateComplete => Unit
    case CollectiveCommsInitiate => Then(Num(8), Then(Num(8), Then(Num(1), Num(1))))
    case CollectiveCommsComplete => Then(Num(8), FLAG)
    case RegistrationResponse => Then(FLAG, UUID)
    case P2PConnectionInfo =>
      var sizes := Then(Num(8), Then(Num(8), Then(Num(8), Num(8))));
      Either(sizes, Then(sizes, ListOf(Then(ADDRESS, UUID))))
    case P2PEstablishedResponse => Then(FLAG, ListOf(UUID))
    case PeersPendingResponse => FLAG
    case OptimizeTopologyResponse => ListOf(Then(UUID, Then(UUID, ADDRESS)))
    case OptimizeTopologyComplete => Then(FLAG, ListOf(UUID))
    case SyncSharedStateResponse => Then(FLAG, Then(ADDRESS, Columns(Str, Num(8), Num(1))))
    case SyncSharedStateComplete => Unit
    case CollectiveCommsCommence => Then(Num(8), Num(8))
    case CollectiveCommsCompleted => Num(8)
    case CollectiveCommsAbort => Then(Num(8), FLAG)
    case Hello => Then(UUID, Num(4))
    case HelloAck => Unit
    case DequantizationMeta => Then(Num(8), Switch(map[0 := Sized(true), 1 := Then(Sized(false), Sized(false))]))
    case RequestSharedState => ListOf(Str)
    case SharedStateResponse => Then(Num(1), Then(Num(8), ListOf(Then(Str, Num(8)))))
    case BenchmarkHello => UUID
    case BenchmarkBusy => FLAG
  }

  /** Every packet type is read back as it was written. */
  lemma PacketRoundTrip(k: Kind, v: Value)
    requires Fits(SchemaOf(k), v)
    ensures Decode(SchemaOf(k), Encode(SchemaOf(k), v)) == Some(Read(v, []))
  {
    hide SchemaOf;
    RoundTrip(SchemaOf(k), v, []);
    assert Encode(SchemaOf(k), v) + [] == Encode(SchemaOf(k), v);
  }

  // To the master and back --------------------------------------------------------------------------

  /** Packets to the master, by packet id. */
  function MasterKind(id: nat): Option<Kind> {
    match id
    case 1 => Some(RequestSessionRegistration)
    case 2 => Some(RequestEstablishP2P)
    case 3 => Some(P2PEstablished)
    case 4 => Some(CheckPeersPending)
    case 5 => Some(OptimizeTopology)
    case 6 => Some(ReportPeerBandwidth)
    case 7 => Some(OptimizeTopologyWorkComplete)
    case 8 => Some(SyncSharedState)
    case 9 => Some(DistSharedStateComplete)
    case 10 => Some(CollectiveCommsInitiate)
    case 11 => Some(CollectiveCommsComplete)
    case _ => None
  }

  datatype Message = Message(id: nat, value: Value)

  ghost predicate Good(m: Message) {
    MasterKind(m.id).Some? && Fits(SchemaOf(MasterKind(m.id).value), m.value) && |Payload(m)| < TOP
  }

  function Payload(m: Message): seq<Byte> {
    if MasterKind(m.id).Some? then BigEndian(m.id, 2) + Encode(SchemaOf(MasterKind(m.id).value), m.value) else []
  }

  /** What the master's packet dispatch makes of a payload. */
  function Dispatch(bs: seq<Byte>): Option<Message> {
    var r := DecodeNum(bs, 2);
    if r == None || MasterKind(r.value.value) == None then None
    else
      var q := Decode(SchemaOf(MasterKind(r.value.value).value), r.value.rest);
      if q == None then None else Some(Message(r.value.value, q.value.value))
  }

  lemma DispatchPayload(m: Message)
    requires MasterKind(m.id).Some? && Fits(SchemaOf(MasterKind(m.id).value), m.value)
    ensures Dispatch(Payload(m)) == Some(m)
  {
    hide SchemaOf, BigEndian, FromBigEndian, Encode, Decode, DecodeNum, Fits, Pow;
    var t := SchemaOf(MasterKind(m.id).value);
    PowTwo();
    NumRoundTrip(m.id, 2, Encode(t, m.value));
    RoundTrip(t, m.value, []);
    assert Encode(t, m.value) + [] == Encode(t, m.value);
  }

  lemma PowTwo()
    ensures Pow(2) == 65536
  {
  }

  function Payloads(ms: seq<Message>): seq<seq<Byte>> {
    seq(|ms|, i requires 0 <= i < |ms| => Payload(ms[i]))
  }

  /** A client's messages arrive at the master as they were sent, in order, over every fragmentation of the stream
      that does not cut a length prefix. */
  lemma MessagesArrive(ms: seq<Message>, fs: seq<seq<Byte>>)
    requires forall i :: 0 <= i < |ms| ==> Good(ms[i])
    requires Joined(fs) == Stream(Payloads(ms)) && !Cuts(Between, Payloads(ms), 0, fs)
    ensures
      var r := FeedAll(Receiver(UNSET, [], [], false), fs);
      && !r.closed && |r.delivered| == |ms|
      && forall i :: 0 <= i < |ms| ==> Dispatch(r.delivered[i]) == Some(ms[i])
  {
    hide Payload, Dispatch, FeedAll, Cuts, Stream, Joined;
    forall i | 0 <= i < |ms|
      ensures |Payload(ms[i])| < TOP && Dispatch(Payload(ms[i])) == Some(ms[i])
    {
      DispatchPayload(ms[i]);
    }
    DeliversExactlyUnlessPrefixCut(Payloads(ms), fs);
  }
}
