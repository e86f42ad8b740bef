/** The packets to the master with their fields, byte by byte: the packet id, and the fields in the order in which the packet
    classes write them. The master's dispatch reads each of them back. */
module PacketLayout {
  import opened Reassembly
  import opened Packets

  datatype Entry = Entry(key: seq<Byte>, hash: nat, hashType: nat, size: nat, dataType: nat, allowInequality: bool)

  datatype ToMaster =
    | Registration(p2pPort: nat, sharedStatePort: nat, benchmarkPort: nat, group: nat)
    | EstablishP2P(acceptNewPeers: bool)
    | Established(success: bool, failedPeers: seq<seq<Byte>>)
    | PeersPending
    | Optimize
    | Bandwidth(to: seq<Byte>, mbits: nat)                // the bits of a double
    | OptimizeDone
    | SharedState(revision: nat, strategy: nat, entries: seq<Entry>)
    | SharedStateDone
    | Initiate(tag: nat, count: nat, dataType: nat, op: nat)
    | Complete(tag: nat, aborted: bool)

  function Flag(b: bool): seq<Byte> { [if b then 1 else 0] }

  function Uuids(us: seq<seq<Byte>>): seq<Byte> { if us == [] then [] else us[0] + Uuids(us[1..]) }

  function EntryBytes(e: Entry): seq<Byte> {
    BigEndian(|e.key|, 8) + e.key + BigEndian(e.hash, 8) + BigEndian(e.hashType, 1) + BigEndian(e.size, 8)
    + BigEndian(e.dataType, 1) + Flag(e.allowInequality)
  }

  function Entries(es: seq<Entry>): seq<Byte> { if es == [] then [] else EntryBytes(es[0]) + Entries(es[1..]) }

  /** The bytes of a packet, its id first. */
  function Wire(p: ToMaster): seq<Byte> {
    match p
    case Registration(a, b, c, g) => [0, 1] + BigEndian(a, 2) + BigEndian(b, 2) + BigEndian(c, 2) + BigEndian(g, 4)
    case EstablishP2P(accept) => [0, 2] + Flag(accept)
    case Established(success, failed) => [0, 3] + Flag(success) + BigEndian(|failed|, 8) + Uuids(failed)
    case PeersPending => [0, 4]
    case Optimize => [0, 5]
    case Bandwidth(to, mbits) => [0, 6] + to + BigEndian(mbits, 8)
    case OptimizeDone => [0, 7]
    case SharedState(revision, strategy, es) =>
      [0, 8] + BigEndian(revision, 8) + BigEndian(strategy, 1) + BigEndian(|es|, 8) + Entries(es)
    case SharedStateDone => [0, 9]
    case Initiate(tag, count, dataType, op) =>
      [0, 10] + BigEndian(tag, 8) + BigEndian(count, 8) + BigEndian(dataType, 1) + BigEndian(op, 1)
    case Complete(tag, aborted) => [0, 11] + BigEndian(tag, 8) + Flag(aborted)
  }

  ghost predicate Wide(e: Entry) {
    |e.key| < Pow(8) && e.hash < Pow(8) && e.hashType < Pow(1) && e.size < Pow(8) && e.dataType < Pow(1)
  }

  /** The fields are of the widths of the packet classes. */
  ghost predicate Typed(p: ToMaster) {
    match p
    case Registration(a, b, c, g) => a < Pow(2) && b < Pow(2) && c < Pow(2) && g < Pow(4)
    case Established(_, failed) => |failed| < Pow(8) && forall i :: 0 <= i < |failed| ==> |failed[i]| == 16
    case Bandwidth(to, mbits) => |to| == 16 && mbits < Pow(8)
    case SharedState(revision, strategy, es) =>
      revision < Pow(8) && strategy < Pow(1) && |es| < Pow(8) && forall i :: 0 <= i < |es| ==> Wide(es[i])
    case Initiate(tag, count, dataType, op) => tag < Pow(8) && count < Pow(8) && dataType < Pow(1) && op < Pow(1)
    case Complete(tag, _) => tag < Pow(8)
    case _ => true
  }

  // The fields of a message -------------------------------------------------------------------------

  function FlagValue(b: bool): Value { N(if b then 1 else 0) }

  function EntryValue(e: Entry): Value {
    P(B(e.key), P(N(e.hash), P(N(e.hashType), P(N(e.size), P(N(e.dataType), FlagValue(e.allowInequality))))))
  }

  function EntryValues(es: seq<Entry>): seq<Value> { seq(|es|, i requires 0 <= i < |es| => EntryValue(es[i])) }

  /** A packet as the decoder returns it. */
  function MessageOf(p: ToMaster): Message {
    match p
    case Registration(a, b, c, g) => Message(1, P(N(a), P(N(b), P(N(c), N(g)))))
    case EstablishP2P(accept) => Message(2, FlagValue(accept))
    case Established(success, failed) =>
      Message(3, P(FlagValue(success), L(seq(|failed|, i requires 0 <= i < |failed| => B(failed[i])))))
    case PeersPending => Message(4, Nothing)
    case Optimize => Message(5, Nothing)
    case Bandwidth(to, mbits) => Message(6, P(B(to), N(mbits)))
    case OptimizeDone => Message(7, Nothing)
    case SharedState(revision, strategy, es) =>
      Message(8, P(N(revision), P(N(strategy), L(EntryValues(es)))))
    case SharedStateDone => Message(9, Nothing)
    case Initiate(tag, count, dataType, op) => Message(10, P(N(tag), P(N(count), P(N(dataType), N(op)))))
    case Complete(tag, aborted) => Message(11, P(N(tag), FlagValue(aborted)))
  }

  /** No two packets are returned as the same message. */
  lemma MessagesDiffer(p: ToMaster, q: ToMaster)
    requires MessageOf(p) == MessageOf(q)
    ensures p == q
  {
    match p
    case Established(_, failed) =>
      forall i | 0 <= i < |failed| ensures failed[i] == q.failedPeers[i] {
        assert MessageOf(p).value.second.items[i] == MessageOf(q).value.second.items[i];
      }
    case SharedState(_, _, es) =>
      forall i | 0 <= i < |es| ensures es[i] == q.entries[i] {
        assert MessageOf(p).value.second.second.items[i] == MessageOf(q).value.second.second.items[i];
      }
    case _ =>
  }

  lemma Short(n: nat)
    ensures n < 256 ==> BigEndian(n, 1) == [n] && BigEndian(n, 2) == [0, n]
    ensures Pow(1) == 256
  {
  }

  // The layouts -------------------------------------------------------------------------------------

  /** The layout of the packet with this id describes its bytes. */
  ghost predicate LaidOut(p: ToMaster) {
    var m := MessageOf(p);
    && MasterKind(m.id).Some? && Fits(SchemaOf(MasterKind(m.id).value), m.value)
    && [0, m.id] + Encode(SchemaOf(MasterKind(m.id).value), m.value) == Wire(p)
  }

  lemma FlagBytes(b: bool)
    ensures Fits(FLAG, FlagValue(b)) && Encode(FLAG, FlagValue(b)) == Flag(b)
  {
    Short(if b then 1 else 0);
  }

  lemma {:induction false} UuidBytes(us: seq<seq<Byte>>, vs: seq<Value>)
    requires |vs| == |us| && forall i :: 0 <= i < |us| ==> vs[i] == B(us[i])
    ensures EncodeAll(UUID, vs) == Uuids(us)
    decreases |us|
  {
    if us != [] { UuidBytes(us[1..], vs[1..]); }
  }

  const ENTRY := Then(Str, Then(Num(8), Then(Num(1), Then(Num(8), Then(Num(1), FLAG)))))

  lemma EntryLaidOut(e: Entry)
    requires Wide(e)
    ensures Fits(ENTRY, EntryValue(e)) && Encode(ENTRY, EntryValue(e)) == EntryBytes(e)
  {
    hide BigEndian, Pow, Flag, FlagValue;
    FlagBytes(e.allowInequality);
    var a, b, c, d, f, g := BigEndian(|e.key|, 8) + e.key, BigEndian(e.hash, 8), BigEndian(e.hashType, 1), BigEndian(e.size, 8),
      BigEndian(e.dataType, 1), Flag(e.allowInequality);
    assert Encode(ENTRY, EntryValue(e)) == a + (b + (c + (d + (f + g))));
    assert a + (b + (c + (d + (f + g)))) == a + b + c + d + f + g;
  }

  lemma {:induction false} EntriesLaidOut(es: seq<Entry>, vs: seq<Value>)
    requires |vs| == |es| && forall i :: 0 <= i < |es| ==> vs[i] == EntryValue(es[i]) && Wide(es[i])
    ensures EncodeAll(ENTRY, vs) == Entries(es) && forall i :: 0 <= i < |vs| ==> Fits(ENTRY, vs[i])
    decreases |es|
  {
    hide Fits, Wide, EntryBytes, EntryValue, Encode;
    if es != [] {
      EntryLaidOut(es[0]);
      EntriesLaidOut(es[1..], vs[1..]);
      forall i | 0 <= i < |vs| ensures Fits(ENTRY, vs[i]) { if i > 0 { assert vs[i] == vs[1..][i - 1]; } }
    }
  }

  lemma NumThen(width: nat, n: nat, t: Schema, v: Value)
    requires n < Pow(width) && Fits(t, v)
    ensures Fits(Then(Num(width), t), P(N(n), v)) && Encode(Then(Num(width), t), P(N(n), v)) == BigEndian(n, width) + Encode(t, v)
  {
    hide BigEndian, Pow;
  }

  lemma FourNumbers(w: nat, a: nat, x: nat, b: nat, y: nat, c: nat, z: nat, d: nat)
    requires a < Pow(w) && b < Pow(x) && c < Pow(y) && d < Pow(z)
    ensures
      var t, v := Then(Num(w), Then(Num(x), Then(Num(y), Num(z)))), P(N(a), P(N(b), P(N(c), N(d))));
      Fits(t, v) && Encode(t, v) == BigEndian(a, w) + (BigEndian(b, x) + (BigEndian(c, y) + BigEndian(d, z)))
  {
    hide BigEndian, Pow;
    NumThen(y, c, Num(z), N(d));
    NumThen(x, b, Then(Num(y), Num(z)), P(N(c), N(d)));
    NumThen(w, a, Then(Num(x), Then(Num(y), Num(z))), P(N(b), P(N(c), N(d))));
    hide Fits, Encode;
    assert Fits(Num(z), N(d)) && Encode(Num(z), N(d)) == BigEndian(d, z) by { NumAlone(z, d); }
  }

  lemma NumAlone(width: nat, n: nat)
    requires n < Pow(width)
    ensures Fits(Num(width), N(n)) && Encode(Num(width), N(n)) == BigEndian(n, width)
  {
    hide BigEndian, Pow;
  }

  lemma Regroup(id: seq<Byte>, w: seq<Byte>, x: seq<Byte>, y: seq<Byte>, z: seq<Byte>)
    ensures id + (w + (x + (y + z))) == id + w + x + y + z
  {
  }

  lemma RegistrationLaidOut(a: nat, b: nat, c: nat, g: nat)
    requires Typed(Registration(a, b, c, g))
    ensures LaidOut(Registration(a, b, c, g))
  {
    hide BigEndian, Pow, Fits, Encode;
    FourNumbers(2, a, 2, b, 2, c, 4, g);
    Regroup([0, 1], BigEndian(a, 2), BigEndian(b, 2), BigEndian(c, 2), BigEndian(g, 4));
  }

  lemma InitiateLaidOut(tag: nat, count: nat, dataType: nat, op: nat)
    requires Typed(Initiate(tag, count, dataType, op))
    ensures LaidOut(Initiate(tag, count, dataType, op))
  {
    hide BigEndian, Pow, Fits, Encode;
    FourNumbers(8, tag, 8, count, 1, dataType, 1, op);
    Regroup([0, 10], BigEndian(tag, 8), BigEndian(count, 8), BigEndian(dataType, 1), BigEndian(op, 1));
  }

  lemma FlagLaidOut(accept: bool)
    ensures LaidOut(EstablishP2P(accept))
  {
    hide Fits, Encode, Flag, FlagValue;
    FlagBytes(accept);
  }

  lemma EmptyLaidOut(p: ToMaster)
    requires p.PeersPending? || p.Optimize? || p.OptimizeDone? || p.SharedStateDone?
    ensures LaidOut(p)
  {
  }

  lemma CompleteLaidOut(tag: nat, aborted: bool)
    requires Typed(Complete(tag, aborted))
    ensures LaidOut(Complete(tag, aborted))
  {
    hide BigEndian, Pow, Flag, FlagValue;
    FlagBytes(aborted);
    assert [0, 11] + (BigEndian(tag, 8) + Flag(aborted)) == [0, 11] + BigEndian(tag, 8) + Flag(aborted);
  }

  lemma BandwidthLaidOut(to: seq<Byte>, mbits: nat)
    requires Typed(Bandwidth(to, mbits))
    ensures LaidOut(Bandwidth(to, mbits))
  {
    hide BigEndian, Pow;
    assert [0, 6] + (to + BigEndian(mbits, 8)) == [0, 6] + to + BigEndian(mbits, 8);
  }

  lemma EstablishedLaidOut(success: bool, failed: seq<seq<Byte>>)
    requires Typed(Established(success, failed))
    ensures LaidOut(Established(success, failed))
  {
    hide BigEndian, Pow, Flag, FlagValue, Uuids;
    var p := Established(success, failed);
    var vs := MessageOf(p).value.second.items;
    FlagBytes(success);
    UuidBytes(failed, vs);
    var a, b, c := Flag(success), BigEndian(|failed|, 8), Uuids(failed);
    assert Encode(SchemaOf(P2PEstablished), MessageOf(p).value) == a + (b + c);
    assert [0, 3] + (a + (b + c)) == [0, 3] + a + b + c;
  }

  lemma ListLaidOut(t: Schema, vs: seq<Value>)
    requires |vs| < Pow(8) && forall i :: 0 <= i < |vs| ==> Fits(t, vs[i])
    ensures Fits(ListOf(t), L(vs)) && Encode(ListOf(t), L(vs)) == BigEndian(|vs|, 8) + EncodeAll(t, vs)
  {
    hide BigEndian, Pow;
  }

  const STATE := Then(Num(8), Then(Num(1), ListOf(ENTRY)))

  lemma EntryListLaidOut(revision: nat, strategy: nat, es: seq<Entry>)
    requires revision < Pow(8) && strategy < Pow(1) && |es| < Pow(8) && forall i :: 0 <= i < |es| ==> Wide(es[i])
    ensures
      var v := P(N(revision), P(N(strategy), L(EntryValues(es))));
      && Fits(STATE, v)
      && Encode(STATE, v) == BigEndian(revision, 8) + (BigEndian(strategy, 1) + (BigEndian(|es|, 8) + Entries(es)))
  {
    hide BigEndian, Pow, Entries, Wide, EntryValue, Fits, Encode;
    EntriesLaidOut(es, EntryValues(es));
    ListLaidOut(ENTRY, EntryValues(es));
    NumThen(1, strategy, ListOf(ENTRY), L(EntryValues(es)));
    NumThen(8, revision, Then(Num(1), ListOf(ENTRY)), P(N(strategy), L(EntryValues(es))));
  }

  lemma SharedStateLaidOut(revision: nat, strategy: nat, es: seq<Entry>)
    requires Typed(SharedState(revision, strategy, es))
    ensures LaidOut(SharedState(revision, strategy, es))
  {
    hide BigEndian, Pow, Entries, Wide, EntryValues, Fits, Encode;
    EntryListLaidOut(revision, strategy, es);
    var a, b, c, d := BigEndian(revision, 8), BigEndian(strategy, 1), BigEndian(|es|, 8), Entries(es);
    assert SchemaOf(SyncSharedState) == STATE;
    assert [0, 8] + (a + (b + (c + d))) == [0, 8] + a + b + c + d;
  }

  /** Every packet to the master, with any fields of the right widths, is its id and its fields in this order; the dispatch
      reads from these bytes the packet, and no other. */
  lemma WireDispatches(p: ToMaster, q: ToMaster)
    requires Typed(p) && Typed(q)
    ensures Dispatch(Wire(p)) == Some(MessageOf(p))
    ensures Dispatch(Wire(p)) == Some(MessageOf(q)) ==> p == q
  {
    hide LaidOut, Encode, Fits, Dispatch, SchemaOf;
    AllLaidOut(p);
    assert Payload(MessageOf(p)) == Wire(p) by { PayloadIsWire(p); }
    DispatchPayload(MessageOf(p));
    if MessageOf(p) == MessageOf(q) { MessagesDiffer(p, q); }
  }

  lemma AllLaidOut(p: ToMaster)
    requires Typed(p)
    ensures LaidOut(p) && MasterKind(MessageOf(p).id).Some? && Fits(SchemaOf(MasterKind(MessageOf(p).id).value), MessageOf(p).value)
  {
    hide Fits, Encode, Typed, Wire, SchemaOf;
    match p
    case Registration(a, b, c, g) => RegistrationLaidOut(a, b, c, g);
    case EstablishP2P(accept) => FlagLaidOut(accept);
    case Established(success, failed) => EstablishedLaidOut(success, failed);
    case Bandwidth(to, mbits) => BandwidthLaidOut(to, mbits);
    case SharedState(revision, strategy, es) => SharedStateLaidOut(revision, strategy, es);
    case Initiate(tag, count, dataType, op) => InitiateLaidOut(tag, count, dataType, op);
    case Complete(tag, aborted) => CompleteLaidOut(tag, aborted);
    case _ => EmptyLaidOut(p);
  }

  lemma PayloadIsWire(p: ToMaster)
    requires LaidOut(p)
    ensures Payload(MessageOf(p)) == Wire(p)
  {
    hide Encode, Fits, Wire, SchemaOf;
    Short(MessageOf(p).id);
  }
}
