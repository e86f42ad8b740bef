/** The run of `InPlaceRun`, continued: the wrong byte is sent, and two ranks that have finished hold different results. */
module WrongResult {
  import opened Streaming
  import opened RingSpec
  import opened Ring
  import opened RingProof
  import opened RingProgress
  import opened InPlace
  import ByteSum
  import R = InPlaceRun

  type K = Rank<Byte, ()>

  function Bytes1(b: Byte): Frame<()> { Frame(0, 3, Data([b])) }

  /** Rank 1 in the last step; it forwards chunk 1, which it holds as it should be, and receives chunk 0. */
  ghost predicate One(k: K, sent: nat, recvd: nat, turn: bool) {
    && k.step == 3 && !k.failed && k.metaOut && k.metaIn && k.src == FromRoom && k.tx == 1 && k.rx == 0
    && |k.buf| == 3 && k.buf[1] == R.Twice(1) && k.sent == sent && k.recvd == recvd && k.sendTurn == turn
  }

  /** Rank 2 in the last step, in which it receives chunk 1. */
  ghost predicate Two(k: K, metaIn: bool, sent: nat, recvd: nat, turn: bool) {
    && k.step == 3 && !k.failed && k.metaOut && k.metaIn == metaIn && k.rx == 1
    && |k.buf| == 3 && k.sent == sent && k.recvd == recvd && k.sendTurn == turn
  }

  // Where the other run ends ------------------------------------------------------------------------

  lemma RankOne(x: Net<Byte, ()>)
    requires R.Small(R.Demo()) && R.On(R.Demo(), x, [R.Data(3, 2, 0, false), R.Data(3, 1, 0, false), R.Announced(3)])
    ensures One(x.ranks[1], 1, 0, false)
  {
    hide Inv, PackLaws, BytesOk, MetaOk, WireMeta, Wire, Fits, R.NoStale, R.Demo;
    var J, k := R.Demo(), x.ranks[1];
    InvShaped(J, x);
    assert R.MarkOf(k) == R.Marks(x)[1];
    assert RankOk(J, 1, k);
    HeldOne(k);
  }

  lemma HeldOne(k: K)
    requires Valid(R.Demo()) && R.Demo().world == 3 && Fits(R.Demo(), k) && k.step == 3 && k.rx == 0 && HeldOk(R.Demo(), 1, k)
    ensures |k.buf| == 3 && k.buf[1] == R.Twice(1)
  {
    hide PackLaws, Arriving, Final, R.Demo;
    R.DemoFinal(1);
    assert ChunkAt(R.Demo(), 1, 3, 1) == Final(R.Demo(), 1);
  }

  lemma RankTwo(x: Net<Byte, ()>)
    requires R.Small(R.Demo()) && R.On(R.Demo(), x, [R.Data(3, 2, 0, false), R.Data(3, 1, 0, false), R.Announced(3)])
    ensures Two(x.ranks[2], false, 0, 0, true)
  {
    hide Inv, PackLaws, BytesOk, HeldOk, MetaOk, WireMeta, Wire, R.NoStale, R.Demo;
    var J, k := R.Demo(), x.ranks[2];
    InvShaped(J, x);
    assert R.MarkOf(k) == R.Marks(x)[2];
    assert RankOk(J, 2, k);
  }

  /** The metadata and the first byte of rank 1 are on its link. */
  lemma LinkOne(x: Net<Byte, ()>)
    requires R.Small(R.Demo()) && R.On(R.Demo(), x, [R.Data(3, 2, 0, false), R.Data(3, 1, 0, false), R.Announced(3)])
    ensures x.links[1] == [Frame(0, 3, Meta(())), Bytes1(1)]
  {
    hide Inv, PackLaws, RankOk, Fits, Wire, WireMeta, Future, R.Demo, Live;
    var J := R.Demo();
    InvShaped(J, x);
    assert LinkOk(J, 1, x.links[1], x.ranks[1], x.ranks[2]);
    assert R.MarkOf(x.ranks[1]) == R.Marks(x)[1] && R.MarkOf(x.ranks[2]) == R.Marks(x)[2];
    R.AllLive(J.ctr, x.links[1]);
    WholeFuture();
    RestFuture();
    FirstTwo(x.links[1], Frame(0, 3, Meta(())), Bytes1(1), Bytes1(1));
  }

  lemma FirstTwo<T>(link: seq<T>, a: T, b: T, c: T)
    requires [a, b, c] == link + [c]
    ensures link == [a, b]
  {
    assert link == (link + [c])[..|link|];
    assert [a, b, c][..2] == [a, b];
  }

  lemma CutOne(b: nat)
    requires b <= 2
    ensures Cut<()>(0, 3, R.Twice(1), 1, b) == if b == 0 then [Bytes1(1), Bytes1(1)] else if b == 1 then [Bytes1(1)] else []
  {
    var w := R.Twice(1);
    assert w[0..1] == [1] && w[1..2] == [1];
    assert Cut<()>(0, 3, w, 1, 2) == [];
    assert Cut<()>(0, 3, w, 1, 1) == [Bytes1(1)] + Cut<()>(0, 3, w, 1, 2);
    assert Cut<()>(0, 3, w, 1, 0) == [Bytes1(1)] + Cut<()>(0, 3, w, 1, 1);
  }

  lemma WholeFuture()
    requires R.Small(R.Demo())
    ensures Future(R.Demo(), 1, 3, false, 0) == [Frame(0, 3, Meta(())), Bytes1(1), Bytes1(1)]
  {
    hide PackLaws, Cut, Wire, R.Demo;
    R.DemoWire(1, 3);
    CutOne(0);
    FutureEnd(R.Demo(), 1, 4, false, 0);
  }

  lemma RestFuture()
    requires R.Small(R.Demo())
    ensures Future(R.Demo(), 1, 3, true, 1) == [Bytes1(1)]
  {
    hide PackLaws, Cut, Wire, R.Demo;
    R.DemoWire(1, 3);
    CutOne(1);
    FutureEnd(R.Demo(), 1, 4, false, 0);
  }

  // Rank 1 goes on ----------------------------------------------------------------------------------

  /** Rank 1 receives chunk 0 over the byte it has yet to send. */
  lemma Overwrites(x: Net<Byte, ()>)
    requires R.Small(R.Demo()) && R.On(R.Demo(), x, [R.Data(3, 2, 0, false), R.Data(3, 1, 0, false), R.Announced(3)])
    requires One(x.ranks[1], 1, 0, false)
    ensures
      var y := Act(R.Demo(), x, 1);
      && One(y.ranks[1], 1, 2, true) && TxBytes(R.Demo(), y.ranks[1])[1] == 0
      && y.ranks[2] == x.ranks[2] && y.links[1] == x.links[1]
  {
    hide Inv, R.NoStale, PackLaws, Fits, Wire, TxBytes, OnData, Awaits, BytesOk, HeldOk, MetaOk, Chosen, Overtaken, R.Demo, Act;
    var J, k := R.Demo(), x.ranks[1];
    R.LastMove(J, x);
    OvertakenByte(J, x, 1);
    R.DemoWire(0, 3);
    OvertakenBy(J, x, 1);
    InvShaped(J, x);
    Awaited(J, x, 1);
    assert RankOk(J, 1, k);
    HeadData(J, 1, k, x.links[0][0]);
    TakenFields(J, k, x.links[0][0].body.bytes);
    R.FitsTwo(J, k);
    PopsBehind(J, x);
  }

  lemma PopsBehind(J: Job<Byte, ()>, x: Net<Byte, ()>)
    requires R.Small(J) && Shaped(J, x) && One(x.ranks[1], 1, 0, false) && x.links[0] != []
    ensures Act(J, x, 1) == Pop(x, 1, 0, OnData(J, x.ranks[1], x.links[0][0]))
  {
    hide PackLaws, Fits, OnData, Act;
    R.ActIs(J, x, 1);
  }

  /** It sends that byte ... */
  lemma SendsWrong(J: Job<Byte, ()>, y: Net<Byte, ()>)
    requires R.Small(J) && Shaped(J, y) && One(y.ranks[1], 1, 2, true) && TxBytes(J, y.ranks[1])[1] == 0
    ensures
      var z := Act(J, y, 1);
      One(z.ranks[1], 2, 2, false) && z.ranks[2] == y.ranks[2] && z.links[1] == y.links[1] + [Bytes1(0)]
  {
    hide PackLaws, Fits, TxBytes, Act, Bytes;
    var k := y.ranks[1];
    R.ActIs(J, y, 1);
    R.FitsTwo(J, k);
    assert TxBytes(J, k)[1..2] == [0];
    assert Piece(J, 1, k) == Bytes1(0);
  }

  /** ... and has finished. */
  lemma OneDone(J: Job<Byte, ()>, y: Net<Byte, ()>)
    requires R.Small(J) && Shaped(J, y) && One(y.ranks[1], 2, 2, false)
    ensures
      var z := Act(J, y, 1);
      && z.ranks[1].step == 4 && z.ranks[1].buf == y.ranks[1].buf
      && z.ranks[2] == y.ranks[2] && z.links[1] == y.links[1]
  {
    hide PackLaws, Fits, Act, OnData, OnMeta, Piece;
    R.ActIs(J, y, 1);
  }

  // Rank 2 follows ----------------------------------------------------------------------------------

  lemma TakesMetadata(J: Job<Byte, ()>, y: Net<Byte, ()>)
    requires R.Small(J) && Shaped(J, y) && Two(y.ranks[2], false, 0, 0, true)
    requires y.links[1] != [] && y.links[1][0] == Frame(0, 3, Meta(()))
    ensures
      var z := Act(J, y, 2);
      Two(z.ranks[2], true, 0, 0, true) && z.ranks[1] == y.ranks[1] && z.links[1] == y.links[1][1..]
  {
    hide PackLaws, Fits, Act, OnData, Piece, Enter;
    R.ActIs(J, y, 2);
  }

  lemma SendsOwn(J: Job<Byte, ()>, y: Net<Byte, ()>)
    requires R.Small(J) && Shaped(J, y) && Two(y.ranks[2], true, 0, 0, true)
    ensures
      var z := Act(J, y, 2);
      Two(z.ranks[2], true, 2, 0, false) && z.ranks[1] == y.ranks[1] && z.links[1] == y.links[1]
  {
    hide PackLaws, Fits, Act, OnData, OnMeta, Piece, Enter, Bytes;
    R.ActIs(J, y, 2);
    R.FitsTwo(J, y.ranks[2]);
  }

  /** Receiving two bytes one by one makes a chunk of them. */
  lemma TakesTwo(k: K, a: Byte, b: Byte)
    requires R.Small(R.Demo()) && Fits(R.Demo(), k) && Two(k, true, 2, 0, false)
    ensures
      var m := OnData(R.Demo(), k, Bytes1(a));
      var n := OnData(R.Demo(), m, Bytes1(b));
      && Two(m, true, 2, 1, true) && Two(n, true, 2, 2, true) && n.buf[1] == [a, b]
  {
    hide PackLaws, Slots, Absorb, Streamed, Combine, Bytes;
    var J := R.Demo();
    R.FitsTwo(J, k);
    var f := Combine(J, false, k.got);
    var room := Overwrite(k.room, 0, [a]);
    var room' := Overwrite(room, 1, [b]);
    assert room[..1] == [a] && room'[..1] == room[..1];
    assert room'[..2] == [a, b];
    TwoSlots(a, b);
    RoomCount(J, [], 1);
    RoomCount(J, [a], 1);
    RoomCount(J, [a, b], 1);
    assert room[..0] == [];
    NothingStreamed(k.buf[1], f);
    AbsorbStep(k.buf[1], room, 0, 1, 8, f);
    AbsorbStep(k.buf[1], room', 1, 1, 8, f);
    BothStreamed(k.buf[1], a, b, k.got);
  }

  lemma TwoSlots(a: Byte, b: Byte)
    ensures Slots([a, b], 8) == [Whole([a]), Whole([b])]
  {
    ByteSum.ByteSlots([a, b], 0);
    ByteSum.ByteSlots([a, b], 1);
  }

  lemma NothingStreamed(v: seq<Byte>, f: (Byte, Slot) -> Byte)
    ensures Slots([], 8) == [] && Streamed(v, [], f) == v
  {
  }

  lemma BothStreamed(v: seq<Byte>, a: Byte, b: Byte, m: ())
    requires |v| == 2
    ensures Streamed(v, [Whole([a]), Whole([b])], Combine(R.Demo(), false, m)) == [a, b]
  {
    var J := R.Demo();
    assert J.unpack(m, Whole([a])) == ByteSum.Value(Whole([a])) == a;
    assert J.unpack(m, Whole([b])) == ByteSum.Value(Whole([b])) == b;
  }

  lemma TakesNext(J: Job<Byte, ()>, y: Net<Byte, ()>)
    requires R.Small(J) && Shaped(J, y) && y.links[1] != []
    requires Two(y.ranks[2], true, 2, 0, false) || Two(y.ranks[2], true, 2, 1, true)
    ensures
      var z := Act(J, y, 2);
      z.ranks[2] == OnData(J, y.ranks[2], y.links[1][0]) && z.ranks[1] == y.ranks[1] && z.links[1] == y.links[1][1..]
  {
    hide PackLaws, Fits, Act, OnData, OnMeta, Piece, Enter;
    R.ActIs(J, y, 2);
  }

  lemma TwoDone(J: Job<Byte, ()>, y: Net<Byte, ()>)
    requires R.Small(J) && Shaped(J, y) && Two(y.ranks[2], true, 2, 2, true)
    ensures
      var z := Act(J, y, 2);
      z.ranks[2].step == 4 && z.ranks[2].buf == y.ranks[2].buf && z.ranks[1] == y.ranks[1]
  {
    hide PackLaws, Fits, Act, OnData, OnMeta, Piece;
    R.ActIs(J, y, 2);
  }

  // The whole run -----------------------------------------------------------------------------------

  /** After the schedule of `InPlaceRun` rank 1 sends the wrong byte and finishes, and rank 2 finishes too. */
  function Schedule(): seq<nat> { R.Schedule() + [1, 1, 2, 2, 2, 2, 2] }

  ghost predicate Differ(s: Net<Byte, ()>) {
    && |s.ranks| == 3 && s.ranks[1].step == 4 == s.ranks[2].step && |s.ranks[1].buf| == 3 == |s.ranks[2].buf|
    && s.ranks[1].buf[1] == [1, 1] && s.ranks[2].buf[1] == [1, 0]
  }

  lemma OneEnds(x: Net<Byte, ()>) returns (y: Net<Byte, ()>)
    requires R.Small(R.Demo()) && R.On(R.Demo(), x, [R.Data(3, 2, 0, false), R.Data(3, 1, 0, false), R.Announced(3)])
    ensures Shaped(R.Demo(), y) && y == Run(R.Demo(), x, [1, 1, 1])
    ensures y.ranks[1].step == 4 && |y.ranks[1].buf| == 3 && y.ranks[1].buf[1] == [1, 1]
    ensures Two(y.ranks[2], false, 0, 0, true) && y.links[1] == [Frame(0, 3, Meta(())), Bytes1(1), Bytes1(0)]
  {
    hide Inv, R.NoStale, Valid, Fits, Act, R.Demo, TxBytes;
    var J := R.Demo();
    RankOne(x);
    RankTwo(x);
    LinkOne(x);
    Overwrites(x);
    var a := Act(J, x, 1);
    SendsWrong(J, a);
    var b := Act(J, a, 1);
    OneDone(J, b);
    y := Act(J, b, 1);
    Three(J, x, 1);
  }

  lemma Three(J: Job<Byte, ()>, x: Net<Byte, ()>, r: nat)
    requires Valid(J) && Shaped(J, x) && r < J.world
    ensures Run(J, x, [r, r, r]) == Act(J, Act(J, Act(J, x, r), r), r)
  {
    hide Valid, Shaped, Act;
    RunLast(J, x, [], r);
    RunLast(J, x, [r], r);
    RunLast(J, x, [r, r], r);
    assert [] + [r] == [r] && [r] + [r] == [r, r] && [r, r] + [r] == [r, r, r];
  }

  lemma TwoEnds(y: Net<Byte, ()>) returns (z: Net<Byte, ()>)
    requires R.Small(R.Demo()) && Shaped(R.Demo(), y)
    requires Two(y.ranks[2], false, 0, 0, true) && y.links[1] == [Frame(0, 3, Meta(())), Bytes1(1), Bytes1(0)]
    ensures Shaped(R.Demo(), z) && z == Run(R.Demo(), y, [2, 2, 2, 2, 2])
    ensures |z.ranks| == 3 && z.ranks[1] == y.ranks[1] && z.ranks[2].step == 4 && |z.ranks[2].buf| == 3 && z.ranks[2].buf[1] == [1, 0]
  {
    hide PackLaws, Fits, Act, R.Demo, OnData;
    var J := R.Demo();
    TakesMetadata(J, y);
    var a := Act(J, y, 2);
    SendsOwn(J, a);
    var b := Act(J, a, 2);
    TakesTwo(b.ranks[2], 1, 0);
    TakesNext(J, b);
    var c := Act(J, b, 2);
    TakesNext(J, c);
    var d := Act(J, c, 2);
    TwoDone(J, d);
    z := Act(J, d, 2);
    Three(J, y, 2);
    RunLast(J, y, [2, 2, 2], 2);
    RunLast(J, y, [2, 2, 2, 2], 2);
    assert [2, 2, 2] + [2] == [2, 2, 2, 2] && [2, 2, 2, 2] + [2] == [2, 2, 2, 2, 2];
  }

  /** Two ranks of the maximum have finished, and hold different results. */
  lemma ResultsDiffer() returns (s: Net<Byte, ()>)
    ensures Valid(R.Demo()) && Init(R.Demo(), s) && Shaped(R.Demo(), s) && Legal(R.Demo(), Schedule())
    ensures Differ(Run(R.Demo(), s, Schedule()))
  {
    R.DemoSmall();
    hide Valid, Init, Shaped, R.Demo, R.Schedule, R.On;
    var J := R.Demo();
    s := Starts(J);
    var a := R.WholeSchedule(J, s);
    var x := Run(J, s, a);
    var y := OneEnds(x);
    var z := TwoEnds(y);
    RunAppend(J, s, a, [1, 1, 1]);
    RunAppend(J, s, a + [1, 1, 1], [2, 2, 2, 2, 2]);
    Rearranged(a);
  }

  lemma Rearranged(a: seq<nat>)
    ensures a + [1, 1, 1] + [2, 2, 2, 2, 2] == a + [1] + [1, 1, 2, 2, 2, 2, 2]
  {
  }
}
