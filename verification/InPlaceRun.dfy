/** A quantized all-reduce of three ranks, one of which sends smaller pieces than its predecessor, and a schedule
    after which that rank is about to send a byte of the wrong chunk. */
module InPlaceRun {
  import opened Streaming
  import opened RingSpec
  import opened Ring
  import opened RingProof
  import opened RingProgress
  import opened InPlace
  import ByteSum

  function Larger(a: Byte, b: Byte): Byte { if a < b then b else a }

  /** The maximum of three vectors, in three chunks of two bytes; a byte is its own code. All ranks contribute the same:
      chunk `c` is made of the byte `c`. Rank 1 sends one byte at a time, the others two. */
  function Demo(): Job<Byte, ()> {
    Job(3, [2, 2, 2], seq(3, _ => [[0, 0], [1, 1], [2, 2]]), true, 8, (v: seq<Byte>) => v, (v: seq<Byte>) => (), (),
        (m: (), s: Slot) => ByteSum.Value(s), Larger, [2, 1, 2], 0, 2)
  }

  lemma DemoValid()
    ensures Valid(Demo())
  {
    var J := Demo();
    ByteSum.ByteSizes(2);
    forall v: seq<Byte> ensures PackLaw(J, v) { ByteSum.ByteSizes(|v|); }
    assert forall c :: 0 <= c < 3 ==> Bytes(J, c) == 2;
  }

  ghost predicate Small<E(!new), M>(J: Job<E, M>) {
    && Valid(J) && J.world == 3 && J.quant && J.pieces == [2, 1, 2] && J.ctr == 0
    && (forall c :: 0 <= c < 3 ==> Bytes(J, c) == 2)
  }

  lemma DemoSmall()
    ensures Small(Demo())
  {
    DemoValid();
    ByteSum.ByteSizes(2);
  }

  /** Two equal bytes, and what a receiver makes of them. */
  function Twice(b: Byte): seq<Byte> { [b, b] }

  lemma TwiceSlots(b: Byte)
    ensures Slots(Twice(b), 8) == [Whole([b]), Whole([b])]
  {
    ByteSum.ByteSlots(Twice(b), 0);
    ByteSum.ByteSlots(Twice(b), 1);
  }

  lemma Same(b: Byte)
    ensures Combine(Demo(), true, ())(b, Whole([b])) == b && Combine(Demo(), false, ())(0, Whole([b])) == b
  {
    var J := Demo();
    assert J.unpack((), Whole([b])) == ByteSum.Value(Whole([b])) == b;
    assert J.op(b, b) == Larger(b, b) == b;
  }

  lemma {:induction false} DemoPartial(c: nat, d: nat)
    requires Valid(Demo()) && c < 3 && d < 3
    ensures Partial(Demo(), c, d) == Twice(c)
    decreases d
  {
    hide PackLaws, Slots;
    var J := Demo();
    if d > 0 {
      DemoPartial(c, d - 1);
      PackCount(J, Twice(c));
      TwiceSlots(c);
      var r := if c + d < 3 then c + d else c + d - 3;
      PartialStep(J, c, d - 1, r);
      assert J.input[r][c] == Twice(c);
      Same(c);
    }
  }

  /** What every rank should send for a chunk, and hold in the end. */
  lemma DemoWire(r: nat, t: nat)
    requires Valid(Demo()) && r < 3 && t < 4
    ensures Wire(Demo(), r, t) == Twice(TxChunk(3, r, t))
  {
    hide PackLaws, Partial;
    var c := TxChunk(3, r, t);
    DemoPartial(c, if t < 2 then t else 2);
  }

  lemma DemoFinal(c: nat)
    requires Valid(Demo()) && c < 3
    ensures Final(Demo(), c) == Twice(c)
  {
    hide PackLaws, Partial, Slots;
    DemoPartial(c, 2);
    TwiceSlots(c);
  }

  // Where the ranks are -----------------------------------------------------------------------------

  /** The progress of a rank, without contents. */
  datatype Mark = Mark(step: nat, metaOut: bool, metaIn: bool, sent: nat, recvd: nat, turn: bool)

  function MarkOf<E, M>(k: Rank<E, M>): Mark { Mark(k.step, k.metaOut, k.metaIn, k.sent, k.recvd, k.sendTurn) }

  function PieceOf(r: nat): (n: nat)
    ensures n > 0
  {
    if r == 1 then 1 else 2
  }

  /** Frames that rank `p` sends from a point on. */
  function Left(p: nat, step: nat, meta: bool, bytes: nat): nat {
    if step >= 4 then 0
    else (3 - step) * (if p == 1 then 3 else 2) + (if meta then 0 else 1)
         + if bytes >= 2 then 0 else if bytes == 0 && p == 1 then 2 else 1
  }

  lemma CutCount<M>(ctr: nat, step: nat, w: seq<Byte>, p: nat, b: nat)
    requires |w| == 2
    ensures |Cut<M>(ctr, step, w, PieceOf(p), b)| == if b >= 2 then 0 else if b == 0 && p == 1 then 2 else 1
  {
    var n := PieceOf(p);
    assert |Cut<M>(ctr, step, w, n, 2)| == 0;
    assert |Cut<M>(ctr, step, w, n, 1)| == 1 + |Cut<M>(ctr, step, w, n, 2)|;
  }

  lemma {:induction false} FutureCount<E(!new), M>(J: Job<E, M>, p: nat, t: nat, m: bool, b: nat)
    requires Small(J) && p < 3
    ensures |Future(J, p, t, m, b)| == Left(p, t, m, b)
    decreases 4 - t
  {
    hide Future, Valid, Cut, Wire;
    if t >= 4 {
      FutureEnd(J, p, t, m, b);
    } else {
      FutureParts(J, p, t, m, b);
      FutureCount(J, p, t + 1, false, 0);
      CutCount<M>(J.ctr, t, Wire(J, p, t), p, b);
    }
  }

  ghost predicate NoStale<E, M>(J: Job<E, M>, s: Net<E, M>) {
    forall r, i :: 0 <= r < |s.links| && 0 <= i < |s.links[r]| ==> s.links[r][i].ctr == J.ctr
  }

  lemma {:induction false} AllLive<M>(ctr: nat, link: seq<Frame<M>>)
    requires forall i :: 0 <= i < |link| ==> link[i].ctr == ctr
    ensures Live(ctr, link) == link
    decreases |link|
  {
    if link != [] { AllLive(ctr, link[1..]); }
  }

  /** Whether there is a frame for rank `r`. */
  predicate Idle(c: seq<Mark>, r: nat)
    requires |c| == 3 && r < 3
  {
    var p := Prev(3, r);
    Left(p, c[r].step, c[r].metaIn, c[r].recvd) == Left(p, c[p].step, c[p].metaOut, c[p].sent)
  }

  ghost function Marks<E, M>(s: Net<E, M>): (c: seq<Mark>)
    ensures |c| == |s.ranks|
  {
    seq(|s.ranks|, r requires 0 <= r < |s.ranks| => MarkOf(s.ranks[r]))
  }

  lemma IdleMeans<E(!new), M>(J: Job<E, M>, s: Net<E, M>, r: nat)
    requires Small(J) && Inv(J, s) && |s.ranks| == |s.links| == 3 && NoStale(J, s) && r < 3
    ensures s.links[Prev(3, r)] == [] <==> Idle(Marks(s), r)
  {
    hide Valid, RankOk, Future, Live, Left, Fits;
    InvShaped(J, s);
    var p, k := Prev(3, r), s.ranks[r];
    assert LinkOk(J, p, s.links[p], s.ranks[p], s.ranks[r]);
    AllLive(J.ctr, s.links[p]);
    FutureCount(J, p, k.step, k.metaIn, k.recvd);
    FutureCount(J, p, s.ranks[p].step, s.ranks[p].metaOut, s.ranks[p].sent);
  }

  /** The move of rank `r`, without contents. */
  function Step(c: seq<Mark>, r: nat): Mark
    requires |c| == 3 && r < 3
  {
    var k := c[r];
    if k.step >= 4 then k
    else if !k.metaOut then k.(metaOut := true)
    else if !k.metaIn then if Idle(c, r) then k else k.(metaIn := true)
    else if k.turn && k.sent < 2 then k.(sent := k.sent + Min(PieceOf(r), 2 - k.sent), turn := false)
    else if k.recvd < 2 then
      if Idle(c, r) then k.(turn := true) else k.(recvd := k.recvd + Min(PieceOf(Prev(3, r)), 2 - k.recvd), turn := true)
    else if k.sent < 2 then k.(turn := true)
    else Mark(k.step + 1, false, false, 0, 0, true)
  }

  predicate Over(k: Mark) { k.step == 3 && k.sent < 2 && k.sent < k.recvd }

  ghost predicate On<E(!new), M>(J: Job<E, M>, s: Net<E, M>, c: seq<Mark>)
    requires Valid(J)
  {
    Inv(J, s) && Shaped(J, s) && NoStale(J, s) && Marks(s) == c
  }

  lemma MarkMeta<E(!new), M>(J: Job<E, M>, s: Net<E, M>, r: nat)
    requires Small(J) && Inv(J, s) && Shaped(J, s) && NoStale(J, s) && r < 3
    requires s.ranks[r].step < 4 && s.ranks[r].metaOut && !s.ranks[r].metaIn && s.links[Prev(3, r)] != []
    ensures MarkOf(OnMeta(J, s.ranks[r], s.links[Prev(3, r)][0])) == MarkOf(s.ranks[r]).(metaIn := true)
  {
    hide Inv, Fits, BytesOk, HeldOk, MetaOk, Chosen, Valid, Awaits;
    InvShaped(J, s);
    var k, f := s.ranks[r], s.links[Prev(3, r)][0];
    Awaited(J, s, r);
    TakesMeta(J, r, k, f);
  }

  lemma MarkData<E(!new), M>(J: Job<E, M>, s: Net<E, M>, r: nat)
    requires Small(J) && Inv(J, s) && Shaped(J, s) && NoStale(J, s) && r < 3
    requires s.ranks[r].step < 4 && s.ranks[r].metaIn && s.ranks[r].recvd < 2 && s.links[Prev(3, r)] != []
    ensures
      var k, p := s.ranks[r], Prev(3, r);
      MarkOf(OnData(J, k, s.links[p][0]))
      == MarkOf(k).(recvd := k.recvd + Min(PieceOf(p), 2 - k.recvd), turn := true)
  {
    hide Inv, HeldOk, MetaOk, Chosen, PackLaws, Awaits, OnData, BytesOk, Wire, Future, Bytes;
    InvShaped(J, s);
    var k, p := s.ranks[r], Prev(3, r);
    assert k.rx < 3 && Bytes(J, k.rx) == 2;
    Awaited(J, s, r);
    HeadData(J, r, k, s.links[p][0]);
    TakenFields(J, k, s.links[p][0].body.bytes);
  }

  /** The moves of a rank, with all chunks two bytes long. */
  lemma ActIs<E(!new), M>(J: Job<E, M>, s: Net<E, M>, r: nat)
    requires Small(J) && Shaped(J, s) && r < 3 && !s.ranks[r].failed
    ensures
      var k, p := s.ranks[r], Prev(3, r);
      Act(J, s, r) ==
        if k.step >= 4 then s
        else if !k.metaOut then Put(s, r, k.(metaOut := true), Frame(J.ctr, k.step, Meta(k.meta)))
        else if !k.metaIn then if s.links[p] == [] then s else Pop(s, r, p, OnMeta(J, k, s.links[p][0]))
        else if k.sendTurn && k.sent < 2 then Put(s, r, AfterSend(J, r, k), Piece(J, r, k))
        else if k.recvd < 2 then
          if s.links[p] == [] then Move(s, r, k.(sendTurn := true)) else Pop(s, r, p, OnData(J, k, s.links[p][0]))
        else if k.sent < 2 then Move(s, r, k.(sendTurn := true))
        else Move(s, r, AfterStep(J, r, k))
  {
    hide PackLaws, Enter, OnData, OnMeta, Piece, Bytes, TxBytes;
    FitsTwo(J, s.ranks[r]);
  }

  lemma MarkAct<E(!new), M>(J: Job<E, M>, s: Net<E, M>, r: nat)
    requires Small(J) && Inv(J, s) && Shaped(J, s) && NoStale(J, s) && r < 3
    ensures MarkOf(Act(J, s, r).ranks[r]) == Step(Marks(s), r)
  {
    hide Inv, NoStale, RankOk, PackLaws, Enter, OnData, OnMeta, Idle, Bytes, Act, Fits;
    InvShaped(J, s);
    IdleMeans(J, s, r);
    var k, p := s.ranks[r], Prev(3, r);
    RankGoes(J, r, k);
    FitsTwo(J, k);
    ActIs(J, s, r);
    if k.step < 4 && s.links[p] != [] {
      if k.metaOut && !k.metaIn { MarkMeta(J, s, r); }
      if k.metaIn && k.recvd < 2 { MarkData(J, s, r); }
    }
  }

  lemma RankGoes<E(!new), M>(J: Job<E, M>, r: nat, k: Rank<E, M>)
    requires Valid(J) && r < J.world && RankOk(J, r, k)
    ensures !k.failed
  {
  }

  lemma StaysLive<E(!new), M>(J: Job<E, M>, s: Net<E, M>, r: nat)
    requires Valid(J) && Shaped(J, s) && NoStale(J, s) && r < J.world
    ensures NoStale(J, Act(J, s, r))
  {
    hide PackLaws, OnData, OnMeta, Enter, Fits;
  }

  lemma FitsTwo<E(!new), M>(J: Job<E, M>, k: Rank<E, M>)
    requires Small(J) && Fits(J, k)
    ensures Bytes(J, k.tx) == 2 == Bytes(J, k.rx)
  {
    hide PackLaws, Bytes;
  }

  lemma OvertakenIsOver<E(!new), M>(J: Job<E, M>, s: Net<E, M>, r: nat)
    requires Small(J) && Overtakes(J, s, r)
    ensures Over(MarkOf(Act(J, s, r).ranks[r]))
  {
    hide Inv, Act, Valid, Fits, Wire, TxBytes, Bytes;
    OvertakenLate(J, s, r);
    OvertakenByte(J, s, r);
    FitsTwo(J, Act(J, s, r).ranks[r]);
  }

  /** A rank keeps its source throughout a step. */
  lemma SourceKept<E(!new), M>(J: Job<E, M>, s: Net<E, M>, r: nat)
    requires Valid(J) && Shaped(J, s) && r < J.world && Act(J, s, r).ranks[r].step == s.ranks[r].step
    ensures Act(J, s, r).ranks[r].src == s.ranks[r].src
  {
    hide PackLaws, Absorb, Overwrite, Piece, Fits;
  }

  lemma OverIsOvertaken<E(!new), M>(J: Job<E, M>, s: Net<E, M>, r: nat)
    requires Small(J) && Inv(J, s) && Shaped(J, s) && r < 3 && s.ranks[r].step == 3
    requires Over(MarkOf(Act(J, s, r).ranks[r]))
    ensures Overtakes(J, s, r)
  {
    hide Inv, Act, PackLaws, Fits, Bytes, BytesOk, HeldOk, MetaOk, WireMeta, Wire;
    InvShaped(J, s);
    assert RankOk(J, r, s.ranks[r]);
    SourceKept(J, s, r);
    FitsTwo(J, Act(J, s, r).ranks[r]);
  }

  // The schedule ------------------------------------------------------------------------------------

  /** The ranks take turns and all finish the step. */
  function Together(): seq<nat> { [0, 1, 2, 0, 1, 2, 0, 1, 2, 0, 1, 2, 1, 2, 0, 1, 2] }

  /** In the first forwarding step, rank 0 sends its whole chunk before rank 1 has sent half of its own. */
  function Schedule(): seq<nat> { Together() + Together() + Together() + [0, 1, 2, 0, 0, 1, 1, 1] }

  /** The run of schedule `a` from `s` ends where `c` says. */
  ghost predicate Ends<E(!new), M>(J: Job<E, M>, s: Net<E, M>, a: seq<nat>, c: seq<Mark>)
    requires Valid(J) && Shaped(J, s)
  {
    Legal(J, a) && On(J, Run(J, s, a), c)
  }

  lemma Goes<E(!new), M>(J: Job<E, M>, s: Net<E, M>, a: seq<nat>, r: nat, c: seq<Mark>, c': seq<Mark>)
    requires Small(J) && Shaped(J, s) && Ends(J, s, a, c) && |c| == 3 && r < 3 && c[r].step < 4
    requires c' == c[r := Step(c, r)] && !Over(Step(c, r))
    ensures Ends(J, s, a + [r], c')
  {
    hide Inv, Act, Valid, Fits, Step, NoStale;
    var x := Run(J, s, a);
    RunLast(J, s, a, r);
    MarkAct(J, x, r);
    StaysLive(J, x, r);
    ActOthers(J, x, r);
    if Overtaken(J, Act(J, x, r).ranks[r]) { OvertakenIsOver(J, x, r); }
    ActInv(J, x, r);
  }

  function Begun(t: nat): Mark { Mark(t, false, false, 0, 0, true) }

  function Announced(t: nat): Mark { Mark(t, true, false, 0, 0, true) }

  function Met(t: nat): Mark { Mark(t, true, true, 0, 0, true) }

  lemma MetadataRuns<E(!new), M>(J: Job<E, M>, s: Net<E, M>, a: seq<nat>, t: nat)
    requires Small(J) && Shaped(J, s) && t < 4 && Ends(J, s, a, [Begun(t), Begun(t), Begun(t)])
    ensures Ends(J, s, a + [0, 1, 2], [Announced(t), Announced(t), Announced(t)])
    ensures Ends(J, s, a + [0, 1, 2] + [0, 1, 2], [Met(t), Met(t), Met(t)])
  {
    hide Ends, Small, Shaped;
    var f, o, m := Begun(t), Announced(t), Met(t);
    Goes(J, s, a, 0, [f, f, f], [o, f, f]);
    Goes(J, s, a + [0], 1, [o, f, f], [o, o, f]);
    Goes(J, s, a + [0] + [1], 2, [o, o, f], [o, o, o]);
    var b := a + [0, 1, 2];
    assert a + [0] + [1] + [2] == b;
    Goes(J, s, b, 0, [o, o, o], [m, o, o]);
    Goes(J, s, b + [0], 1, [m, o, o], [m, m, o]);
    Goes(J, s, b + [0] + [1], 2, [m, m, o], [m, m, m]);
    assert b + [0] + [1] + [2] == b + [0, 1, 2];
  }

  function Data(t: nat, sent: nat, recvd: nat, turn: bool): Mark { Mark(t, true, true, sent, recvd, turn) }

  lemma FirstData<E(!new), M>(J: Job<E, M>, s: Net<E, M>, a: seq<nat>, t: nat)
    requires Small(J) && Shaped(J, s) && t < 3 && Ends(J, s, a, [Met(t), Met(t), Met(t)])
    ensures Ends(J, s, a + [0, 1, 2] + [0, 1, 2], [Data(t, 2, 2, true), Data(t, 1, 2, true), Data(t, 2, 1, true)])
  {
    hide Ends, Small, Shaped;
    var m := Met(t);
    var x, y, z := Data(t, 2, 0, false), Data(t, 1, 0, false), Data(t, 2, 0, false);
    Goes(J, s, a, 0, [m, m, m], [x, m, m]);
    Goes(J, s, a + [0], 1, [x, m, m], [x, y, m]);
    Goes(J, s, a + [0] + [1], 2, [x, y, m], [x, y, z]);
    var b := a + [0, 1, 2];
    assert a + [0] + [1] + [2] == b;
    var x', y', z' := Data(t, 2, 2, true), Data(t, 1, 2, true), Data(t, 2, 1, true);
    Goes(J, s, b, 0, [x, y, z], [x', y, z]);
    Goes(J, s, b + [0], 1, [x', y, z], [x', y', z]);
    Goes(J, s, b + [0] + [1], 2, [x', y', z], [x', y', z']);
    assert b + [0] + [1] + [2] == b + [0, 1, 2];
  }

  lemma LastData<E(!new), M>(J: Job<E, M>, s: Net<E, M>, a: seq<nat>, t: nat)
    requires Small(J) && Shaped(J, s) && t < 3
    requires Ends(J, s, a, [Data(t, 2, 2, true), Data(t, 1, 2, true), Data(t, 2, 1, true)])
    ensures Ends(J, s, a + [1, 2] + [0, 1, 2], [Begun(t + 1), Begun(t + 1), Begun(t + 1)])
  {
    hide Ends, Small, Shaped;
    var x, y, z, f := Data(t, 2, 2, true), Data(t, 2, 2, false), Data(t, 2, 2, true), Begun(t + 1);
    Goes(J, s, a, 1, [x, Data(t, 1, 2, true), Data(t, 2, 1, true)], [x, y, Data(t, 2, 1, true)]);
    Goes(J, s, a + [1], 2, [x, y, Data(t, 2, 1, true)], [x, y, z]);
    var b := a + [1, 2];
    assert a + [1] + [2] == b;
    Goes(J, s, b, 0, [x, y, z], [f, y, z]);
    Goes(J, s, b + [0], 1, [f, y, z], [f, f, z]);
    Goes(J, s, b + [0] + [1], 2, [f, f, z], [f, f, f]);
    assert b + [0] + [1] + [2] == b + [0, 1, 2];
  }

  lemma StepTogether<E(!new), M>(J: Job<E, M>, s: Net<E, M>, a: seq<nat>, t: nat)
    requires Small(J) && Shaped(J, s) && t < 3 && Ends(J, s, a, [Begun(t), Begun(t), Begun(t)])
    ensures Ends(J, s, a + Together(), [Begun(t + 1), Begun(t + 1), Begun(t + 1)])
  {
    hide Ends, Small, Shaped;
    MetadataRuns(J, s, a, t);
    var b := a + [0, 1, 2] + [0, 1, 2];
    FirstData(J, s, b, t);
    var c := b + [0, 1, 2] + [0, 1, 2];
    LastData(J, s, c, t);
    assert c + [1, 2] + [0, 1, 2] == a + Together();
  }

  /** Up to the last move of the schedule. */
  lemma BeforeLast<E(!new), M>(J: Job<E, M>, s: Net<E, M>, a: seq<nat>)
    requires Small(J) && Shaped(J, s) && Ends(J, s, a, [Begun(3), Begun(3), Begun(3)])
    ensures Ends(J, s, a + [0, 1, 2] + [0, 0, 1, 1], [Data(3, 2, 0, false), Data(3, 1, 0, false), Announced(3)])
  {
    hide Ends, Small, Shaped;
    MetadataRuns(J, s, a, 3);
    var o, m, x, y := Announced(3), Met(3), Data(3, 2, 0, false), Data(3, 1, 0, false);
    var b := a + [0, 1, 2];
    Goes(J, s, b, 0, [o, o, o], [m, o, o]);
    Goes(J, s, b + [0], 0, [m, o, o], [x, o, o]);
    Goes(J, s, b + [0] + [0], 1, [x, o, o], [x, m, o]);
    Goes(J, s, b + [0] + [0] + [1], 1, [x, m, o], [x, y, o]);
    assert b + [0] + [0] + [1] + [1] == b + [0, 0, 1, 1];
  }

  lemma BeginsThere<E(!new), M>(J: Job<E, M>, s: Net<E, M>)
    requires Small(J) && Init(J, s) && forall r :: 0 <= r < |s.links| ==> s.links[r] == []
    ensures Shaped(J, s) && Ends(J, s, [], [Begun(0), Begun(0), Begun(0)])
  {
    hide PackLaws, Inv, Enter;
    InitCalm(J, s);
  }

  lemma WholeSchedule<E(!new), M>(J: Job<E, M>, s: Net<E, M>) returns (a: seq<nat>)
    requires Small(J) && Init(J, s) && forall r :: 0 <= r < |s.links| ==> s.links[r] == []
    ensures Shaped(J, s) && a + [1] == Schedule()
    ensures Ends(J, s, a, [Data(3, 2, 0, false), Data(3, 1, 0, false), Announced(3)])
  {
    BeginsThere(J, s);
    hide Ends, Small, Shaped, Init, Together;
    var b := Together();
    StepTogether(J, s, [], 0);
    assert [] + b == b;
    StepTogether(J, s, b, 1);
    StepTogether(J, s, b + b, 2);
    BeforeLast(J, s, b + b + b);
    a := b + b + b + [0, 1, 2] + [0, 0, 1, 1];
    LastMoves(b + b + b);
  }

  lemma LastMoves(b: seq<nat>)
    ensures b + [0, 1, 2] + [0, 0, 1, 1] + [1] == b + [0, 1, 2, 0, 0, 1, 1, 1]
  {
  }

  lemma CleanRunCorrupts(s: Net<Byte, ()>)
    requires Valid(Demo()) && Init(Demo(), s) && forall r :: 0 <= r < |s.links| ==> s.links[r] == []
    ensures Shaped(Demo(), s) && Legal(Demo(), Schedule()) && !Intact(Demo(), Run(Demo(), s, Schedule()), 1)
  {
    DemoSmall();
    var J := Demo();
    var a := WholeSchedule(J, s);
    var x := Run(J, s, a);
    LastMove(J, x);
    RunLast(J, s, a, 1);
    DemoBroken(x);
  }

  /** The byte due next is one of chunk 0, and should be one of chunk 1. */
  lemma DemoBroken(x: Net<Byte, ()>)
    requires Valid(Demo()) && Overtakes(Demo(), x, 1) && x.ranks[1].step == 3
    ensures !Intact(Demo(), Act(Demo(), x, 1), 1)
  {
    hide Valid, Inv, Act, TxBytes, Overtaken, Fits, Wire;
    OvertakenByte(Demo(), x, 1);
    DemoWire(1, 3);
    DemoWire(0, 3);
    var k := Act(Demo(), x, 1).ranks[1];
    assert TxBytes(Demo(), k)[k.sent..][0] != Wire(Demo(), 1, 3)[k.sent..][0];
  }

  /** On clean links, this schedule leaves rank 1 with a byte to send that belongs to another chunk: it has received
      two bytes into the buffer of which it has sent one. */
  lemma ScheduleCorrupts() returns (s: Net<Byte, ()>)
    ensures Valid(Demo()) && Init(Demo(), s) && Shaped(Demo(), s) && Legal(Demo(), Schedule())
    ensures !Intact(Demo(), Run(Demo(), s, Schedule()), 1)
  {
    DemoSmall();
    hide Valid, Init, Shaped, Intact, Demo, Schedule;
    s := Starts(Demo());
    CleanRunCorrupts(s);
  }

  lemma LastMove<E(!new), M>(J: Job<E, M>, s: Net<E, M>)
    requires Small(J) && On(J, s, [Data(3, 2, 0, false), Data(3, 1, 0, false), Announced(3)])
    ensures Overtakes(J, s, 1) && s.ranks[1].step == 3
  {
    hide Inv, Valid, Fits, Act, NoStale;
    var c := [Data(3, 2, 0, false), Data(3, 1, 0, false), Announced(3)];
    MarkAct(J, s, 1);
    assert Step(c, 1) == Data(3, 1, 2, true);
    assert MarkOf(s.ranks[1]) == c[1];
    OverIsOvertaken(J, s, 1);
  }
}
