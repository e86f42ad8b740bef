/** What every interleaving of the ring keeps: each rank's buffer is determined by how far it got, and each
    link holds exactly the frames between its sender's and its receiver's position. */
module RingProof {
  import opened Streaming
  import opened RingSpec
  import opened Ring

  /** The data frames of one step from byte `b` on. */
  ghost function Cut<M>(ctr: nat, step: nat, w: seq<Byte>, piece: nat, b: nat): (fs: seq<Frame<M>>)
    requires piece > 0
    ensures b < |w| ==> fs != []
    decreases |w| - b
  {
    if b >= |w| then []
    else
      var n := Min(piece, |w| - b);
      [Frame(ctr, step, Data(w[b..b + n]))] + Cut(ctr, step, w, piece, b + n)
  }

  /** Everything rank `r` still has to send when it is in step `t`, has sent its metadata iff `m`, and `b`
      data bytes of the step. */
  ghost function Future<E(!new), M>(J: Job<E, M>, r: nat, t: nat, m: bool, b: nat): (fs: seq<Frame<M>>)
    requires Valid(J) && r < J.world
    decreases Last(J) - t
  {
    if t >= Last(J) then []
    else
      var data := Cut(J.ctr, t, Wire(J, r, t), J.pieces[r], b) + Future(J, r, t + 1, false, 0);
      if J.quant && !m then [Frame(J.ctr, t, Meta(WireMeta(J, r, t)))] + data else data
  }

  /** The frames of this operation on a link. */
  ghost function Live<M>(ctr: nat, link: seq<Frame<M>>): seq<Frame<M>> {
    if link == [] then []
    else if link[0].ctr == ctr then [link[0]] + Live(ctr, link[1..])
    else Live(ctr, link[1..])
  }

  /** The chunk being received after `n` bytes of it. */
  ghost function Arriving<E(!new), M>(J: Job<E, M>, r: nat, t: nat, n: nat): (v: seq<E>)
    requires Valid(J) && r < J.world && t < Last(J)
  {
    var p := Prev(J.world, r);
    var rx := RxChunk(J.world, r, t);
    var w := Wire(J, p, t);
    ChunksMatch(J.world, r, t);
    RoomCount(J, w[..Min(n, |w|)], rx);
    Streamed(ChunkAt(J, r, t, rx), Slots(w[..Min(n, |w|)], J.q), Combine(J, t < J.world - 1, WireMeta(J, p, t)))
  }

  ghost predicate Chosen<E(!new), M>(J: Job<E, M>, r: nat, k: Rank<E, M>)
    requires Valid(J) && r < J.world && k.step < Last(J)
  {
    && k.tx == TxChunk(J.world, r, k.step) && k.rx == RxChunk(J.world, r, k.step)
    && (J.quant ==> k.meta == WireMeta(J, r, k.step))
    && k.src == if !J.quant then FromBuffer
                else if k.step <= J.world - 1 then Snapshot(Wire(J, r, k.step)) else FromRoom
  }

  ghost predicate MetaOk<E(!new), M>(J: Job<E, M>, r: nat, k: Rank<E, M>)
    requires Valid(J) && r < J.world && k.step < Last(J)
  {
    && (!J.quant ==> k.got == J.noMeta)
    && (J.quant && k.metaIn ==> k.metaOut && k.got == WireMeta(J, Prev(J.world, r), k.step))
    && (J.quant && !k.metaIn ==> k.sent == 0 && k.recvd == 0 && k.sendTurn)
  }

  /** What is still to be sent is intact, and what was received is the front of what was sent to us. */
  ghost predicate BytesOk<E(!new), M>(J: Job<E, M>, r: nat, k: Rank<E, M>)
    requires Valid(J) && r < J.world && k.step < Last(J) && Fits(J, k)
  {
    var w := Wire(J, r, k.step);
    var v := Wire(J, Prev(J.world, r), k.step);
    && |w| == Bytes(J, k.tx) && |v| == Bytes(J, k.rx)
    && TxBytes(J, k)[k.sent..] == w[k.sent..]
    && k.room[..k.recvd] == v[..k.recvd]
    && !Overtaken(J, k)
  }

  ghost predicate HeldOk<E(!new), M>(J: Job<E, M>, r: nat, k: Rank<E, M>)
    requires Valid(J) && r < J.world && k.step < Last(J) && Fits(J, k)
  {
    && (forall c :: 0 <= c < J.world && c != k.rx ==> k.buf[c] == ChunkAt(J, r, k.step, c))
    && k.buf[k.rx] == Arriving(J, r, k.step, k.recvd)
  }

  ghost predicate RankOk<E(!new), M>(J: Job<E, M>, r: nat, k: Rank<E, M>)
    requires Valid(J) && r < J.world
  {
    && !k.failed && Fits(J, k) && k.step <= Last(J)
    && (k.step == Last(J) ==> k.buf == BufferAt(J, r, Last(J)))
    && (k.step < Last(J) ==> Chosen(J, r, k) && MetaOk(J, r, k) && BytesOk(J, r, k) && HeldOk(J, r, k))
  }

  ghost function ToSend<E(!new), M>(J: Job<E, M>, r: nat, k: Rank<E, M>): seq<Frame<M>>
    requires Valid(J) && r < J.world
  {
    Future(J, r, k.step, k.metaOut, k.sent)
  }

  /** What the rank behind `p` still has to receive. */
  ghost function ToReceive<E(!new), M>(J: Job<E, M>, p: nat, k: Rank<E, M>): seq<Frame<M>>
    requires Valid(J) && p < J.world
  {
    Future(J, p, k.step, k.metaIn, k.recvd)
  }

  /** What a receiver waits for is what is on its link followed by what its sender still has to send. */
  ghost predicate LinkOk<E(!new), M>(J: Job<E, M>, p: nat, link: seq<Frame<M>>, sender: Rank<E, M>, receiver: Rank<E, M>)
    requires Valid(J) && p < J.world
  {
    ToReceive(J, p, receiver) == Live(J.ctr, link) + ToSend(J, p, sender)
  }

  ghost function RankPred<E(!new), M>(J: Job<E, M>): (nat, Rank<E, M>) -> bool
    requires Valid(J)
  {
    (r: nat, k: Rank<E, M>) => r < J.world && RankOk(J, r, k)
  }

  ghost function LinkPred<E(!new), M>(J: Job<E, M>): (nat, seq<Frame<M>>, Rank<E, M>, Rank<E, M>) -> bool
    requires Valid(J)
  {
    (p: nat, link: seq<Frame<M>>, a: Rank<E, M>, b: Rank<E, M>) => p < J.world && LinkOk(J, p, link, a, b)
  }

  ghost predicate Inv<E(!new), M>(J: Job<E, M>, s: Net<E, M>)
    requires Valid(J)
  {
    Around(J.world, s.ranks, s.links, RankPred(J), LinkPred(J))
  }

  lemma {:induction false} LiveAppend<M>(ctr: nat, link: seq<Frame<M>>, f: Frame<M>)
    requires f.ctr == ctr
    ensures Live(ctr, link + [f]) == Live(ctr, link) + [f]
    decreases |link|
  {
    if link == [] {
      assert [f][1..] == [];
    } else {
      LiveAppend(ctr, link[1..], f);
      assert (link + [f])[1..] == link[1..] + [f];
    }
  }

  /** A property of every node and every edge of a ring of `world` nodes. */
  ghost predicate Around<K, L>(world: nat, nodes: seq<K>, edges: seq<L>,
                               nodeOk: (nat, K) -> bool, edgeOk: (nat, L, K, K) -> bool)
  {
    && |nodes| == |edges| == world
    && (forall r :: 0 <= r < world ==> nodeOk(r, nodes[r]))
    && (forall p :: 0 <= p < world ==> edgeOk(p, edges[p], nodes[p], nodes[Next(world, p)]))
  }

  /** A move of node `r` that touches only its own two edges. */
  lemma AroundStep<K, L>(world: nat, nodes: seq<K>, edges: seq<L>, nodes': seq<K>, edges': seq<L>, r: nat,
                         nodeOk: (nat, K) -> bool, edgeOk: (nat, L, K, K) -> bool)
    requires Around(world, nodes, edges, nodeOk, edgeOk) && r < world
    requires |nodes'| == |edges'| == world
    requires nodes' == nodes[r := nodes'[r]] && nodeOk(r, nodes'[r])
    requires forall j :: 0 <= j < world && j != r && j != Prev(world, r) ==> edges'[j] == edges[j]
    requires edgeOk(r, edges'[r], nodes'[r], nodes'[Next(world, r)])
    requires edgeOk(Prev(world, r), edges'[Prev(world, r)], nodes'[Prev(world, r)], nodes'[r])
    ensures Around(world, nodes', edges', nodeOk, edgeOk)
  {
    forall p | 0 <= p < world
      ensures edgeOk(p, edges'[p], nodes'[p], nodes'[Next(world, p)])
    {
      if p != r && p != Prev(world, r) {
        assert Next(world, p) != r;
      }
    }
  }

  lemma InvStep<E(!new), M>(J: Job<E, M>, s: Net<E, M>, s': Net<E, M>, r: nat)
    requires Valid(J) && Inv(J, s) && r < J.world
    requires |s'.ranks| == |s'.links| == J.world
    requires s'.ranks == s.ranks[r := s'.ranks[r]]
    requires forall j :: 0 <= j < J.world && j != r && j != Prev(J.world, r) ==> s'.links[j] == s.links[j]
    requires RankOk(J, r, s'.ranks[r])
    requires LinkOk(J, r, s'.links[r], s'.ranks[r], s'.ranks[Next(J.world, r)])
    requires LinkOk(J, Prev(J.world, r), s'.links[Prev(J.world, r)], s'.ranks[Prev(J.world, r)], s'.ranks[r])
    ensures Inv(J, s')
  {
    AroundStep(J.world, s.ranks, s.links, s'.ranks, s'.links, r, RankPred(J), LinkPred(J));
  }

  // Links -------------------------------------------------------------------------------------------

  lemma LinkPush<E(!new), M>(J: Job<E, M>, p: nat, link: seq<Frame<M>>, a: Rank<E, M>, a': Rank<E, M>, b: Rank<E, M>,
                             f: Frame<M>)
    requires Valid(J) && p < J.world && LinkOk(J, p, link, a, b)
    requires f.ctr == J.ctr && ToSend(J, p, a) == [f] + ToSend(J, p, a')
    ensures LinkOk(J, p, link + [f], a', b)
  {
    LiveAppend(J.ctr, link, f);
    Assoc(Live(J.ctr, link), [f], ToSend(J, p, a'));
  }

  lemma Assoc<T>(a: seq<T>, b: seq<T>, c: seq<T>)
    ensures a + (b + c) == (a + b) + c
  {
  }

  lemma HeadOf<T>(a: seq<T>, h: T, l: seq<T>, c: seq<T>)
    requires a == ([h] + l) + c
    ensures a != [] && a[0] == h && a[1..] == l + c
  {
  }

  /** The first live frame on a link is the first one the receiver waits for. */
  lemma LinkHead<E(!new), M>(J: Job<E, M>, p: nat, link: seq<Frame<M>>, a: Rank<E, M>, b: Rank<E, M>)
    requires Valid(J) && p < J.world && LinkOk(J, p, link, a, b)
    requires link != [] && link[0].ctr == J.ctr
    ensures ToReceive(J, p, b) != [] && ToReceive(J, p, b)[0] == link[0]
    ensures ToReceive(J, p, b)[1..] == Live(J.ctr, link[1..]) + ToSend(J, p, a)
  {
    HeadOf(ToReceive(J, p, b), link[0], Live(J.ctr, link[1..]), ToSend(J, p, a));
  }

  lemma LinkPop<E(!new), M>(J: Job<E, M>, p: nat, link: seq<Frame<M>>, a: Rank<E, M>, b: Rank<E, M>, b': Rank<E, M>)
    requires Valid(J) && p < J.world && LinkOk(J, p, link, a, b)
    requires link != [] && link[0].ctr == J.ctr
    requires ToReceive(J, p, b) == [link[0]] + ToReceive(J, p, b')
    ensures LinkOk(J, p, link[1..], a, b')
  {
    LinkHead(J, p, link, a, b);
  }

  // Moves of one rank -------------------------------------------------------------------------------

  lemma SendsMeta<E(!new), M>(J: Job<E, M>, r: nat, k: Rank<E, M>)
    requires Valid(J) && r < J.world && RankOk(J, r, k)
    requires k.step < Last(J) && J.quant && !k.metaOut
    ensures
      var k' := k.(metaOut := true);
      && RankOk(J, r, k')
      && ToSend(J, r, k) == [Frame(J.ctr, k.step, Meta(k.meta))] + ToSend(J, r, k')
  {
  }

  /** `f` is the next frame rank `r` has to receive. */
  ghost predicate Awaits<E(!new), M>(J: Job<E, M>, r: nat, k: Rank<E, M>, f: Frame<M>)
    requires Valid(J) && r < J.world
  {
    ToReceive(J, Prev(J.world, r), k) != [] && ToReceive(J, Prev(J.world, r), k)[0] == f
  }

  /** Before the data of a step the next frame is its metadata. */
  lemma HeadMeta<E(!new), M>(J: Job<E, M>, r: nat, k: Rank<E, M>, f: Frame<M>)
    requires Valid(J) && r < J.world && k.step < Last(J) && J.quant && !k.metaIn && Awaits(J, r, k, f)
    ensures
      var p := Prev(J.world, r);
      && f == Frame(J.ctr, k.step, Meta(WireMeta(J, p, k.step)))
      && ToReceive(J, p, k) == [f] + Future(J, p, k.step, true, k.recvd)
  {
    hide Cut, Wire, WireMeta, PackLaws;
  }

  lemma TakesMeta<E(!new), M>(J: Job<E, M>, r: nat, k: Rank<E, M>, f: Frame<M>)
    requires Valid(J) && r < J.world && RankOk(J, r, k)
    requires k.step < Last(J) && J.quant && k.metaOut && !k.metaIn
    requires f.ctr == J.ctr
    requires Awaits(J, r, k, f)
    ensures
      var p := Prev(J.world, r);
      var k' := OnMeta(J, k, f);
      && f.step == k.step && f.body.Meta?
      && RankOk(J, r, k')
      && ToReceive(J, p, k) == [f] + ToReceive(J, p, k')
  {
    HeadMeta(J, r, k, f);
    hide Future, Wire, WireMeta, ChunkAt, Arriving, TxBytes, PackLaws, Awaits;
    SameTxBytes(J, k, OnMeta(J, k, f));
  }

  /** The rank after the send half of the loop. */
  ghost function AfterSend<E(!new), M>(J: Job<E, M>, r: nat, k: Rank<E, M>): Rank<E, M>
    requires Valid(J) && r < J.world && Fits(J, k)
  {
    k.(sent := k.sent + Min(J.pieces[r], Bytes(J, k.tx) - k.sent), sendTurn := false)
  }

  lemma SendBytes<E(!new), M>(J: Job<E, M>, r: nat, k: Rank<E, M>)
    requires Valid(J) && r < J.world && k.step < Last(J) && Fits(J, k) && BytesOk(J, r, k)
    requires k.sendTurn && k.sent < Bytes(J, k.tx)
    ensures Fits(J, AfterSend(J, r, k)) && BytesOk(J, r, AfterSend(J, r, k))
  {
    var k' := AfterSend(J, r, k);
    assert TxBytes(J, k') == TxBytes(J, k);
    SuffixOfEqual(TxBytes(J, k), Wire(J, r, k.step), k.sent, k'.sent);
  }

  lemma SuffixOfEqual<T>(a: seq<T>, b: seq<T>, i: nat, j: nat)
    requires i <= j <= |a| == |b| && a[i..] == b[i..]
    ensures a[j..] == b[j..]
    ensures a[i..j] == b[i..j]
  {
    assert a[i..][j - i..] == a[j..] && b[i..][j - i..] == b[j..];
    assert a[i..][..j - i] == a[i..j] && b[i..][..j - i] == b[i..j];
  }

  lemma FutureData<E(!new), M>(J: Job<E, M>, r: nat, t: nat, m: bool, b: nat)
    requires Valid(J) && r < J.world && t < Last(J) && (J.quant ==> m)
    ensures Future(J, r, t, m, b) == Cut(J.ctr, t, Wire(J, r, t), J.pieces[r], b) + Future(J, r, t + 1, false, 0)
  {
  }

  lemma SendPiece<E(!new), M>(J: Job<E, M>, r: nat, k: Rank<E, M>)
    requires Valid(J) && r < J.world && k.step < Last(J) && Fits(J, k) && BytesOk(J, r, k)
    ensures
      var w := Wire(J, r, k.step);
      && k.sent <= AfterSend(J, r, k).sent <= |w|
      && Piece(J, r, k) == Frame(J.ctr, k.step, Data(w[k.sent..AfterSend(J, r, k).sent]))
  {
    SuffixOfEqual(TxBytes(J, k), Wire(J, r, k.step), k.sent, AfterSend(J, r, k).sent);
  }

  lemma SendFuture<E(!new), M>(J: Job<E, M>, r: nat, k: Rank<E, M>)
    requires Valid(J) && r < J.world && k.step < Last(J) && Fits(J, k) && BytesOk(J, r, k)
    requires J.quant ==> k.metaOut
    requires k.sent < Bytes(J, k.tx)
    ensures ToSend(J, r, k) == [Piece(J, r, k)] + ToSend(J, r, AfterSend(J, r, k))
  {
    hide Future, Cut, Wire, Piece, TxBytes;
    var k' := AfterSend(J, r, k);
    SendPiece(J, r, k);
    FutureData(J, r, k.step, k.metaOut, k.sent);
    FutureData(J, r, k.step, k.metaOut, k'.sent);
    CutStep<M>(J.ctr, k.step, Wire(J, r, k.step), J.pieces[r], k.sent, Future(J, r, k.step + 1, false, 0));
  }

  lemma CutStep<M>(ctr: nat, step: nat, w: seq<Byte>, piece: nat, b: nat, rest: seq<Frame<M>>)
    requires piece > 0 && b < |w|
    ensures
      var n := Min(piece, |w| - b);
      Cut(ctr, step, w, piece, b) + rest
      == [Frame(ctr, step, Data(w[b..b + n]))] + (Cut(ctr, step, w, piece, b + n) + rest)
  {
  }

  lemma SendsData<E(!new), M>(J: Job<E, M>, r: nat, k: Rank<E, M>)
    requires Valid(J) && r < J.world && RankOk(J, r, k)
    requires k.step < Last(J) && (J.quant ==> k.metaOut && k.metaIn)
    requires k.sendTurn && k.sent < Bytes(J, k.tx)
    ensures RankOk(J, r, AfterSend(J, r, k))
    ensures ToSend(J, r, k) == [Piece(J, r, k)] + ToSend(J, r, AfterSend(J, r, k))
  {
    SendBytes(J, r, k);
    SendFuture(J, r, k);
  }

  /** How much the next frame from behind will bring. */
  ghost function Incoming<E(!new), M>(J: Job<E, M>, r: nat, k: Rank<E, M>): nat
    requires Valid(J) && r < J.world && Fits(J, k)
  {
    Min(J.pieces[Prev(J.world, r)], Bytes(J, k.rx) - k.recvd)
  }

  /** The next frame is the next piece of the chunk being received. */
  lemma HeadData<E(!new), M>(J: Job<E, M>, r: nat, k: Rank<E, M>, f: Frame<M>)
    requires Valid(J) && r < J.world && k.step < Last(J) && Fits(J, k) && BytesOk(J, r, k)
    requires (J.quant ==> k.metaIn) && k.recvd < Bytes(J, k.rx) && Awaits(J, r, k, f)
    ensures
      var p := Prev(J.world, r);
      var n := Incoming(J, r, k);
      && n > 0 && k.recvd + n <= |Wire(J, p, k.step)|
      && f == Frame(J.ctr, k.step, Data(Wire(J, p, k.step)[k.recvd..k.recvd + n]))
      && ToReceive(J, p, k) == [f] + Future(J, p, k.step, k.metaIn, k.recvd + n)
  {
    hide Future, Cut, Wire, TxBytes;
    var p := Prev(J.world, r);
    FutureData(J, p, k.step, k.metaIn, k.recvd);
    FutureData(J, p, k.step, k.metaIn, k.recvd + Incoming(J, r, k));
    CutStep<M>(J.ctr, k.step, Wire(J, p, k.step), J.pieces[p], k.recvd, Future(J, p, k.step + 1, false, 0));
  }

  /** The rank after `bytes` of the awaited chunk. */
  ghost function AfterTake<E(!new), M>(J: Job<E, M>, k: Rank<E, M>, bytes: seq<Byte>): (k': Rank<E, M>)
    requires Valid(J) && Fits(J, k) && k.recvd + |bytes| <= Bytes(J, k.rx)
    ensures Fits(J, k')
  {
    OnData(J, k, Frame(J.ctr, k.step, Data(bytes)))
  }

  lemma TakenFields<E(!new), M>(J: Job<E, M>, k: Rank<E, M>, bytes: seq<Byte>)
    requires Valid(J) && Fits(J, k) && k.recvd + |bytes| <= Bytes(J, k.rx)
    ensures
      var k' := AfterTake(J, k, bytes);
      && k' == k.(room := Overwrite(k.room, k.recvd, bytes), buf := k.buf[k.rx := k'.buf[k.rx]],
                  recvd := k.recvd + |bytes|, sendTurn := true)
  {
  }

  lemma TakenRoom<E(!new), M>(J: Job<E, M>, r: nat, k: Rank<E, M>, bytes: seq<Byte>)
    requires Valid(J) && r < J.world && k.step < Last(J) && Fits(J, k) && BytesOk(J, r, k)
    requires k.recvd + |bytes| <= Bytes(J, k.rx) && k.tx != k.rx
    requires bytes == Wire(J, Prev(J.world, r), k.step)[k.recvd..k.recvd + |bytes|]
    requires !Overtaken(J, AfterTake(J, k, bytes))
    ensures BytesOk(J, r, AfterTake(J, k, bytes))
  {
    hide Wire, OnData, Overwrite;
    var k' := AfterTake(J, k, bytes);
    TakenFields(J, k, bytes);
    var v := Wire(J, Prev(J.world, r), k.step);
    assert v[..k'.recvd] == v[..k.recvd] + bytes;
    if k.src.FromRoom? {
      var b := Bytes(J, k.tx);
      assert k'.room[..b][k.sent..] == k.room[..b][k.sent..] by {
        if k.sent < b {
          assert k'.room[k.sent..] == k.room[k.sent..];
          Slice(k'.room, k.sent, b);
          Slice(k.room, k.sent, b);
        }
      }
    }
  }

  lemma Slice<T>(a: seq<T>, i: nat, j: nat)
    requires i <= j <= |a|
    ensures a[..j][i..] == a[i..][..j - i]
  {
  }

  lemma TakenChunk<E(!new), M>(J: Job<E, M>, r: nat, k: Rank<E, M>, bytes: seq<Byte>)
    requires Valid(J) && r < J.world && k.step < Last(J) && Fits(J, k)
    requires Chosen(J, r, k) && HeldOk(J, r, k)
    requires k.got == WireMeta(J, Prev(J.world, r), k.step)
    requires k.recvd + |bytes| <= Bytes(J, k.rx) && BytesOk(J, r, AfterTake(J, k, bytes))
    ensures AfterTake(J, k, bytes).buf[k.rx] == Arriving(J, r, k.step, k.recvd + |bytes|)
  {
    hide Wire, WireMeta, ChunkAt, Slots, Absorb, Streamed, Combine, Overwrite;
    var rx, p := k.rx, Prev(J.world, r);
    var v := Wire(J, p, k.step);
    var room := Overwrite(k.room, k.recvd, bytes);
    var now := k.recvd + |bytes|;
    ChunksMatch(J.world, r, k.step);
    RoomCount(J, v[..k.recvd], rx);
    RoomCount(J, v[..now], rx);
    assert room[..now] == v[..now];
    assert room[..k.recvd] == v[..k.recvd] by {
      assert room[..now][..k.recvd] == room[..k.recvd];
      assert v[..now][..k.recvd] == v[..k.recvd];
    }
    AbsorbStep(ChunkAt(J, r, k.step, rx), room, k.recvd, |bytes|, J.q, Combine(J, k.step < J.world - 1, k.got));
  }

  lemma TakenHeld<E(!new), M>(J: Job<E, M>, r: nat, k: Rank<E, M>, bytes: seq<Byte>)
    requires Valid(J) && r < J.world && k.step < Last(J) && Fits(J, k)
    requires HeldOk(J, r, k) && k.recvd + |bytes| <= Bytes(J, k.rx)
    requires AfterTake(J, k, bytes).buf[k.rx] == Arriving(J, r, k.step, k.recvd + |bytes|)
    ensures HeldOk(J, r, AfterTake(J, k, bytes))
  {
    hide Arriving, ChunkAt, OnData, Overwrite;
    TakenFields(J, k, bytes);
  }

  lemma TakesBytes<E(!new), M>(J: Job<E, M>, r: nat, k: Rank<E, M>, bytes: seq<Byte>)
    requires Valid(J) && r < J.world && RankOk(J, r, k)
    requires k.step < Last(J) && (J.quant ==> k.metaOut && k.metaIn)
    requires k.recvd + |bytes| <= Bytes(J, k.rx) && !Overtaken(J, AfterTake(J, k, bytes))
    requires k.recvd + |bytes| <= |Wire(J, Prev(J.world, r), k.step)|
    requires bytes == Wire(J, Prev(J.world, r), k.step)[k.recvd..k.recvd + |bytes|]
    ensures RankOk(J, r, AfterTake(J, k, bytes))
  {
    hide Wire, Arriving, ChunkAt, OnData, Overwrite, TxBytes, HeldOk;
    ChunksMatch(J.world, r, k.step);
    TakenFields(J, k, bytes);
    TakenRoom(J, r, k, bytes);
    TakenChunk(J, r, k, bytes);
    TakenHeld(J, r, k, bytes);
  }

  lemma TakesData<E(!new), M>(J: Job<E, M>, r: nat, k: Rank<E, M>, f: Frame<M>)
    requires Valid(J) && r < J.world && RankOk(J, r, k)
    requires k.step < Last(J) && (J.quant ==> k.metaOut && k.metaIn) && Awaits(J, r, k, f)
    requires k.recvd < Bytes(J, k.rx)
    ensures f.step == k.step && (!Overtaken(J, OnData(J, k, f)) ==> RankOk(J, r, OnData(J, k, f)))
    ensures ToSend(J, r, OnData(J, k, f)) == ToSend(J, r, k)
    ensures
      var p := Prev(J.world, r);
      ToReceive(J, p, k) == [f] + ToReceive(J, p, OnData(J, k, f))
  {
    hide Wire, Future, OnData, Overwrite, BytesOk, HeldOk, Fits;
    HeadData(J, r, k, f);
    TakenFields(J, k, f.body.bytes);
    if !Overtaken(J, OnData(J, k, f)) { TakesBytes(J, r, k, f.body.bytes); }
  }

  lemma FlipsTurn<E(!new), M>(J: Job<E, M>, r: nat, k: Rank<E, M>)
    requires Valid(J) && r < J.world && RankOk(J, r, k)
    requires k.step < Last(J) && (J.quant ==> k.metaIn)
    ensures RankOk(J, r, k.(sendTurn := true))
  {
    hide Wire, WireMeta, Arriving, ChunkAt, TxBytes;
    var k' := k.(sendTurn := true);
    assert TxBytes(J, k') == TxBytes(J, k) by { SameTxBytes(J, k, k'); }
  }

  lemma SameTxBytes<E(!new), M>(J: Job<E, M>, k: Rank<E, M>, k': Rank<E, M>)
    requires Valid(J) && Fits(J, k) && Fits(J, k')
    requires k'.src == k.src && k'.room == k.room && k'.tx == k.tx && k'.buf == k.buf
    ensures TxBytes(J, k') == TxBytes(J, k)
  {
  }

  // Entering a step ---------------------------------------------------------------------------------

  /** The buffer a rank enters step `t` with; a rank enters the second phase owning one finished chunk. */
  ghost predicate Ready<E(!new), M>(J: Job<E, M>, r: nat, t: nat, buf: seq<seq<E>>)
    requires Valid(J) && r < J.world && t <= Last(J)
  {
    && |buf| == J.world
    && forall c :: 0 <= c < J.world ==> buf[c] == Entering(J, r, t, c)
  }

  ghost function Entering<E(!new), M>(J: Job<E, M>, r: nat, t: nat, c: nat): (v: seq<E>)
    requires Valid(J) && r < J.world && t <= Last(J) && c < J.world
    ensures |v| == J.sizes[c]
  {
    if t == J.world - 1 && c == TxChunk(J.world, r, t) then Full(J, c) else ChunkAt(J, r, t, c)
  }

  lemma EnterBuffer<E(!new), M>(J: Job<E, M>, r: nat, t: nat, buf: seq<seq<E>>, room: seq<Byte>, prevMeta: M, prevRx: nat)
    requires Valid(J) && r < J.world && t <= Last(J) && prevRx < J.world && |room| == J.room
    requires Ready(J, r, t, buf)
    requires t >= J.world && t < Last(J) ==> prevRx == RxChunk(J.world, r, t - 1)
    ensures Enter(J, r, t, buf, room, prevMeta, prevRx).buf == BufferAt(J, r, t)
  {
    hide ChunkAt, Full, Final, ChooseTx, ChooseRx, Back;
    var k := Enter(J, r, t, buf, room, prevMeta, prevRx);
    if t < Last(J) { ChosenChunks(J.world, r, t, prevRx); }
    if t == J.world - 1 {
      OwnerReplaces(J, r);
      FinalIs(J, TxChunk(J.world, r, t));
    }
    assert forall c :: 0 <= c < J.world ==> k.buf[c] == ChunkAt(J, r, t, c);
  }

  lemma FinalIs<E(!new), M>(J: Job<E, M>, c: nat)
    requires Valid(J) && c < J.world
    ensures Final(J, c) == if J.quant then Received(J, Full(J, c)) else Full(J, c)
  {
  }

  /** What a rank forwards in the second phase is what it received in the step before. */
  ghost predicate Forwards<E(!new), M>(J: Job<E, M>, r: nat, t: nat, room: seq<Byte>, meta: M)
    requires Valid(J) && r < J.world && t < Last(J) && |room| == J.room
  {
    J.quant && t >= J.world ==>
      meta == WireMeta(J, r, t) && room[..Bytes(J, TxChunk(J.world, r, t))] == Wire(J, r, t)
  }

  lemma EnteringSent<E(!new), M>(J: Job<E, M>, r: nat, t: nat)
    requires Valid(J) && r < J.world && t < Last(J)
    ensures t <= J.world - 1 || !J.quant ==> Entering(J, r, t, TxChunk(J.world, r, t)) == Sent(J, r, t)
  {
    hide Partial, ChunkAt;
    SentIsHeld(J, r, t);
  }

  lemma EnterChosen<E(!new), M>(J: Job<E, M>, r: nat, t: nat, buf: seq<seq<E>>, room: seq<Byte>, prevMeta: M, prevRx: nat)
    requires Valid(J) && r < J.world && t < Last(J) && prevRx < J.world && |room| == J.room
    requires Ready(J, r, t, buf) && Forwards(J, r, t, room, prevMeta)
    requires t >= J.world ==> prevRx == RxChunk(J.world, r, t - 1)
    ensures Chosen(J, r, Enter(J, r, t, buf, room, prevMeta, prevRx))
  {
    hide Entering, Sent, Received, ChooseTx, ChooseRx, Back, PackLaws;
    ChosenChunks(J.world, r, t, prevRx);
    EnteringSent(J, r, t);
  }

  lemma EnterBytes<E(!new), M>(J: Job<E, M>, r: nat, t: nat, buf: seq<seq<E>>, room: seq<Byte>, prevMeta: M, prevRx: nat)
    requires Valid(J) && r < J.world && t < Last(J) && prevRx < J.world && |room| == J.room
    requires Ready(J, r, t, buf) && Forwards(J, r, t, room, prevMeta)
    requires Chosen(J, r, Enter(J, r, t, buf, room, prevMeta, prevRx))
    ensures BytesOk(J, r, Enter(J, r, t, buf, room, prevMeta, prevRx))
  {
    hide Entering, Sent, Received, ChooseTx, ChooseRx, Back, PackLaws;
    var k := Enter(J, r, t, buf, room, prevMeta, prevRx);
    ChunksMatch(J.world, r, t);
    EnteringSent(J, r, t);
    assert TxBytes(J, k) == Wire(J, r, t);
  }

  lemma ArrivingNone<E(!new), M>(J: Job<E, M>, r: nat, t: nat)
    requires Valid(J) && r < J.world && t < Last(J)
    ensures Arriving(J, r, t, 0) == ChunkAt(J, r, t, RxChunk(J.world, r, t))
  {
    hide ChunkAt, Wire, WireMeta, RxChunk, TxChunk;
    assert Wire(J, Prev(J.world, r), t)[..0] == [];
  }

  lemma EnterOk<E(!new), M>(J: Job<E, M>, r: nat, t: nat, buf: seq<seq<E>>, room: seq<Byte>, prevMeta: M, prevRx: nat)
    requires Valid(J) && r < J.world && t <= Last(J) && prevRx < J.world && |room| == J.room
    requires Ready(J, r, t, buf) && (t < Last(J) ==> Forwards(J, r, t, room, prevMeta))
    requires t >= J.world && t < Last(J) ==> prevRx == RxChunk(J.world, r, t - 1)
    ensures RankOk(J, r, Enter(J, r, t, buf, room, prevMeta, prevRx))
  {
    hide ChunkAt, Wire, WireMeta, Arriving, Received, TxBytes, ChooseTx, ChooseRx, BytesOk, PackLaws;
    EnterBuffer(J, r, t, buf, room, prevMeta, prevRx);
    if t < Last(J) {
      EnterChosen(J, r, t, buf, room, prevMeta, prevRx);
      EnterBytes(J, r, t, buf, room, prevMeta, prevRx);
      ArrivingNone(J, r, t);
    }
  }

  /** All bytes of the step are sent and received. */
  ghost predicate StepDone<E(!new), M>(J: Job<E, M>, k: Rank<E, M>)
    requires Valid(J) && Fits(J, k)
  {
    && k.step < Last(J) && (J.quant ==> k.metaOut && k.metaIn)
    && k.sent == Bytes(J, k.tx) && k.recvd == Bytes(J, k.rx)
  }

  lemma ArrivingAll<E(!new), M>(J: Job<E, M>, r: nat, t: nat, n: nat)
    requires Valid(J) && r < J.world && t < Last(J) && n == |Wire(J, Prev(J.world, r), t)|
    ensures Arriving(J, r, t, n) == Absorbed(J, r, t)
  {
    hide ChunkAt, Wire, WireMeta, RxChunk, TxChunk, Slots, Streamed, Combine;
    var w := Wire(J, Prev(J.world, r), t);
    assert w[..n] == w;
  }

  /** The absorbed chunk is what the next step starts with. */
  lemma AbsorbedEnters<E(!new), M>(J: Job<E, M>, r: nat, t: nat)
    requires Valid(J) && r < J.world && t < Last(J)
    ensures Absorbed(J, r, t) == Entering(J, r, t + 1, RxChunk(J.world, r, t))
  {
    hide Absorbed, ChunkAt, Full;
    if t < J.world - 2 {
      ReduceArrives(J, r, t);
    } else if t == J.world - 2 {
      OwnerArrives(J, r);
      OwnerReplaces(J, r);
    } else {
      CopyArrives(J, r, t);
    }
  }

  lemma OthersEnter<E(!new), M>(J: Job<E, M>, r: nat, t: nat, c: nat)
    requires Valid(J) && r < J.world && t < Last(J) && c < J.world && c != RxChunk(J.world, r, t)
    ensures Entering(J, r, t + 1, c) == ChunkAt(J, r, t, c)
  {
    hide ChunkAt, Full;
    ChunkStable(J, r, t, c);
    if t == J.world - 2 { OwnerReplaces(J, r); }
  }

  lemma StepReady<E(!new), M>(J: Job<E, M>, r: nat, k: Rank<E, M>)
    requires Valid(J) && r < J.world && RankOk(J, r, k) && StepDone(J, k)
    ensures Ready(J, r, k.step + 1, k.buf)
  {
    hide ChunkAt, Wire, WireMeta, Arriving, Absorbed, TxBytes, Entering, PackLaws, RxChunk, TxChunk;
    ArrivingAll(J, r, k.step, k.recvd);
    AbsorbedEnters(J, r, k.step);
    forall c | 0 <= c < J.world && c != k.rx
      ensures Entering(J, r, k.step + 1, c) == ChunkAt(J, r, k.step, c)
    {
      OthersEnter(J, r, k.step, c);
    }
  }

  lemma ForwardedSent<E(!new), M>(J: Job<E, M>, r: nat, t: nat)
    requires Valid(J) && r < J.world && J.world - 1 <= t < Last(J) - 1
    ensures Sent(J, r, t + 1) == Sent(J, Prev(J.world, r), t)
    ensures TxChunk(J.world, r, t + 1) == RxChunk(J.world, r, t)
  {
    hide Full;
    ChunksMatch(J.world, r, t);
  }

  lemma StepForwards<E(!new), M>(J: Job<E, M>, r: nat, k: Rank<E, M>)
    requires Valid(J) && r < J.world && RankOk(J, r, k) && StepDone(J, k) && k.step + 1 < Last(J)
    ensures Forwards(J, r, k.step + 1, k.room, k.got)
  {
    hide ChunkAt, Sent, Arriving, TxBytes, HeldOk, PackLaws, RxChunk, TxChunk;
    if J.quant && k.step + 1 >= J.world {
      ForwardedSent(J, r, k.step);
      var v := Wire(J, Prev(J.world, r), k.step);
      assert v[..k.recvd] == v;
    }
  }

  lemma FutureDone<E(!new), M>(J: Job<E, M>, r: nat, t: nat, m: bool, b: nat)
    requires Valid(J) && r < J.world && t < Last(J) && (J.quant ==> m) && b == |Wire(J, r, t)|
    ensures Future(J, r, t, m, b) == Future(J, r, t + 1, false, 0)
  {
    hide Future, Wire;
    FutureData(J, r, t, m, b);
  }

  ghost function AfterStep<E(!new), M>(J: Job<E, M>, r: nat, k: Rank<E, M>): Rank<E, M>
    requires Valid(J) && r < J.world && Fits(J, k)
  {
    Enter(J, r, k.step + 1, k.buf, k.room, k.got, k.rx)
  }

  lemma AdvancesOk<E(!new), M>(J: Job<E, M>, r: nat, k: Rank<E, M>)
    requires Valid(J) && r < J.world && RankOk(J, r, k) && StepDone(J, k)
    ensures RankOk(J, r, AfterStep(J, r, k))
  {
    hide MetaOk, BytesOk, HeldOk, PackLaws, Forwards, Ready;
    StepReady(J, r, k);
    if k.step + 1 < Last(J) { StepForwards(J, r, k); }
    EnterOk(J, r, k.step + 1, k.buf, k.room, k.got, k.rx);
  }

  lemma AdvancesFrames<E(!new), M>(J: Job<E, M>, r: nat, k: Rank<E, M>)
    requires Valid(J) && r < J.world && Fits(J, k) && StepDone(J, k)
    requires Bytes(J, k.tx) == |Wire(J, r, k.step)| && Bytes(J, k.rx) == |Wire(J, Prev(J.world, r), k.step)|
    ensures ToSend(J, r, AfterStep(J, r, k)) == ToSend(J, r, k)
    ensures ToReceive(J, Prev(J.world, r), AfterStep(J, r, k)) == ToReceive(J, Prev(J.world, r), k)
  {
    hide Wire, Enter, PackLaws, Future;
    FutureDone(J, r, k.step, k.metaOut, k.sent);
    FutureDone(J, Prev(J.world, r), k.step, k.metaIn, k.recvd);
  }

  lemma Advances<E(!new), M>(J: Job<E, M>, r: nat, k: Rank<E, M>)
    requires Valid(J) && r < J.world && RankOk(J, r, k) && StepDone(J, k)
    ensures RankOk(J, r, AfterStep(J, r, k))
    ensures ToSend(J, r, AfterStep(J, r, k)) == ToSend(J, r, k)
    ensures ToReceive(J, Prev(J.world, r), AfterStep(J, r, k)) == ToReceive(J, Prev(J.world, r), k)
  {
    hide Chosen, MetaOk, BytesOk, HeldOk, Wire, Enter, PackLaws, Future, ToSend, ToReceive;
    AdvancesOk(J, r, k);
    RankBytes(J, r, k);
    AdvancesFrames(J, r, k);
  }

  lemma RankBytes<E(!new), M>(J: Job<E, M>, r: nat, k: Rank<E, M>)
    requires Valid(J) && r < J.world && RankOk(J, r, k) && k.step < Last(J)
    ensures Bytes(J, k.tx) == |Wire(J, r, k.step)| && Bytes(J, k.rx) == |Wire(J, Prev(J.world, r), k.step)|
  {
    hide Wire, HeldOk, MetaOk, Chosen, PackLaws;
  }

  // Moves of the ring -------------------------------------------------------------------------------

  lemma PutKeeps<E(!new), M>(J: Job<E, M>, s: Net<E, M>, r: nat, k: Rank<E, M>, f: Frame<M>)
    requires Valid(J) && Inv(J, s) && r < J.world && f.ctr == J.ctr
    requires RankOk(J, r, k) && ToSend(J, r, s.ranks[r]) == [f] + ToSend(J, r, k)
    requires ToReceive(J, Prev(J.world, r), k) == ToReceive(J, Prev(J.world, r), s.ranks[r])
    ensures Inv(J, Put(s, r, k, f))
  {
    hide RankOk, ToSend, ToReceive, Live;
    var n, p := Next(J.world, r), Prev(J.world, r);
    assert LinkPred(J)(r, s.links[r], s.ranks[r], s.ranks[n]);
    assert LinkPred(J)(p, s.links[p], s.ranks[p], s.ranks[Next(J.world, p)]);
    LinkPush(J, r, s.links[r], s.ranks[r], k, s.ranks[n], f);
    InvStep(J, s, Put(s, r, k, f), r);
  }

  lemma PopKeeps<E(!new), M>(J: Job<E, M>, s: Net<E, M>, r: nat, k: Rank<E, M>)
    requires Valid(J) && Inv(J, s) && r < J.world
    requires RankOk(J, r, k) && ToSend(J, r, s.ranks[r]) == ToSend(J, r, k)
    requires
      var p := Prev(J.world, r);
      var link := s.links[p];
      && link != []
      && if link[0].ctr == J.ctr then ToReceive(J, p, s.ranks[r]) == [link[0]] + ToReceive(J, p, k)
         else ToReceive(J, p, s.ranks[r]) == ToReceive(J, p, k)
    ensures Inv(J, Pop(s, r, Prev(J.world, r), k))
  {
    hide RankOk, ToSend, ToReceive;
    var n, p := Next(J.world, r), Prev(J.world, r);
    assert LinkPred(J)(r, s.links[r], s.ranks[r], s.ranks[n]);
    assert LinkPred(J)(p, s.links[p], s.ranks[p], s.ranks[Next(J.world, p)]);
    if s.links[p][0].ctr == J.ctr { LinkPop(J, p, s.links[p], s.ranks[p], s.ranks[r], k); }
    InvStep(J, s, Pop(s, r, p, k), r);
  }

  lemma MoveKeeps<E(!new), M>(J: Job<E, M>, s: Net<E, M>, r: nat, k: Rank<E, M>)
    requires Valid(J) && Inv(J, s) && r < J.world
    requires RankOk(J, r, k) && ToSend(J, r, s.ranks[r]) == ToSend(J, r, k)
    requires ToReceive(J, Prev(J.world, r), k) == ToReceive(J, Prev(J.world, r), s.ranks[r])
    ensures Inv(J, Move(s, r, k))
  {
    hide RankOk, ToSend, ToReceive, Live;
    var n, p := Next(J.world, r), Prev(J.world, r);
    assert LinkPred(J)(r, s.links[r], s.ranks[r], s.ranks[n]);
    assert LinkPred(J)(p, s.links[p], s.ranks[p], s.ranks[Next(J.world, p)]);
    InvStep(J, s, Move(s, r, k), r);
  }

  lemma InvShaped<E(!new), M>(J: Job<E, M>, s: Net<E, M>)
    requires Valid(J) && Inv(J, s)
    ensures Shaped(J, s)
    ensures forall r :: 0 <= r < J.world ==> RankOk(J, r, s.ranks[r])
    ensures forall p :: 0 <= p < J.world ==> LinkOk(J, p, s.links[p], s.ranks[p], s.ranks[Next(J.world, p)])
  {
    hide Fits, Chosen, MetaOk, BytesOk, HeldOk, LinkOk;
    assert forall r :: 0 <= r < J.world ==> RankPred(J)(r, s.ranks[r]);
    assert forall p :: 0 <= p < J.world ==> LinkPred(J)(p, s.links[p], s.ranks[p], s.ranks[Next(J.world, p)]);
  }

  lemma Awaited<E(!new), M>(J: Job<E, M>, s: Net<E, M>, r: nat)
    requires Valid(J) && Inv(J, s) && r < J.world
    requires s.links[Prev(J.world, r)] != [] && s.links[Prev(J.world, r)][0].ctr == J.ctr
    ensures Awaits(J, r, s.ranks[r], s.links[Prev(J.world, r)][0])
  {
    hide Shaped, RankOk, LinkOk, ToReceive, Live, ToSend;
    InvShaped(J, s);
    var p := Prev(J.world, r);
    LinkHead(J, p, s.links[p], s.ranks[p], s.ranks[r]);
  }

  lemma ExchangeInv<E(!new), M>(J: Job<E, M>, s: Net<E, M>, r: nat)
    requires Valid(J) && Inv(J, s) && Shaped(J, s) && r < J.world && RankOk(J, r, s.ranks[r])
    requires s.ranks[r].step < Last(J) && (J.quant ==> s.ranks[r].metaOut && s.ranks[r].metaIn)
    requires !Overtaken(J, Exchange(J, s, r).ranks[r])
    ensures Inv(J, Exchange(J, s, r))
  {
    hide Inv, Enter, OnData, TxBytes, Future, RankOk, PackLaws, Overtaken;
    var k, p := s.ranks[r], Prev(J.world, r);
    if k.sendTurn && k.sent < Bytes(J, k.tx) {
      SendsData(J, r, k);
      PutKeeps(J, s, r, AfterSend(J, r, k), Piece(J, r, k));
    } else if k.recvd < Bytes(J, k.rx) {
      FlipsTurn(J, r, k);
      if s.links[p] == [] {
        MoveKeeps(J, s, r, k.(sendTurn := true));
      } else {
        Receives(J, s, r);
      }
    } else if k.sent < Bytes(J, k.tx) {
      FlipsTurn(J, r, k);
      MoveKeeps(J, s, r, k.(sendTurn := true));
    } else {
      Advances(J, r, k);
      MoveKeeps(J, s, r, AfterStep(J, r, k));
    }
  }

  lemma Receives<E(!new), M>(J: Job<E, M>, s: Net<E, M>, r: nat)
    requires Valid(J) && Inv(J, s) && Shaped(J, s) && r < J.world && RankOk(J, r, s.ranks[r])
    requires s.ranks[r].step < Last(J) && (J.quant ==> s.ranks[r].metaOut && s.ranks[r].metaIn)
    requires s.ranks[r].recvd < Bytes(J, s.ranks[r].rx)
    requires s.links[Prev(J.world, r)] != []
    requires !Overtaken(J, OnData(J, s.ranks[r], s.links[Prev(J.world, r)][0]))
    ensures Inv(J, Pop(s, r, Prev(J.world, r), OnData(J, s.ranks[r], s.links[Prev(J.world, r)][0])))
  {
    hide Inv, BytesOk, HeldOk, MetaOk, Chosen, PackLaws, Future, Awaits, Overwrite, Absorb;
    var k, f := s.ranks[r], s.links[Prev(J.world, r)][0];
    if f.ctr == J.ctr {
      Awaited(J, s, r);
      TakesData(J, r, k, f);
    }
    PopKeeps(J, s, r, OnData(J, k, f));
  }

  lemma ReceivesMeta<E(!new), M>(J: Job<E, M>, s: Net<E, M>, r: nat)
    requires Valid(J) && Inv(J, s) && Shaped(J, s) && r < J.world && RankOk(J, r, s.ranks[r])
    requires s.ranks[r].step < Last(J) && J.quant && s.ranks[r].metaOut && !s.ranks[r].metaIn
    requires s.links[Prev(J.world, r)] != []
    ensures Inv(J, Pop(s, r, Prev(J.world, r), OnMeta(J, s.ranks[r], s.links[Prev(J.world, r)][0])))
  {
    hide Inv, BytesOk, HeldOk, MetaOk, Chosen, PackLaws, Future, Awaits;
    var k, f := s.ranks[r], s.links[Prev(J.world, r)][0];
    if f.ctr == J.ctr {
      Awaited(J, s, r);
      TakesMeta(J, r, k, f);
    }
    PopKeeps(J, s, r, OnMeta(J, k, f));
  }

  /** A move that does not receive over unsent bytes keeps the invariant. */
  lemma ActInv<E(!new), M>(J: Job<E, M>, s: Net<E, M>, r: nat)
    requires Valid(J) && Inv(J, s) && Shaped(J, s) && r < J.world
    requires !Overtaken(J, Act(J, s, r).ranks[r])
    ensures Inv(J, Act(J, s, r))
  {
    hide Inv, Exchange, OnMeta, Future, BytesOk, HeldOk, MetaOk, Chosen, PackLaws, Fits;
    InvShaped(J, s);
    var k, p := s.ranks[r], Prev(J.world, r);
    if k.step < Last(J) {
      if J.quant && !k.metaOut {
        SendsMeta(J, r, k);
        PutKeeps(J, s, r, k.(metaOut := true), Frame(J.ctr, k.step, Meta(k.meta)));
      } else if J.quant && !k.metaIn {
        if s.links[p] != [] { ReceivesMeta(J, s, r); }
      } else {
        ExchangeInv(J, s, r);
      }
    }
  }

  lemma {:induction false} NoneLive<M>(ctr: nat, link: seq<Frame<M>>)
    requires forall i :: 0 <= i < |link| ==> link[i].ctr != ctr
    ensures Live(ctr, link) == []
    decreases |link|
  {
    if link != [] { NoneLive(ctr, link[1..]); }
  }

  lemma InitReady<E(!new), M>(J: Job<E, M>, r: nat)
    requires Valid(J) && r < J.world
    ensures Ready(J, r, 0, J.input[r])
  {
  }

  lemma InitInv<E(!new), M>(J: Job<E, M>, s: Net<E, M>)
    requires Valid(J) && Init(J, s)
    ensures Inv(J, s)
  {
    hide Ready, RankOk, Future, ChooseTx, ChooseRx, Received;
    forall r | 0 <= r < J.world
      ensures RankPred(J)(r, s.ranks[r])
    {
      InitReady(J, r);
      EnterOk(J, r, 0, J.input[r], s.ranks[r].room, J.noMeta, 0);
    }
    forall p | 0 <= p < J.world
      ensures LinkPred(J)(p, s.links[p], s.ranks[p], s.ranks[Next(J.world, p)])
    {
      NoneLive(J.ctr, s.links[p]);
    }
  }

  // Nobody is overtaken -----------------------------------------------------------------------------

  /** A rank that forwards is ahead of what it receives by one piece whenever it is its turn to receive, unless it has
      sent everything, or has sent more than it will ever receive. */
  ghost predicate Paced<E(!new), M>(J: Job<E, M>, r: nat, k: Rank<E, M>)
    requires Valid(J) && r < J.world && Fits(J, k)
  {
    k.src.FromRoom? ==>
      || k.sent == Bytes(J, k.tx)
      || k.recvd + (if k.sendTurn then 0 else J.pieces[r]) <= k.sent
      || Bytes(J, k.rx) <= J.pieces[r] <= k.sent
  }

  lemma PacedAhead<E(!new), M>(J: Job<E, M>, r: nat, k: Rank<E, M>)
    requires Valid(J) && r < J.world && Fits(J, k) && Paced(J, r, k)
    ensures !Overtaken(J, k)
  {
  }

  /** A forwarding step has sizes that meet the condition. */
  lemma ForwardingMeets<E(!new), M>(J: Job<E, M>, r: nat, k: Rank<E, M>)
    requires Valid(J) && Safe(J) && r < J.world && k.step < Last(J) && Chosen(J, r, k) && k.src.FromRoom?
    ensures k.tx == TxChunk(J.world, r, k.step) && k.rx == RxChunk(J.world, r, k.step) && Meets(J, r, k.step)
  {
    hide PackLaws, Wire, WireMeta;
  }

  lemma TakesPaced<E(!new), M>(J: Job<E, M>, r: nat, k: Rank<E, M>, f: Frame<M>)
    requires Valid(J) && Safe(J) && r < J.world && RankOk(J, r, k) && Paced(J, r, k)
    requires k.step < Last(J) && (J.quant ==> k.metaOut && k.metaIn) && Awaits(J, r, k, f)
    requires k.recvd < Bytes(J, k.rx) && (!k.sendTurn || k.sent == Bytes(J, k.tx))
    ensures Paced(J, r, OnData(J, k, f))
  {
    hide Wire, Future, OnData, Overwrite, BytesOk, HeldOk, PackLaws, Safe;
    HeadData(J, r, k, f);
    TakenFields(J, k, f.body.bytes);
    if k.src.FromRoom? { ForwardingMeets(J, r, k); }
  }

  lemma ReceivesPaced<E(!new), M>(J: Job<E, M>, s: Net<E, M>, r: nat)
    requires Valid(J) && Safe(J) && Inv(J, s) && Shaped(J, s) && r < J.world && Paced(J, r, s.ranks[r])
    requires s.ranks[r].step < Last(J) && (J.quant ==> s.ranks[r].metaOut && s.ranks[r].metaIn)
    requires s.ranks[r].recvd < Bytes(J, s.ranks[r].rx)
    requires !s.ranks[r].sendTurn || s.ranks[r].sent == Bytes(J, s.ranks[r].tx)
    requires s.links[Prev(J.world, r)] != []
    ensures Paced(J, r, OnData(J, s.ranks[r], s.links[Prev(J.world, r)][0]))
  {
    hide Inv, OnData, PackLaws, Awaits, Safe, Paced, Fits, RankOk;
    InvShaped(J, s);
    var k, f := s.ranks[r], s.links[Prev(J.world, r)][0];
    StaleData(J, k, f);
    if f.ctr == J.ctr {
      Awaited(J, s, r);
      TakesPaced(J, r, k, f);
    }
  }

  lemma ActPaced<E(!new), M>(J: Job<E, M>, s: Net<E, M>, r: nat)
    requires Valid(J) && Safe(J) && Inv(J, s) && Shaped(J, s) && r < J.world && Paced(J, r, s.ranks[r])
    ensures Paced(J, r, Act(J, s, r).ranks[r])
  {
    hide Inv, OnData, TxBytes, PackLaws, Safe, Piece, Enter;
    var k, p := s.ranks[r], Prev(J.world, r);
    if k.step < Last(J) && (J.quant ==> k.metaOut && k.metaIn) {
      if (!k.sendTurn || k.sent == Bytes(J, k.tx)) && k.recvd < Bytes(J, k.rx) && s.links[p] != [] {
        ReceivesPaced(J, s, r);
      }
    }
  }

  lemma StaleData<E(!new), M>(J: Job<E, M>, k: Rank<E, M>, f: Frame<M>)
    requires Valid(J) && Fits(J, k)
    ensures f.ctr != J.ctr ==> OnData(J, k, f) == k
  {
  }

  ghost predicate Calm<E(!new), M>(J: Job<E, M>, s: Net<E, M>)
    requires Valid(J)
  {
    Inv(J, s) && Shaped(J, s) && forall r :: 0 <= r < J.world ==> Paced(J, r, s.ranks[r])
  }

  lemma ActCalm<E(!new), M>(J: Job<E, M>, s: Net<E, M>, r: nat)
    requires Valid(J) && Safe(J) && Calm(J, s) && r < J.world
    ensures Calm(J, Act(J, s, r))
  {
    hide Inv, Safe, Act, PackLaws, Fits, Paced;
    ActPaced(J, s, r);
    PacedAhead(J, r, Act(J, s, r).ranks[r]);
    ActInv(J, s, r);
    ActOthers(J, s, r);
  }

  lemma ActOthers<E(!new), M>(J: Job<E, M>, s: Net<E, M>, r: nat)
    requires Valid(J) && Shaped(J, s) && r < J.world
    ensures Act(J, s, r).ranks == s.ranks[r := Act(J, s, r).ranks[r]]
  {
    hide OnData, OnMeta, Enter, Piece, PackLaws, Fits;
  }

  lemma InitCalm<E(!new), M>(J: Job<E, M>, s: Net<E, M>)
    requires Valid(J) && Init(J, s)
    ensures Calm(J, s)
  {
    hide Inv, PackLaws, Enter;
    InitInv(J, s);
    InvShaped(J, s);
  }

  /** Every state of every run. */
  lemma {:induction false} RunInv<E(!new), M>(J: Job<E, M>, s: Net<E, M>, schedule: seq<nat>)
    requires Valid(J) && Safe(J) && Shaped(J, s) && Calm(J, s)
    requires forall i :: 0 <= i < |schedule| ==> schedule[i] < J.world
    ensures Calm(J, Run(J, s, schedule))
    decreases |schedule|
  {
    hide Calm, Shaped, Act, Safe;
    if schedule != [] {
      var before := schedule[..|schedule| - 1];
      RunInv(J, s, before);
      ActCalm(J, Run(J, s, before), schedule[|schedule| - 1]);
    }
  }
}
