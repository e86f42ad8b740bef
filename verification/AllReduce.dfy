/** What an all-reduce guarantees, for every input, every piece size and every interleaving of the ranks. */
module AllReduce {
  import opened Streaming
  import opened RingSpec
  import opened Ring
  import opened RingProof
  import opened RingProgress
  import Chunks

  // Every run ---------------------------------------------------------------------------------------

  lemma Reachable<E(!new), M>(J: Job<E, M>, s: Net<E, M>, schedule: seq<nat>)
    requires Valid(J) && Safe(J) && Init(J, s) && Legal(J, schedule)
    ensures Shaped(J, s) && Shaped(J, Run(J, s, schedule)) && Inv(J, Run(J, s, schedule))
  {
    hide Inv, Act, Fits, PackLaws, Init, Paced, Safe;
    InitCalm(J, s);
    RunInv(J, s, schedule);
  }

  /** A rank that finished holds the final value of every chunk, so all ranks that finished agree. */
  lemma Agreement<E(!new), M>(J: Job<E, M>, s: Net<E, M>, schedule: seq<nat>, r: nat)
    requires Valid(J) && Safe(J) && Init(J, s) && Legal(J, schedule) && r < J.world
    ensures Shaped(J, s)
    ensures
      var k := Run(J, s, schedule).ranks[r];
      && !k.failed && k.step <= Last(J)
      && (k.step == Last(J) ==>
            k.buf == seq(J.world, c requires 0 <= c < J.world => Final(J, c)))
  {
    hide Inv, Act, Fits, PackLaws, Init, Chosen, MetaOk, BytesOk, HeldOk, ChunkAt, Final;
    Reachable(J, s, schedule);
    var s' := Run(J, s, schedule);
    InvShaped(J, s');
    FinishedBuffer(J, r);
    assert BufferAt(J, r, Last(J)) == seq(J.world, c requires 0 <= c < J.world => Final(J, c));
  }

  /** Bytes that are not yet on the wire are still what the step set out to send, also while the next chunk is
      being received into the same buffer. */
  lemma UnsentIntact<E(!new), M>(J: Job<E, M>, s: Net<E, M>, schedule: seq<nat>, r: nat)
    requires Valid(J) && Safe(J) && Init(J, s) && Legal(J, schedule) && r < J.world
    ensures Shaped(J, s)
    ensures
      var k := Run(J, s, schedule).ranks[r];
      k.step < Last(J) ==>
        && k.sent <= |Wire(J, r, k.step)| == |TxBytes(J, k)|
        && TxBytes(J, k)[k.sent..] == Wire(J, r, k.step)[k.sent..]
  {
    hide Inv, Act, PackLaws, Init, Chosen, MetaOk, HeldOk, ChunkAt, Wire, TxBytes;
    Reachable(J, s, schedule);
    InvShaped(J, Run(J, s, schedule));
  }

  /** A rank never consumes a frame of this operation outside the step the frame was sent for, although frames
      do not say which step they belong to. */
  lemma ConsumedInOwnStep<E(!new), M>(J: Job<E, M>, s: Net<E, M>, schedule: seq<nat>, r: nat)
    requires Valid(J) && Safe(J) && Init(J, s) && Legal(J, schedule) && r < J.world
    ensures Shaped(J, s)
    ensures
      var s' := Run(J, s, schedule);
      var link := s'.links[Prev(J.world, r)];
      link != [] && link[0].ctr == J.ctr && Act(J, s', r).links[Prev(J.world, r)] == link[1..] ==>
        link[0].step == s'.ranks[r].step
  {
    hide Inv, PackLaws, Init;
    Reachable(J, s, schedule);
    var s', p := Run(J, s, schedule), Prev(J.world, r);
    var link := s'.links[p];
    if link != [] && link[0].ctr == J.ctr && Act(J, s', r).links[p] == link[1..] {
      PoppedInStep(J, s', r);
    }
  }

  lemma PoppedInStep<E(!new), M>(J: Job<E, M>, s: Net<E, M>, r: nat)
    requires Valid(J) && Inv(J, s) && Shaped(J, s) && r < J.world
    requires s.links[Prev(J.world, r)] != [] && s.links[Prev(J.world, r)][0].ctr == J.ctr
    requires Act(J, s, r).links[Prev(J.world, r)] == s.links[Prev(J.world, r)][1..]
    ensures s.links[Prev(J.world, r)][0].step == s.ranks[r].step
  {
    hide Inv, PackLaws, Chosen, MetaOk, BytesOk, HeldOk, OnData, OnMeta, Piece, Enter, Future;
    InvShaped(J, s);
    Awaited(J, s, r);
    var p, k := Prev(J.world, r), s.ranks[r];
    var link := s.links[p];
    assert |link[1..]| != |link|;
    if J.quant && !k.metaIn {
      TakesMeta(J, r, k, link[0]);
    } else {
      TakesData(J, r, k, link[0]);
    }
  }

  /** Liveness and correctness together. */
  lemma AllReduceFinishes<E(!new), M>(J: Job<E, M>, s: Net<E, M>, rounds: seq<seq<nat>>)
    requires Valid(J) && Safe(J) && Init(J, s)
    requires forall i :: 0 <= i < |rounds| ==> Round(J, rounds[i])
    requires |rounds| >= Measure(J, s)
    ensures Shaped(J, s) && Legal(J, Flat(rounds))
    ensures forall r :: 0 <= r < J.world ==>
      Run(J, s, Flat(rounds)).ranks[r].buf == seq(J.world, c requires 0 <= c < J.world => Final(J, c))
  {
    hide Inv, Act, Fits, PackLaws, Init, Final, Measure, Safe;
    Reachable(J, s, []);
    InitCalm(J, s);
    FairFinishes(J, s, rounds);
    forall r | 0 <= r < J.world
      ensures Run(J, s, Flat(rounds)).ranks[r].buf == seq(J.world, c requires 0 <= c < J.world => Final(J, c))
    {
      Agreement(J, s, Flat(rounds), r);
    }
  }

  // What the final values are -----------------------------------------------------------------------

  /** x(lo), ..., x(hi - 1) combined in this order. */
  function Fold<E>(op: (E, E) -> E, x: nat -> E, lo: nat, hi: nat): E
    requires lo < hi
    decreases hi
  {
    if hi == lo + 1 then x(lo) else op(x(hi - 1), Fold(op, x, lo, hi - 1))
  }

  ghost predicate Associative<E(!new)>(op: (E, E) -> E) {
    forall a, b, c :: op(a, op(b, c)) == op(op(a, b), c)
  }

  ghost predicate Commutative<E(!new)>(op: (E, E) -> E) {
    forall a, b :: op(a, b) == op(b, a)
  }

  lemma AssociativeAt<E(!new)>(op: (E, E) -> E, a: E, b: E, c: E)
    requires Associative(op)
    ensures op(a, op(b, c)) == op(op(a, b), c)
  {
  }

  lemma CommutativeAt<E(!new)>(op: (E, E) -> E, a: E, b: E)
    requires Commutative(op)
    ensures op(a, b) == op(b, a)
  {
  }

  lemma {:induction false} FoldSplit<E(!new)>(op: (E, E) -> E, x: nat -> E, lo: nat, mid: nat, hi: nat)
    requires lo < mid < hi && Associative(op)
    ensures Fold(op, x, lo, hi) == op(Fold(op, x, mid, hi), Fold(op, x, lo, mid))
    decreases hi
  {
    hide Associative;
    if hi > mid + 1 {
      FoldSplit(op, x, lo, mid, hi - 1);
      AssociativeAt(op, x(hi - 1), Fold(op, x, mid, hi - 1), Fold(op, x, lo, mid));
    }
  }

  lemma {:induction false} FoldShift<E>(op: (E, E) -> E, x: nat -> E, y: nat -> E, lo: nat, hi: nat, off: nat)
    requires lo < hi
    requires forall j :: lo <= j < hi ==> y(j) == x(j + off)
    ensures Fold(op, y, lo, hi) == Fold(op, x, lo + off, hi + off)
    decreases hi
  {
    if hi > lo + 1 { FoldShift(op, x, y, lo, hi - 1, off); }
  }

  /** The ranks around the ring from 0 on, twice. */
  function Lap<E>(x: nat -> E, world: nat): nat -> E {
    (j: nat) => if j < world then x(j) else x(j - world)
  }

  /** Where on the ring the fold starts does not matter. */
  lemma Rotation<E(!new)>(op: (E, E) -> E, x: nat -> E, world: nat, c: nat)
    requires c < world && Associative(op) && Commutative(op)
    ensures Fold(op, Lap(x, world), c, c + world) == Fold(op, x, 0, world)
  {
    hide Associative, Commutative, Fold;
    var y := Lap(x, world);
    FoldShift(op, y, x, 0, world, 0);
    if c > 0 {
      FoldSplit(op, y, c, world, c + world);
      FoldShift(op, y, x, 0, c, world);
      FoldShift(op, y, x, 0, c, 0);
      FoldSplit(op, y, 0, c, world);
      CommutativeAt(op, Fold(op, x, 0, c), Fold(op, y, c, world));
    }
  }

  /** Element `i` of chunk `c` of rank `j`. */
  ghost function Column<E(!new), M>(J: Job<E, M>, c: nat, i: nat): nat -> E
    requires Valid(J) && c < J.world && i < J.sizes[c]
  {
    (j: nat) => J.input[if j < J.world then j else 0][c][i]
  }

  lemma PlainStep<E(!new), M>(J: Job<E, M>, c: nat, d: nat, r: nat, i: nat)
    requires Valid(J) && !J.quant && c < J.world && d + 1 < J.world && r < J.world && Dist(J.world, r, c) == d + 1
    requires i < J.sizes[c]
    ensures Partial(J, c, d + 1)[i] == J.op(J.input[r][c][i], Partial(J, c, d)[i])
  {
    hide Partial, Slots;
    PartialStep(J, c, d, r);
    PackCount(J, Partial(J, c, d));
    assert Unpacked(J, J.noMeta, J.pack(Partial(J, c, d)))[i] == Partial(J, c, d)[i];
  }

  lemma {:induction false} PartialFold<E(!new), M>(J: Job<E, M>, c: nat, d: nat, i: nat)
    requires Valid(J) && !J.quant && c < J.world && d < J.world && i < J.sizes[c]
    ensures Partial(J, c, d)[i] == Fold(J.op, Lap(Column(J, c, i), J.world), c, c + d + 1)
    decreases d
  {
    hide PackLaws, Streamed, Slots;
    if d > 0 {
      PartialFold(J, c, d - 1, i);
      var r := if c + d < J.world then c + d else c + d - J.world;
      PlainStep(J, c, d - 1, r, i);
    }
  }

  /** Without quantization every element ends as the reduction over all ranks. */
  lemma FinalIsReduction<E(!new), M>(J: Job<E, M>, c: nat, i: nat)
    requires Valid(J) && !J.quant && Associative(J.op) && Commutative(J.op)
    requires c < J.world && i < J.sizes[c]
    ensures Final(J, c)[i] == Fold(J.op, Column(J, c, i), 0, J.world)
  {
    hide Partial, PackLaws, Associative, Commutative, Fold, Lap, Received;
    PartialFold(J, c, J.world - 1, i);
    Rotation(J.op, Column(J, c, i), J.world, c);
  }

  // Whole vectors -----------------------------------------------------------------------------------

  /** Rank `r` contributes the vector `x[r]`, cut at the chunk bounds `b`. */
  ghost predicate Splits<E(!new), M>(J: Job<E, M>, x: seq<seq<E>>, total: nat, b: seq<Chunks.Span>)
    requires Valid(J)
  {
    && |x| == |b| == J.world && Chunks.Partition(b, total)
    && (forall r :: 0 <= r < J.world ==> |x[r]| == total)
    && (forall c :: 0 <= c < J.world ==> b[c].hi <= total)
    && forall r, c :: 0 <= r < J.world && 0 <= c < J.world ==> J.input[r][c] == x[r][b[c].lo..b[c].hi]
  }

  function Join<E>(chunks: seq<seq<E>>): seq<E> {
    if chunks == [] then [] else Join(chunks[..|chunks| - 1]) + chunks[|chunks| - 1]
  }

  lemma {:induction false} JoinSlices<E>(chunks: seq<seq<E>>, b: seq<Chunks.Span>, v: seq<E>, n: nat)
    requires n <= |b| == |chunks| && Chunks.Partition(b, |v|)
    requires forall c :: 0 <= c < |b| ==> b[c].hi <= |v| && chunks[c] == v[b[c].lo..b[c].hi]
    ensures Join(chunks[..n]) == v[..if n == 0 then 0 else b[n - 1].hi]
    decreases n
  {
    if n > 0 {
      JoinSlices(chunks, b, v, n - 1);
      assert chunks[..n][..n - 1] == chunks[..n - 1];
      assert v[..b[n - 1].lo] + v[b[n - 1].lo..b[n - 1].hi] == v[..b[n - 1].hi];
    }
  }

  /** Element-wise reduction of the vectors of all ranks. */
  function Reduced<E>(op: (E, E) -> E, x: seq<seq<E>>, total: nat): (v: seq<E>)
    requires |x| > 0 && forall r :: 0 <= r < |x| ==> |x[r]| == total
    ensures |v| == total
  {
    seq(total, i requires 0 <= i < total => Fold(op, Across(x, i), 0, |x|))
  }

  function Across<E>(x: seq<seq<E>>, i: nat): nat -> E
    requires |x| > 0 && forall r :: 0 <= r < |x| ==> i < |x[r]|
  {
    (r: nat) => x[if r < |x| then r else 0][i]
  }

  lemma FinalSlice<E(!new), M>(J: Job<E, M>, x: seq<seq<E>>, total: nat, b: seq<Chunks.Span>, c: nat)
    requires Valid(J) && !J.quant && Associative(J.op) && Commutative(J.op) && Splits(J, x, total, b) && c < J.world
    ensures Final(J, c) == Reduced(J.op, x, total)[b[c].lo..b[c].hi]
  {
    hide Associative, Commutative, Final, PackLaws, Fold;
    var slice := Reduced(J.op, x, total)[b[c].lo..b[c].hi];
    assert |J.input[0][c]| == b[c].hi - b[c].lo;
    forall i | 0 <= i < J.sizes[c]
      ensures Final(J, c)[i] == slice[i]
    {
      FinalIsReduction(J, c, i);
      SameFold(J, x, total, b, c, i);
    }
  }

  lemma SameFold<E(!new), M>(J: Job<E, M>, x: seq<seq<E>>, total: nat, b: seq<Chunks.Span>, c: nat, i: nat)
    requires Valid(J) && Splits(J, x, total, b) && c < J.world && i < J.sizes[c]
    ensures b[c].lo + i < total
    ensures Fold(J.op, Column(J, c, i), 0, J.world) == Fold(J.op, Across(x, b[c].lo + i), 0, J.world)
  {
    hide PackLaws, Fold;
    assert |J.input[0][c]| == b[c].hi - b[c].lo;
    FoldShift(J.op, Across(x, b[c].lo + i), Column(J, c, i), 0, J.world, 0);
  }

  lemma FinalJoin<E(!new), M>(J: Job<E, M>, x: seq<seq<E>>, total: nat, b: seq<Chunks.Span>, buf: seq<seq<E>>)
    requires Valid(J) && !J.quant && Associative(J.op) && Commutative(J.op) && Splits(J, x, total, b)
    requires buf == seq(J.world, c requires 0 <= c < J.world => Final(J, c))
    ensures Join(buf) == Reduced(J.op, x, total)
  {
    hide Associative, Commutative, Final, PackLaws, Fold, Reduced;
    var v := Reduced(J.op, x, total);
    forall c | 0 <= c < J.world
      ensures buf[c] == v[b[c].lo..b[c].hi]
    {
      FinalSlice(J, x, total, b, c);
    }
    JoinSlices(buf, b, v, J.world);
    assert buf[..J.world] == buf;
  }

  /** All-reduce computes the element-wise reduction of all vectors on every rank. */
  lemma AllReduceVector<E(!new), M>(J: Job<E, M>, x: seq<seq<E>>, total: nat, b: seq<Chunks.Span>, s: Net<E, M>,
                                    rounds: seq<seq<nat>>, r: nat)
    requires Valid(J) && !J.quant && Associative(J.op) && Commutative(J.op) && Splits(J, x, total, b)
    requires Init(J, s) && |rounds| >= Measure(J, s) && r < J.world
    requires forall i :: 0 <= i < |rounds| ==> Round(J, rounds[i])
    ensures Shaped(J, s) && Legal(J, Flat(rounds))
    ensures Join(Run(J, s, Flat(rounds)).ranks[r].buf) == Reduced(J.op, x, total)
  {
    hide Associative, Commutative, Splits, Final, PackLaws, Init, Measure, Fits, Reduced, Join;
    AllReduceFinishes(J, s, rounds);
    FinalJoin(J, x, total, b, Run(J, s, Flat(rounds)).ranks[r].buf);
  }
}
