/** What a ring all-reduce is meant to compute, chunk by chunk, and what every rank puts on the wire. */
module RingSpec {
  import opened Streaming

  /** One all-reduce: the vector of every rank split into chunks, the element codec and the operation.
      `pack`, `metaOf` and `unpack` are the quantizer when `quant` holds and plain serialization otherwise. */
  datatype Job<!E, !M> = Job(
    world: nat,
    sizes: seq<nat>,                 // elements per chunk
    input: seq<seq<seq<E>>>,         // rank -> chunk -> elements
    quant: bool,
    q: nat,                          // bits per element on the wire
    pack: seq<E> -> seq<Byte>,
    metaOf: seq<E> -> M,
    noMeta: M,
    unpack: (M, Slot) -> E,
    op: (E, E) -> E,
    pieces: seq<nat>,                // multiplexer chunk size of every rank
    ctr: nat,                        // sequence number of the operation
    room: nat)                       // bytes of the receive buffer

  /** Packing keeps the number of elements and, without quantization, their values. */
  ghost predicate PackLaw<E, M>(J: Job<E, M>, v: seq<E>)
    requires ValidWidth(J.q)
  {
    Aligned(|v|, J.q) ==>
      && |J.pack(v)| == PackedBytes(|v|, J.q)
      && (!J.quant ==> Unpacked(J, J.noMeta, J.pack(v)) == v)
  }

  ghost predicate PackLaws<E(!new), M>(J: Job<E, M>)
    requires ValidWidth(J.q)
  {
    forall v: seq<E> :: PackLaw(J, v)
  }

  ghost predicate Valid<E(!new), M>(J: Job<E, M>) {
    && J.world >= 2
    && |J.sizes| == |J.input| == |J.pieces| == J.world
    && ValidWidth(J.q)
    && (forall r :: 0 <= r < J.world ==> |J.input[r]| == J.world)
    && (forall r, c :: 0 <= r < J.world && 0 <= c < J.world ==> |J.input[r][c]| == J.sizes[c])
    && (forall c :: 0 <= c < J.world ==> Aligned(J.sizes[c], J.q) && Bytes(J, c) <= J.room)
    && (forall r :: 0 <= r < J.world ==> J.pieces[r] > 0)
    && PackLaws(J)
    && (J.quant ==> forall c :: 0 <= c < J.world ==> J.sizes[c] > 0)
  }

  /** The size condition of one step: the pieces received are no longer than the pieces sent, or one of the two
      chunks of the step fits one piece sent. */
  ghost predicate Meets<E(!new), M>(J: Job<E, M>, r: nat, t: nat)
    requires Valid(J) && r < J.world && t < Last(J)
  {
    || J.pieces[Prev(J.world, r)] <= J.pieces[r]
    || Bytes(J, TxChunk(J.world, r, t)) <= J.pieces[r]
    || Bytes(J, RxChunk(J.world, r, t)) <= J.pieces[r]
  }

  /** With quantization a rank forwards chunks from the buffer it receives into, from step `world` on; each of these
      steps has to meet the condition. Without quantization, or with two ranks, there is no such step. */
  ghost predicate Safe<E(!new), M>(J: Job<E, M>)
    requires Valid(J)
  {
    J.quant ==> forall r, t :: 0 <= r < J.world && J.world <= t < Last(J) ==> Meets(J, r, t)
  }

  /** Bytes of chunk `c` on the wire. */
  function Bytes<E, M>(J: Job<E, M>, c: nat): nat
    requires c < |J.sizes| && ValidWidth(J.q)
  {
    PackedBytes(J.sizes[c], J.q)
  }

  function Unpacked<E, M>(J: Job<E, M>, m: M, w: seq<Byte>): (v: seq<E>)
    requires ValidWidth(J.q)
  {
    var s := Slots(w, J.q);
    seq(|s|, i requires 0 <= i < |s| => J.unpack(m, s[i]))
  }

  lemma PackCount<E(!new), M>(J: Job<E, M>, v: seq<E>)
    requires Valid(J)
    requires Aligned(|v|, J.q)
    ensures |J.pack(v)| == PackedBytes(|v|, J.q)
    ensures |Slots(J.pack(v), J.q)| == |v|
    ensures !J.quant ==> Unpacked(J, J.noMeta, J.pack(v)) == v
  {
    assert PackLaw(J, v);
    SlotsLength(J.pack(v), J.q);
    PackedCount(|v|, J.q);
  }

  /** How received elements enter the buffer: reduced in the first phase, copied in the second. */
  function Combine<E, M>(J: Job<E, M>, reduce: bool, m: M): (E, Slot) -> E {
    (mine: E, s: Slot) => if reduce then J.op(mine, J.unpack(m, s)) else J.unpack(m, s)
  }

  function MetaFor<E, M>(J: Job<E, M>, v: seq<E>): M {
    if J.quant then J.metaOf(v) else J.noMeta
  }

  /** A chunk as the receiver of its wire form sees it. */
  function Received<E, M>(J: Job<E, M>, v: seq<E>): seq<E>
    requires ValidWidth(J.q)
  {
    Unpacked(J, MetaFor(J, v), J.pack(v))
  }

  // Ring positions ----------------------------------------------------------------------------------

  function Next(world: nat, r: nat): (n: nat)
    requires r < world
    ensures n < world
  {
    if r + 1 < world then r + 1 else 0
  }

  function Prev(world: nat, r: nat): (p: nat)
    requires r < world
    ensures p < world && Next(world, p) == r
  {
    if r == 0 then world - 1 else r - 1
  }

  /** The chunk `d` places before `r`. */
  function Back(world: nat, r: nat, d: nat): (c: nat)
    requires r < world && d < world
    ensures c < world
  {
    if r >= d then r - d else r + world - d
  }

  /** How far chunk `c` is behind rank `r`; the rank at distance `d` is the `d`-th to add to the chunk. */
  function Dist(world: nat, r: nat, c: nat): (d: nat)
    requires r < world && c < world
    ensures d < world && Back(world, r, d) == c
  {
    if r >= c then r - c else r + world - c
  }

  lemma BackIsMod(world: nat, r: nat, d: nat)
    requires r < world && d < world
    ensures (r + world - d) % world == Back(world, r, d)
  {
    if r >= d { OverflowMod(r - d, world); }
  }

  lemma OverflowMod(a: nat, world: nat)
    requires a < world
    ensures (a + world) % world == a
  {
  }

  /** Number of exchange steps: world - 1 reduce-scatter steps, then world - 1 allgather steps. */
  function Last<E, M>(J: Job<E, M>): nat
    requires J.world >= 2
  {
    2 * (J.world - 1)
  }

  function TxDist(world: nat, t: nat): nat
    requires world >= 2 && t < 2 * (world - 1)
  {
    if t < world then t else t - world
  }

  function RxDist(world: nat, t: nat): nat
    requires world >= 2 && t < 2 * (world - 1)
  {
    if t < world - 1 then t + 1 else t - (world - 1)
  }

  /** Chunk rank `r` sends in step `t`. */
  function TxChunk(world: nat, r: nat, t: nat): (c: nat)
    requires world >= 2 && r < world && t < 2 * (world - 1)
    ensures c < world
  {
    Back(world, r, TxDist(world, t))
  }

  /** Chunk rank `r` receives in step `t`. */
  function RxChunk(world: nat, r: nat, t: nat): (c: nat)
    requires world >= 2 && r < world && t < 2 * (world - 1)
    ensures c < world
  {
    Back(world, r, RxDist(world, t))
  }

  lemma ChunksMatch(world: nat, r: nat, t: nat)
    requires world >= 2 && r < world && t < 2 * (world - 1)
    ensures TxChunk(world, Prev(world, r), t) == RxChunk(world, r, t)
    ensures TxChunk(world, r, t) != RxChunk(world, r, t)
    ensures t + 1 < 2 * (world - 1) && t >= world - 1 ==> TxChunk(world, r, t + 1) == RxChunk(world, r, t)
  {
  }

  // Values ------------------------------------------------------------------------------------------

  /** Chunk `c` after the first `d + 1` ranks of its tour were combined. */
  ghost function Partial<E(!new), M>(J: Job<E, M>, c: nat, d: nat): (v: seq<E>)
    requires Valid(J) && c < J.world && d < J.world
    ensures |v| == J.sizes[c]
    decreases d
  {
    if d == 0 then J.input[c][c]
    else
      var prev := Partial(J, c, d - 1);
      PackCount(J, prev);
      var r := if c + d < J.world then c + d else c + d - J.world;
      Streamed(J.input[r][c], Slots(J.pack(prev), J.q), Combine(J, true, MetaFor(J, prev)))
  }

  ghost function Full<E(!new), M>(J: Job<E, M>, c: nat): (v: seq<E>)
    requires Valid(J) && c < J.world
    ensures |v| == J.sizes[c]
  {
    Partial(J, c, J.world - 1)
  }

  /** What every rank ends with. */
  ghost function Final<E(!new), M>(J: Job<E, M>, c: nat): (v: seq<E>)
    requires Valid(J) && c < J.world
    ensures |v| == J.sizes[c]
    ensures !J.quant ==> v == Full(J, c)
  {
    PackCount(J, Full(J, c));
    Received(J, Full(J, c))
  }

  /** Chunk `c` of rank `r` when step `t` starts. */
  ghost function ChunkAt<E(!new), M>(J: Job<E, M>, r: nat, t: nat, c: nat): (v: seq<E>)
    requires Valid(J) && r < J.world && t <= Last(J) && c < J.world
    ensures |v| == J.sizes[c]
  {
    var d := Dist(J.world, r, c);
    if t < J.world - 1 then
      if d <= t then Partial(J, c, d) else J.input[r][c]
    else if d < t - (J.world - 1) || d == J.world - 1 then Final(J, c)
    else Partial(J, c, d)
  }

  ghost function BufferAt<E(!new), M>(J: Job<E, M>, r: nat, t: nat): (b: seq<seq<E>>)
    requires Valid(J) && r < J.world && t <= Last(J)
    ensures |b| == J.world
  {
    seq(J.world, c requires 0 <= c < J.world => ChunkAt(J, r, t, c))
  }

  /** The value rank `r` sends in step `t`. */
  ghost function Sent<E(!new), M>(J: Job<E, M>, r: nat, t: nat): (v: seq<E>)
    requires Valid(J) && r < J.world && t < Last(J)
    ensures |v| == J.sizes[TxChunk(J.world, r, t)]
  {
    var c := TxChunk(J.world, r, t);
    if t < J.world - 1 then Partial(J, c, t) else Full(J, c)
  }

  ghost function Wire<E(!new), M>(J: Job<E, M>, r: nat, t: nat): (w: seq<Byte>)
    requires Valid(J) && r < J.world && t < Last(J)
    ensures |w| == Bytes(J, TxChunk(J.world, r, t))
    ensures |Slots(w, J.q)| == J.sizes[TxChunk(J.world, r, t)]
  {
    PackCount(J, Sent(J, r, t));
    J.pack(Sent(J, r, t))
  }

  ghost function WireMeta<E(!new), M>(J: Job<E, M>, r: nat, t: nat): M
    requires Valid(J) && r < J.world && t < Last(J)
  {
    MetaFor(J, Sent(J, r, t))
  }

  /** Chunks other than the one received keep their value from one step to the next. */
  lemma ChunkStable<E(!new), M>(J: Job<E, M>, r: nat, t: nat, c: nat)
    requires Valid(J) && r < J.world && t < Last(J) && c < J.world
    requires c != RxChunk(J.world, r, t)
    ensures ChunkAt(J, r, t + 1, c) == ChunkAt(J, r, t, c)
  {
  }

  /** The chunk as a rank has it once the last byte of step `t` was absorbed. */
  ghost function Absorbed<E(!new), M>(J: Job<E, M>, r: nat, t: nat): (v: seq<E>)
    requires Valid(J) && r < J.world && t < Last(J)
  {
    var p := Prev(J.world, r);
    var rx := RxChunk(J.world, r, t);
    ChunksMatch(J.world, r, t);
    Streamed(ChunkAt(J, r, t, rx), Slots(Wire(J, p, t), J.q), Combine(J, t < J.world - 1, WireMeta(J, p, t)))
  }

  /** A reduce-scatter step adds this rank's share: the next partial result. */
  lemma ReduceCompletes<E(!new), M>(J: Job<E, M>, r: nat, t: nat)
    requires Valid(J) && r < J.world && t < J.world - 1
    ensures Absorbed(J, r, t) == Partial(J, RxChunk(J.world, r, t), t + 1)
  {
    ChunksMatch(J.world, r, t);
    var rx := RxChunk(J.world, r, t);
    assert Dist(J.world, r, rx) == t + 1;
    assert ChunkAt(J, r, t, rx) == J.input[r][rx];
    assert Sent(J, Prev(J.world, r), t) == Partial(J, rx, t);
    PartialStep(J, rx, t, r);
  }

  lemma PartialStep<E(!new), M>(J: Job<E, M>, c: nat, d: nat, r: nat)
    requires Valid(J) && c < J.world && d + 1 < J.world && r < J.world && Dist(J.world, r, c) == d + 1
    ensures |Slots(J.pack(Partial(J, c, d)), J.q)| == J.sizes[c]
    ensures Partial(J, c, d + 1)
         == Streamed(J.input[r][c], Slots(J.pack(Partial(J, c, d)), J.q),
                     Combine(J, true, MetaFor(J, Partial(J, c, d))))
  {
    PackCount(J, Partial(J, c, d));
  }

  /** An allgather step installs the final value. */
  lemma CopyCompletes<E(!new), M>(J: Job<E, M>, r: nat, t: nat)
    requires Valid(J) && r < J.world && J.world - 1 <= t < Last(J)
    ensures Absorbed(J, r, t) == Final(J, RxChunk(J.world, r, t))
  {
    ChunksMatch(J.world, r, t);
    var rx := RxChunk(J.world, r, t);
    assert Sent(J, Prev(J.world, r), t) == Full(J, rx);
    CopyReceived(J, ChunkAt(J, r, t, rx), Full(J, rx));
  }

  lemma CopyReceived<E(!new), M>(J: Job<E, M>, before: seq<E>, v: seq<E>)
    requires Valid(J) && |before| == |v| && Aligned(|v|, J.q)
    ensures |Slots(J.pack(v), J.q)| == |v|
    ensures Streamed(before, Slots(J.pack(v), J.q), Combine(J, false, MetaFor(J, v))) == Received(J, v)
  {
    PackCount(J, v);
  }

  /** The received chunk when the next reduce-scatter step starts. */
  lemma ReduceArrives<E(!new), M>(J: Job<E, M>, r: nat, t: nat)
    requires Valid(J) && r < J.world && t < J.world - 2
    ensures Absorbed(J, r, t) == ChunkAt(J, r, t + 1, RxChunk(J.world, r, t))
  {
    ReduceCompletes(J, r, t);
    assert Dist(J.world, r, RxChunk(J.world, r, t)) == t + 1;
  }

  /** The last reduce-scatter step makes the rank owner of a finished chunk ... */
  lemma OwnerArrives<E(!new), M>(J: Job<E, M>, r: nat)
    requires Valid(J) && r < J.world
    ensures Absorbed(J, r, J.world - 2) == Full(J, RxChunk(J.world, r, J.world - 2))
  {
    hide Absorbed, Partial;
    ReduceCompletes(J, r, J.world - 2);
  }

  /** ... which it sends next, and replaces by what the others will see. */
  lemma OwnerReplaces<E(!new), M>(J: Job<E, M>, r: nat)
    requires Valid(J) && r < J.world
    ensures RxChunk(J.world, r, J.world - 2) == TxChunk(J.world, r, J.world - 1)
    ensures ChunkAt(J, r, J.world - 1, TxChunk(J.world, r, J.world - 1)) == Final(J, TxChunk(J.world, r, J.world - 1))
  {
    assert Dist(J.world, r, TxChunk(J.world, r, J.world - 1)) == J.world - 1;
  }

  /** The received chunk when the next allgather step starts. */
  lemma CopyArrives<E(!new), M>(J: Job<E, M>, r: nat, t: nat)
    requires Valid(J) && r < J.world && J.world - 1 <= t < Last(J)
    ensures Absorbed(J, r, t) == ChunkAt(J, r, t + 1, RxChunk(J.world, r, t))
  {
    CopyCompletes(J, r, t);
    assert Dist(J.world, r, RxChunk(J.world, r, t)) == t - (J.world - 1);
  }

  /** What rank `r` sends is what its buffer holds. */
  lemma SentIsHeld<E(!new), M>(J: Job<E, M>, r: nat, t: nat)
    requires Valid(J) && r < J.world && t < Last(J)
    ensures t < J.world - 1 || !J.quant ==> ChunkAt(J, r, t, TxChunk(J.world, r, t)) == Sent(J, r, t)
  {
    var tx := TxChunk(J.world, r, t);
    assert Dist(J.world, r, tx) == TxDist(J.world, t);
  }

  lemma {:induction false} FinishedBuffer<E(!new), M>(J: Job<E, M>, r: nat)
    requires Valid(J) && r < J.world
    ensures forall c :: 0 <= c < J.world ==> BufferAt(J, r, Last(J))[c] == Final(J, c)
  {
  }
}
