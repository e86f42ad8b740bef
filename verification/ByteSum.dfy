/** All-reduce of unsigned bytes with wrap-around addition, without quantization: an instance of the ring in
    which nothing is left abstract. */
module ByteSum {
  import opened Streaming
  import opened RingSpec
  import opened Ring
  import opened RingProof
  import opened RingProgress
  import opened AllReduce
  import Chunks

  function Add(a: Byte, b: Byte): Byte { (a + b) % 256 }

  lemma AddIsSum()
    ensures Associative(Add) && Commutative(Add)
  {
    forall a: Byte, b: Byte, c: Byte
      ensures Add(a, Add(b, c)) == Add(Add(a, b), c)
    {
      ModTwice(a, b + c);
      ModTwice(c, a + b);
    }
  }

  lemma ModTwice(x: nat, y: nat)
    ensures (x + y % 256) % 256 == (x + y) % 256
  {
  }

  function Value(s: Slot): Byte {
    if s.Whole? && |s.bytes| == 1 then s.bytes[0] else 0
  }

  lemma {:induction false} ByteSlots(w: seq<Byte>, i: nat)
    requires i < |w|
    ensures |Slots(w, 8)| == |w| && Slots(w, 8)[i] == Whole([w[i]])
    decreases |w|
  {
    if |w| > 1 { ByteSlots(w[1..], if i > 0 then i - 1 else 0); }
    assert w[..1] == [w[0]];
    assert Slots(w, 8) == [Whole([w[0]])] + Slots(w[1..], 8);
  }

  lemma {:induction false} ByteSizes(n: nat)
    ensures Aligned(n, 8) && PackedBytes(n, 8) == n
  {
    if n > 0 { ByteSizes(n - 1); }
  }

  /** Rank `r` contributes `x[r]`, cut like computeChunkBoundaries does. */
  function SumJob(x: seq<seq<Byte>>, total: nat, pieces: seq<nat>, ctr: nat, room: nat): Job<Byte, ()>
    requires |x| >= 2 && forall r :: 0 <= r < |x| ==> |x[r]| == total
  {
    var b := Chunks.BoundsOf(total, |x|);
    Chunks.BoundsPartition(total, |x|);
    BoundsInside(b, total);
    Job(|x|,
        seq(|x|, c requires 0 <= c < |x| => b[c].hi - b[c].lo),
        seq(|x|, r requires 0 <= r < |x| => seq(|x|, c requires 0 <= c < |x| => x[r][b[c].lo..b[c].hi])),
        false, 8, v => v, v => (), (), (m, s) => Value(s), Add, pieces, ctr, room)
  }

  lemma BoundsInside(b: seq<Chunks.Span>, total: nat)
    requires Chunks.Partition(b, total)
    ensures forall c :: 0 <= c < |b| ==> b[c].hi <= total
  {
    forall c | 0 <= c < |b| ensures b[c].hi <= total { HiBound(b, total, c); }
  }

  lemma {:induction false} HiBound(b: seq<Chunks.Span>, total: nat, c: nat)
    requires Chunks.Partition(b, total) && c < |b|
    ensures b[c].hi <= total
    decreases |b| - c
  {
    if c + 1 < |b| { HiBound(b, total, c + 1); }
  }

  lemma SumJobValid(x: seq<seq<Byte>>, total: nat, pieces: seq<nat>, ctr: nat, room: nat)
    requires |x| == |pieces| >= 2 && forall r :: 0 <= r < |x| ==> |x[r]| == total && pieces[r] > 0
    requires forall c :: 0 <= c < |x| ==> SumJob(x, total, pieces, ctr, room).sizes[c] <= room
    ensures Valid(SumJob(x, total, pieces, ctr, room))
    ensures Splits(SumJob(x, total, pieces, ctr, room), x, total, Chunks.BoundsOf(total, |x|))
  {
    var J := SumJob(x, total, pieces, ctr, room);
    var b := Chunks.BoundsOf(total, |x|);
    Chunks.BoundsPartition(total, |x|);
    BoundsInside(b, total);
    forall n: nat { ByteSizes(n); }
    forall v: seq<Byte> ensures PackLaw(J, v) { BytePack(J, v); }
  }

  lemma BytePack(J: Job<Byte, ()>, v: seq<Byte>)
    requires J.q == 8 && J.pack(v) == v && forall s :: J.unpack(J.noMeta, s) == Value(s)
    ensures PackLaw(J, v)
  {
    ByteSizes(|v|);
    if v != [] { ByteSlots(v, 0); }
    forall i | 0 <= i < |v|
      ensures J.unpack(J.noMeta, Slots(v, 8)[i]) == v[i]
    {
      ByteSlots(v, i);
    }
  }

  /** Every rank ends with the element-wise sum modulo 256 of all vectors, for every length, every number of
      ranks, every piece size, every left-over of earlier operations and every fair interleaving. */
  lemma ByteSumAllReduce(x: seq<seq<Byte>>, total: nat, pieces: seq<nat>, ctr: nat, room: nat, s: Net<Byte, ()>,
                         rounds: seq<seq<nat>>, r: nat)
    requires |x| == |pieces| >= 2 && forall i :: 0 <= i < |x| ==> |x[i]| == total && pieces[i] > 0
    requires forall c :: 0 <= c < |x| ==> SumJob(x, total, pieces, ctr, room).sizes[c] <= room
    requires Valid(SumJob(x, total, pieces, ctr, room)) && Init(SumJob(x, total, pieces, ctr, room), s)
    requires |rounds| >= Measure(SumJob(x, total, pieces, ctr, room), s)
    requires forall i :: 0 <= i < |rounds| ==> Round(SumJob(x, total, pieces, ctr, room), rounds[i])
    requires r < |x|
    ensures Shaped(SumJob(x, total, pieces, ctr, room), s)
    ensures Legal(SumJob(x, total, pieces, ctr, room), Flat(rounds))
    ensures Join(Run(SumJob(x, total, pieces, ctr, room), s, Flat(rounds)).ranks[r].buf) == Reduced(Add, x, total)
  {
    AddIsSum();
    SumJobValid(x, total, pieces, ctr, room);
    hide Valid, Init, Measure, Reduced, Join, Run;
    AllReduceVector(SumJob(x, total, pieces, ctr, room), x, total, Chunks.BoundsOf(total, |x|), s, rounds, r);
  }
}
