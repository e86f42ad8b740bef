/** All-reduce of reals by addition, min-max quantized to `k`-byte codes on every hop. */
module QuantizedSum {
  import opened Streaming
  import opened RingSpec
  import opened Ring
  import opened RingProof
  import opened RingProgress
  import opened AllReduce
  import MinMax

  // Codes as bytes ----------------------------------------------------------------------------------

  function Pow(k: nat): (p: nat)
    ensures p > 0
  {
    if k == 0 then 1 else 256 * Pow(k - 1)
  }

  function ToBytes(q: nat, k: nat): (bs: seq<Byte>)
    ensures |bs| == k
  {
    if k == 0 then [] else [q % 256] + ToBytes(q / 256, k - 1)
  }

  function FromBytes(bs: seq<Byte>): nat {
    if bs == [] then 0 else bs[0] + 256 * FromBytes(bs[1..])
  }

  lemma {:induction false} BytesRoundTrip(q: nat, k: nat)
    requires q < Pow(k)
    ensures FromBytes(ToBytes(q, k)) == q
  {
    if k > 0 { BytesRoundTrip(q / 256, k - 1); }
  }

  /** The codes of a chunk laid out one after another. */
  function Layout(codes: seq<nat>, k: nat): seq<Byte> {
    if codes == [] then [] else ToBytes(codes[0], k) + Layout(codes[1..], k)
  }

  lemma {:induction false} LayoutSlots(codes: seq<nat>, k: nat, i: nat)
    requires k > 0 && i < |codes|
    ensures |Slots(Layout(codes, k), 8 * k)| == |codes| && Slots(Layout(codes, k), 8 * k)[i] == Whole(ToBytes(codes[i], k))
    decreases |codes|
  {
    if |codes| > 1 { LayoutSlots(codes[1..], k, if i > 0 then i - 1 else 0); }
    SlotsCons(ToBytes(codes[0], k), Layout(codes[1..], k), 8 * k);
  }

  lemma {:induction false} LayoutBytes(codes: seq<nat>, k: nat)
    requires k > 0
    ensures Aligned(|codes|, 8 * k) && |Layout(codes, k)| == PackedBytes(|codes|, 8 * k)
    decreases |codes|
  {
    if codes != [] { LayoutBytes(codes[1..], k); }
  }

  // The job -----------------------------------------------------------------------------------------

  /** Levels above zero of a `k`-byte code. */
  function Top(k: nat): (t: nat)
    requires k > 0
    ensures t > 0
  {
    Pow(k) - 1
  }

  function Add(a: real, b: real): real { a + b }

  /** The quantizer of one all-reduce. */
  datatype Quantizer = Quantizer(k: nat, big: real, tiny: real) {
    predicate Valid() { k > 0 && 0.0 < tiny <= big }

    function Pack(v: seq<real>): seq<Byte>
      requires Valid()
    {
      Layout(MinMax.Codes(v, big, tiny, Top(k)), k)
    }

    function Unpack(e: MinMax.Extremes, s: Slot): real
      requires Valid()
    {
      if s.Whole? then MinMax.Value(FromBytes(s.bytes), e, Top(k)) else 0.0
    }

    /** What quantizing and dequantizing makes of a chunk. */
    function Lossy(v: seq<real>): (w: seq<real>)
      requires Valid()
      ensures |w| == |v|
    {
      MinMax.Values(MinMax.Codes(v, big, tiny, Top(k)), MinMax.ExtremesOf(v, big, tiny), Top(k))
    }
  }

  ghost predicate IsSum(J: Job<real, MinMax.Extremes>, z: Quantizer) {
    && z.Valid() && J.quant && J.q == 8 * z.k && ValidWidth(J.q)
    && (forall v :: J.pack(v) == z.Pack(v))
    && (forall v :: J.metaOf(v) == MinMax.ExtremesOf(v, z.big, z.tiny))
    && (forall e, s :: J.unpack(e, s) == z.Unpack(e, s))
    && (forall a, b :: J.op(a, b) == a + b)
  }

  /** The ring's laws hold of the min-max codec. */
  lemma SumPackLaws(J: Job<real, MinMax.Extremes>, z: Quantizer)
    requires IsSum(J, z)
    ensures PackLaws(J)
  {
    forall v: seq<real> ensures PackLaw(J, v) {
      LayoutBytes(MinMax.Codes(v, z.big, z.tiny, Top(z.k)), z.k);
    }
  }

  /** A receiver sees the quantized and dequantized chunk. */
  lemma ReceivedIsLossy(J: Job<real, MinMax.Extremes>, z: Quantizer, v: seq<real>)
    requires IsSum(J, z)
    ensures Received(J, v) == z.Lossy(v)
  {
    hide Slots;
    var codes := MinMax.Codes(v, z.big, z.tiny, Top(z.k));
    var s := Slots(J.pack(v), J.q);
    if v == [] {
      assert J.pack(v) == [];
      SlotsLength([], J.q);
    } else {
      LayoutSlots(codes, z.k, 0);
    }
    forall i | 0 <= i < |v|
      ensures J.unpack(J.metaOf(v), s[i]) == z.Lossy(v)[i]
    {
      LayoutSlots(codes, z.k, i);
      BytesRoundTrip(codes[i], z.k);
    }
  }

  // The error ---------------------------------------------------------------------------------------

  /** Error of a sum of `n` terms bounded by `b`, of which every partial sum was quantized. */
  function Err(b: real, n: nat, top: nat): real
    requires top > 0
  {
    b * (n * (n + 1)) as real / top as real
  }

  lemma ErrStep(b: real, n: nat, top: nat)
    requires top > 0
    ensures Err(b, n, top) + 2.0 * ((n + 1) as real * b) / top as real == Err(b, n + 1, top)
  {
    var t := top as real;
    var x, y := b * (n * (n + 1)) as real, 2.0 * ((n + 1) as real * b);
    assert x + y == b * ((n + 1) * (n + 2)) as real by {
      assert (n + 1) * (n + 2) == n * (n + 1) + 2 * (n + 1);
    }
    AddDiv(x, y, t);
  }

  lemma AddDiv(x: real, y: real, t: real)
    requires t > 0.0
    ensures x / t + y / t == (x + y) / t
  {
  }

  ghost predicate Bounded(J: Job<real, MinMax.Extremes>, b: real)
    requires Valid(J)
  {
    forall r, c, i :: 0 <= r < J.world && 0 <= c < J.world && 0 <= i < J.sizes[c] ==>
      -b <= J.input[r][c][i] <= b
  }

  /** The exact sum of the first `d + 1` contributions to an element. */
  ghost function Exact(J: Job<real, MinMax.Extremes>, c: nat, d: nat, i: nat): real
    requires Valid(J) && c < J.world && i < J.sizes[c]
  {
    Fold(Add, Lap(Column(J, c, i), J.world), c, c + d + 1)
  }

  /** One hop: the received partial sum, and what this rank makes of it. */
  lemma HopSum(J: Job<real, MinMax.Extremes>, z: Quantizer, c: nat, d: nat, r: nat, i: nat)
    requires Valid(J) && IsSum(J, z) && c < J.world && d + 1 < J.world && r < J.world && Dist(J.world, r, c) == d + 1
    requires i < J.sizes[c]
    ensures Partial(J, c, d + 1)[i] == J.input[r][c][i] + z.Lossy(Partial(J, c, d))[i]
  {
    hide Partial, Slots, PackLaws;
    PartialStep(J, c, d, r);
    var v := Partial(J, c, d);
    ReceivedIsLossy(J, z, v);
    assert Received(J, v)[i] == z.Lossy(v)[i];
  }

  function Times(n: nat, b: real): real { n as real * b }

  ghost predicate Near(value: real, exact: real, b: real, n: nat, top: nat)
    requires top > 0 && n > 0
  {
    -Times(n, b) <= value <= Times(n, b) && exact - Err(b, n - 1, top) <= value <= exact
  }

  /** Near, after one more quantization. */
  ghost predicate Enough(value: real, exact: real, b: real, n: nat, top: nat)
    requires top > 0
  {
    -Times(n, b) <= value <= Times(n, b) && exact - Err(b, n, top) <= value <= exact
  }

  lemma OnceMore(value: real, w: real, exact: real, b: real, d: nat, top: nat)
    requires top > 0 && Near(value, exact, b, d + 1, top)
    requires var m := Times(d + 1, b); -m <= w <= value && value - w <= 2.0 * m / top as real
    ensures Enough(w, exact, b, d + 1, top)
  {
    hide Err;
    ErrStep(b, d, top);
  }

  lemma {:induction false} PartialNear(J: Job<real, MinMax.Extremes>, z: Quantizer, b: real, c: nat, d: nat, i: nat)
    requires Valid(J) && z.Valid() && IsSum(J, z) && Bounded(J, b) && z.tiny <= b
    requires c < J.world && d < J.world && i < J.sizes[c]
    ensures Near(Partial(J, c, d)[i], Exact(J, c, d, i), b, d + 1, Top(z.k))
    decreases d, 0
  {
    hide PackLaws, IsSum, Partial, Exact, Near, Enough;
    if d == 0 {
      FirstTerm(J, c, i);
      OneNear(J.input[c][c][i], b, Top(z.k));
    } else {
      LossyNear(J, z, b, c, d - 1, i);
      var r := if c + d < J.world then c + d else c + d - J.world;
      HopSum(J, z, c, d - 1, r, i);
      FoldMore(J, c, d, r, i);
      AddNear(J.input[r][c][i], z.Lossy(Partial(J, c, d - 1))[i], Exact(J, c, d - 1, i), b, d, Top(z.k));
    }
  }

  lemma OneNear(x: real, b: real, top: nat)
    requires top > 0 && -b <= x <= b
    ensures Near(x, x, b, 1, top)
  {
    assert b * (0 * (0 + 1)) as real == 0.0;
  }

  lemma AddNear(x: real, w: real, exact: real, b: real, n: nat, top: nat)
    requires top > 0 && n > 0 && -b <= x <= b && Enough(w, exact, b, n, top)
    ensures Near(x + w, x + exact, b, n + 1, top)
  {
    assert (n + 1) as real * b == n as real * b + b;
  }

  lemma FirstTerm(J: Job<real, MinMax.Extremes>, c: nat, i: nat)
    requires Valid(J) && c < J.world && i < J.sizes[c]
    ensures Partial(J, c, 0)[i] == Exact(J, c, 0, i) == J.input[c][c][i]
  {
    hide PackLaws;
  }

  lemma FoldMore(J: Job<real, MinMax.Extremes>, c: nat, d: nat, r: nat, i: nat)
    requires Valid(J) && c < J.world && 0 < d < J.world && i < J.sizes[c]
    requires r == if c + d < J.world then c + d else c + d - J.world
    ensures Exact(J, c, d, i) == J.input[r][c][i] + Exact(J, c, d - 1, i)
  {
  }

  /** Quantizing a partial sum once more. */
  lemma {:induction false} LossyNear(J: Job<real, MinMax.Extremes>, z: Quantizer, b: real, c: nat, d: nat, i: nat)
    requires Valid(J) && z.Valid() && IsSum(J, z) && Bounded(J, b) && z.tiny <= b
    requires c < J.world && d < J.world && i < J.sizes[c]
    ensures Enough(z.Lossy(Partial(J, c, d))[i], Exact(J, c, d, i), b, d + 1, Top(z.k))
    decreases d, 1
  {
    hide PackLaws, IsSum, Partial, Exact, MinMax.Codes, MinMax.Values, Err, Enough, Times;
    var v, m := Partial(J, c, d), Times(d + 1, b);
    forall j | 0 <= j < |v|
      ensures -m <= v[j] <= m
    {
      PartialNear(J, z, b, c, d, j);
    }
    PartialNear(J, z, b, c, d, i);
    Multiples(b, d + 1);
    MinMax.ChunkBound(v, z.big, z.tiny, Top(z.k), -m, m, i);
    OnceMore(v[i], z.Lossy(v)[i], Exact(J, c, d, i), b, d, Top(z.k));
  }

  lemma Multiples(b: real, n: nat)
    requires b >= 0.0 && n > 0
    ensures b <= Times(n, b)
  {
    MinMax.MulLe(1.0, n as real, b);
  }

  /** Every element of the result lies between the exact sum and the exact sum less W(W + 1) B / levels. */
  lemma FinalNear(J: Job<real, MinMax.Extremes>, z: Quantizer, b: real, c: nat, i: nat)
    requires Valid(J) && z.Valid() && IsSum(J, z) && Bounded(J, b) && z.tiny <= b
    requires c < J.world && i < J.sizes[c]
    ensures
      var exact := Fold(Add, Column(J, c, i), 0, J.world);
      exact - Err(b, J.world, Top(z.k)) <= Final(J, c)[i] <= exact
  {
    hide PackLaws, Fold, Lap, Err, Partial;
    LossyNear(J, z, b, c, J.world - 1, i);
    assert Final(J, c)[i] == z.Lossy(Full(J, c))[i] by { ReceivedIsLossy(J, z, Full(J, c)); }
    Rotation(Add, Column(J, c, i), J.world, c);
  }

  /** Every fair run ends with the same buffer on every rank, within the error bound of the exact sum. */
  lemma QuantizedAllReduce(J: Job<real, MinMax.Extremes>, z: Quantizer, b: real, s: Net<real, MinMax.Extremes>,
                           rounds: seq<seq<nat>>, r: nat, c: nat, i: nat)
    requires Valid(J) && z.Valid() && IsSum(J, z) && Bounded(J, b) && z.tiny <= b
    requires Safe(J) && Init(J, s) && |rounds| >= Measure(J, s)
    requires forall j :: 0 <= j < |rounds| ==> Round(J, rounds[j])
    requires r < J.world && c < J.world && i < J.sizes[c]
    ensures Shaped(J, s) && Legal(J, Flat(rounds))
    ensures
      var end := Run(J, s, Flat(rounds));
      var exact := Fold(Add, Column(J, c, i), 0, J.world);
      && end.ranks[r].buf == end.ranks[0].buf
      && exact - Err(b, J.world, Top(z.k)) <= end.ranks[r].buf[c][i] <= exact
  {
    hide PackLaws, Fold, IsSum, Err, Final, Init, Measure, Bounded;
    AllReduceFinishes(J, s, rounds);
    FinalNear(J, z, b, c, i);
  }
}
