/** Splitting a vector of elements over the ranks of a ring. */
module Chunks {

  datatype Span = Span(lo: nat, hi: nat) {
    function Size(): int { hi - lo }
  }

  /** First element of chunk `r` when the first `total % world` chunks are one element longer. */
  function Start(total: nat, world: nat, r: nat): nat
    requires world > 0
  {
    var rem := total % world;
    r * (total / world) + if r < rem then r else rem
  }

  function BoundsOf(total: nat, world: nat): seq<Span>
    requires world > 0
  {
    seq(world, r requires 0 <= r < world => Span(Start(total, world, r), Start(total, world, r + 1)))
  }

  /** The spans are in order, leave no gap, do not overlap and cover `0..total`. */
  ghost predicate Partition(b: seq<Span>, total: nat) {
    && |b| > 0
    && b[0].lo == 0
    && b[|b| - 1].hi == total
    && (forall r :: 0 <= r < |b| ==> b[r].lo <= b[r].hi)
    && (forall r :: 0 < r < |b| ==> b[r].lo == b[r - 1].hi)
  }

  lemma StartStep(total: nat, world: nat, r: nat)
    requires world > 0
    ensures Start(total, world, r + 1) == Start(total, world, r) + total / world + if r < total % world then 1 else 0
  {
    assert (r + 1) * (total / world) == r * (total / world) + total / world;
  }

  lemma StartEnds(total: nat, world: nat)
    requires world > 0
    ensures Start(total, world, 0) == 0
    ensures Start(total, world, world) == total
  {
  }

  lemma BoundsAt(total: nat, world: nat, r: nat)
    requires r < world
    ensures |BoundsOf(total, world)| == world
    ensures BoundsOf(total, world)[r] == Span(Start(total, world, r), Start(total, world, r + 1))
    ensures Start(total, world, r) <= Start(total, world, r + 1)
    ensures BoundsOf(total, world)[r].Size() == total / world + if r < total % world then 1 else 0
  {
    hide Start;
    StartStep(total, world, r);
  }

  lemma BoundsPartition(total: nat, world: nat)
    requires world > 0
    ensures Partition(BoundsOf(total, world), total)
    ensures |BoundsOf(total, world)| == world
    ensures forall r :: 0 <= r < world ==>
      BoundsOf(total, world)[r].Size() == total / world + if r < total % world then 1 else 0
  {
    hide Start, BoundsOf;
    StartEnds(total, world);
    BoundsAt(total, world, 0);
    var b := BoundsOf(total, world);
    BoundsAt(total, world, world - 1);
    forall r | 0 <= r < world
      ensures b[r].lo <= b[r].hi && b[r].Size() == total / world + if r < total % world then 1 else 0
    {
      BoundsAt(total, world, r);
    }
    forall r | 0 < r < world ensures b[r].lo == b[r - 1].hi {
      BoundsAt(total, world, r);
      BoundsAt(total, world, r - 1);
    }
  }

  /** The loop of computeChunkBoundaries. */
  method ComputeChunkBoundaries(total: nat, world: nat) returns (b: seq<Span>)
    ensures |b| == world
    ensures world > 0 ==> b == BoundsOf(total, world) && Partition(b, total)
    ensures forall r, s :: 0 <= r < s < world ==> b[s].Size() <= b[r].Size() <= b[s].Size() + 1
  {
    b := [];
    if world == 0 { return; }
    var base, remainder, start := total / world, total % world, 0;
    for r := 0 to world
      invariant |b| == r
      invariant start == Start(total, world, r)
      invariant forall k :: 0 <= k < r ==> b[k] == Span(Start(total, world, k), Start(total, world, k + 1))
    {
      StartStep(total, world, r);
      var size := base + if r < remainder then 1 else 0;
      b := b + [Span(start, start + size)];
      start := start + size;
    }
    BoundsPartition(total, world);
    assert b == BoundsOf(total, world);
  }

  /** Why a plan is refused. */
  datatype PlanError = NotDivisibleByPack | UnsupportedWidth | QuantizationDisabled | MaxChunkUnaligned

  datatype Plan = Planned(bounds: seq<Span>) | Refused(error: PlanError)

  /** Elements per byte-aligned unit of a sub-byte width: 8 / gcd(qbits, 8). */
  function Pack(qbits: nat): (p: nat)
    requires 0 < qbits < 8
    ensures p in {2, 4, 8} && (p * qbits) % 8 == 0
  {
    if qbits % 4 == 0 then 2 else if qbits % 2 == 0 then 4 else 8
  }

  /** So many elements fill whole bytes. */
  predicate FillsBytes(total: nat, qbits: nat) { (total * qbits) % 8 == 0 }

  lemma PackIsLeast(qbits: nat, n: nat)
    requires 0 < qbits < 8 && 0 < n < Pack(qbits)
    ensures !FillsBytes(n, qbits)
  {
    assert qbits in {1, 2, 3, 4, 5, 6, 7} && n in {1, 2, 3, 4, 5, 6, 7};
  }

  /** A number of elements of a sub-byte width fills whole bytes exactly if it is a multiple of the unit. */
  lemma WholeBytes(total: nat, qbits: nat)
    requires 0 < qbits < 8
    ensures total % Pack(qbits) == 0 <==> FillsBytes(total, qbits)
  {
    hide Pack;
    var p, k, r := Pack(qbits), total / Pack(qbits), total % Pack(qbits);
    Regroup(k, p, r, qbits, p * qbits / 8);
    if r > 0 { PackIsLeast(qbits, r); }
  }

  lemma Regroup(k: nat, p: nat, r: nat, q: nat, m: nat)
    requires p * q == 8 * m
    ensures ((k * p + r) * q) % 8 == (r * q) % 8
  {
    calc {
      (k * p + r) * q;
      k * p * q + r * q;
      { assert k * p * q == k * (p * q); }
      k * (8 * m) + r * q;
      8 * (k * m) + r * q;
    }
  }

  /** Elements that must stay together in one chunk. */
  function Unit(qbits: nat, quantizing: bool): (p: nat)
    requires 0 < qbits
    ensures p > 0
  {
    if quantizing && qbits < 8 then Pack(qbits) else 1
  }

  function Scaled(b: seq<Span>, pack: nat): seq<Span> {
    seq(|b|, i requires 0 <= i < |b| => Span(b[i].lo * pack, b[i].hi * pack))
  }

  lemma ScaledPartition(b: seq<Span>, pack: nat, units: nat)
    requires Partition(b, units)
    requires pack > 0
    ensures Partition(Scaled(b, pack), units * pack)
  {
    forall r | 0 <= r < |b|
      ensures Scaled(b, pack)[r].lo <= Scaled(b, pack)[r].hi
    {
      MulMono(b[r].lo, b[r].hi, pack);
    }
  }

  lemma MulMono(a: nat, b: nat, k: nat)
    requires a <= b
    ensures a * k <= b * k
  {
  }

  ghost predicate AllNonEmpty(b: seq<Span>) {
    forall r :: 0 <= r < |b| ==> b[r].Size() > 0
  }

  /** Every boundary is a multiple of the unit, and every chunk fills whole bytes when packed. */
  ghost predicate Aligned(b: seq<Span>, unit: nat, qbits: nat)
    requires unit > 0
  {
    forall r :: 0 <= r < |b| ==>
      b[r].lo % unit == 0 && b[r].hi % unit == 0 && (b[r].Size() * qbits) % 8 == 0
  }

  /** When the parameters are ones pipelineRingReduce accepts. */
  predicate Plannable(total: nat, qbits: nat, differs: bool, algorithmNone: bool)
    requires qbits > 0
  {
    && (if differs && !algorithmNone && qbits < 8 then total % Pack(qbits) == 0 else qbits % 8 == 0)
    && !(algorithmNone && differs)
  }

  /** What an accepted plan satisfies. */
  ghost predicate GoodPlan(b: seq<Span>, total: nat, world: nat, qbits: nat, usingQuant: bool)
    requires world > 0 && qbits > 0
  {
    var unit := Unit(qbits, usingQuant);
    && |b| == world
    && b == Scaled(BoundsOf(total / unit, world), unit)
    && Partition(b, total)
    && Aligned(b, unit, qbits)
    && (AllNonEmpty(b) <==> total >= world * unit)
  }

  /** The boundaries pipelineRingReduce works with, or the error it stops on. */
  method PlanChunks(total: nat, world: nat, qbits: nat, differs: bool, algorithmNone: bool) returns (plan: Plan)
    requires world > 0 && qbits > 0
    ensures plan == Refused(NotDivisibleByPack) <==> differs && !algorithmNone && qbits < 8 && !FillsBytes(total, qbits)
    ensures plan == Refused(UnsupportedWidth) <==> !(differs && !algorithmNone && qbits < 8) && qbits % 8 != 0
    ensures plan == Refused(QuantizationDisabled) <==> differs && algorithmNone && qbits % 8 == 0
    ensures plan != Refused(MaxChunkUnaligned)
    ensures plan.Planned? <==> Plannable(total, qbits, differs, algorithmNone)
    ensures plan.Planned? ==> GoodPlan(plan.bounds, total, world, qbits, differs && !algorithmNone)
  {
    hide FillsBytes, GoodPlan, Aligned;
    var usingQuant := differs && !algorithmNone;
    var unit := Unit(qbits, usingQuant);
    var bounds: seq<Span>;
    if usingQuant && qbits < 8 {
      WholeBytes(total, qbits);
      if total % unit != 0 {
        return Refused(NotDivisibleByPack);
      }
      var unitBounds := ComputeChunkBoundaries(total / unit, world);
      bounds := ScaleBounds(unitBounds, unit);
    } else {
      bounds := ComputeChunkBoundaries(total, world);
      if qbits % 8 != 0 {
        return Refused(UnsupportedWidth);
      }
      assert bounds == Scaled(bounds, 1);
    }
    if algorithmNone && differs {
      return Refused(QuantizationDisabled);
    }
    PlanFacts(total, world, qbits, usingQuant);
    var maxChunk := MaxChunk(bounds, unit, qbits);
    if (maxChunk * qbits) % 8 != 0 {
      return Refused(MaxChunkUnaligned);
    }
    plan := Planned(bounds);
  }

  method ScaleBounds(unitBounds: seq<Span>, pack: nat) returns (bounds: seq<Span>)
    ensures bounds == Scaled(unitBounds, pack)
  {
    bounds := [];
    for i := 0 to |unitBounds|
      invariant |bounds| == i
      invariant forall k :: 0 <= k < i ==> bounds[k] == Scaled(unitBounds, pack)[k]
    {
      bounds := bounds + [Span(unitBounds[i].lo * pack, unitBounds[i].hi * pack)];
    }
  }

  /** Size of the largest chunk, which sizes the receive buffer. */
  method MaxChunk(bounds: seq<Span>, unit: nat, qbits: nat) returns (m: nat)
    requires unit > 0 && Aligned(bounds, unit, qbits)
    ensures forall r :: 0 <= r < |bounds| ==> bounds[r].Size() <= m
    ensures m > 0 ==> exists r :: 0 <= r < |bounds| && bounds[r].Size() == m
    ensures (m * qbits) % 8 == 0
  {
    m := 0;
    for r := 0 to |bounds|
      invariant forall k :: 0 <= k < r ==> bounds[k].Size() <= m
      invariant m > 0 ==> exists k :: 0 <= k < r && bounds[k].Size() == m
    {
      var size := if bounds[r].hi > bounds[r].lo then bounds[r].hi - bounds[r].lo else 0;
      if size > m {
        m := size;
      }
    }
  }

  lemma UnitMultiple(k: int, unit: nat, qbits: nat)
    requires unit > 0 && (unit * qbits) % 8 == 0
    ensures (k * unit) % unit == 0
    ensures (k * unit * qbits) % 8 == 0
  {
    var m := (unit * qbits) / 8;
    calc {
      k * unit * qbits;
      k * (unit * qbits);
      k * (8 * m);
      8 * (k * m);
    }
  }

  lemma ScaledAt(b: Span, unit: nat, qbits: nat)
    requires unit > 0 && (unit * qbits) % 8 == 0
    ensures (b.lo * unit) % unit == 0 && (b.hi * unit) % unit == 0
    ensures ((b.hi * unit - b.lo * unit) * qbits) % 8 == 0
    ensures b.hi * unit - b.lo * unit > 0 <==> b.Size() > 0
  {
    UnitMultiple(b.lo, unit, qbits);
    UnitMultiple(b.hi, unit, qbits);
    UnitMultiple(b.hi - b.lo, unit, qbits);
    assert (b.hi - b.lo) * unit == b.hi * unit - b.lo * unit;
    PosScaled(b.hi - b.lo, unit);
  }

  lemma ScaledFacts(ub: seq<Span>, unit: nat, qbits: nat)
    requires unit > 0 && (unit * qbits) % 8 == 0
    ensures Aligned(Scaled(ub, unit), unit, qbits)
    ensures AllNonEmpty(Scaled(ub, unit)) <==> AllNonEmpty(ub)
  {
    var b := Scaled(ub, unit);
    forall r | 0 <= r < |ub|
      ensures b[r].lo % unit == 0 && b[r].hi % unit == 0 && (b[r].Size() * qbits) % 8 == 0
      ensures b[r].Size() > 0 <==> ub[r].Size() > 0
    {
      ScaledAt(ub[r], unit, qbits);
    }
  }

  /** What the scaled boundaries satisfy. */
  lemma PlanFacts(total: nat, world: nat, qbits: nat, usingQuant: bool)
    requires world > 0 && qbits > 0
    requires (usingQuant && qbits < 8) || qbits % 8 == 0
    requires total % Unit(qbits, usingQuant) == 0
    ensures GoodPlan(Scaled(BoundsOf(total / Unit(qbits, usingQuant), world), Unit(qbits, usingQuant)),
                     total, world, qbits, usingQuant)
  {
    var unit := Unit(qbits, usingQuant);
    var units := total / unit;
    assert units * unit == total;
    BoundsPartition(units, world);
    ScaledPartition(BoundsOf(units, world), unit, units);
    ScaledFacts(BoundsOf(units, world), unit, qbits);
    NonEmptyIff(units, world);
    AtLeastScaled(units, world, unit);
  }

  lemma AtLeastScaled(a: nat, b: nat, k: nat)
    requires k > 0
    ensures a * k >= b * k <==> a >= b
  {
    if a >= b { MulMono(b, a, k); } else { MulMono(a + 1, b, k); }
  }

  lemma PosScaled(a: int, k: nat)
    requires k > 0
    ensures a * k > 0 <==> a > 0
  {
  }

  lemma NonEmptyIff(total: nat, world: nat)
    requires world > 0
    ensures AllNonEmpty(BoundsOf(total, world)) <==> total >= world
  {
    BoundsPartition(total, world);
    var b := BoundsOf(total, world);
    SmallDivision(total, world);
    if total < world {
      assert b[total].Size() == 0;
    }
  }

  lemma SmallDivision(total: nat, world: nat)
    requires world > 0
    ensures total >= world ==> total / world >= 1
    ensures total < world ==> total / world == 0 && total % world == total
  {
  }
}
