/** Min-max quantization over exact reals. */
module MinMax {

  /** Extremes of a chunk, and the values the running minimum and maximum start from: the largest
      representable value, and the smallest positive one (not the most negative one). */
  datatype Extremes = Extremes(lo: real, hi: real)

  function Smaller(a: real, b: real): real { if b < a then b else a }

  function Larger(a: real, b: real): real { if a < b then b else a }

  function MinOf(v: seq<real>, big: real): real {
    if v == [] then big else Smaller(MinOf(v[..|v| - 1], big), v[|v| - 1])
  }

  function MaxOf(v: seq<real>, tiny: real): real {
    if v == [] then tiny else Larger(MaxOf(v[..|v| - 1], tiny), v[|v| - 1])
  }

  function ExtremesOf(v: seq<real>, big: real, tiny: real): Extremes {
    Extremes(MinOf(v, big), MaxOf(v, tiny))
  }

  method FindMinAndMax(src: array<real>, big: real, tiny: real) returns (e: Extremes)
    ensures e == ExtremesOf(src[..], big, tiny)
    ensures e.lo <= big && (e.lo == big || e.lo in src[..]) && tiny <= e.hi && (e.hi == tiny || e.hi in src[..])
    ensures forall i :: 0 <= i < src.Length ==> e.lo <= src[i] <= e.hi
  {
    var lo, hi := big, tiny;
    for i := 0 to src.Length
      invariant lo == MinOf(src[..i], big) && hi == MaxOf(src[..i], tiny)
    {
      assert src[..i + 1][..i] == src[..i];
      lo := Smaller(lo, src[i]);
      hi := Larger(hi, src[i]);
    }
    assert src[..src.Length] == src[..];
    e := Extremes(lo, hi);
    ExtremesAttained(src[..], big, tiny);
    forall i | 0 <= i < src.Length ensures lo <= src[i] <= hi { ExtremesEnclose(src[..], big, tiny, i); }
  }

  /** The extremes enclose the chunk; only the maximum may lie outside it, at its start value. */
  lemma {:induction false} ExtremesEnclose(v: seq<real>, big: real, tiny: real, i: nat)
    requires i < |v|
    ensures MinOf(v, big) <= v[i] <= MaxOf(v, tiny)
    decreases |v|
  {
    if i < |v| - 1 { ExtremesEnclose(v[..|v| - 1], big, tiny, i); }
  }

  /** Each extreme is an element of the chunk or its start value; so they are the least and the largest of these. */
  lemma {:induction false} ExtremesAttained(v: seq<real>, big: real, tiny: real)
    ensures MinOf(v, big) <= big && (MinOf(v, big) == big || MinOf(v, big) in v)
    ensures tiny <= MaxOf(v, tiny) && (MaxOf(v, tiny) == tiny || MaxOf(v, tiny) in v)
    decreases |v|
  {
    if v != [] {
      var front := v[..|v| - 1];
      ExtremesAttained(front, big, tiny);
      assert forall x :: x in front ==> x in v;
      assert v[|v| - 1] in v;
    }
  }

  /** The code of `x` among `top + 1` levels: truncated, not rounded. */
  function Code(x: real, e: Extremes, top: nat): (q: nat)
    requires e.lo <= x <= e.hi && top > 0
    ensures q <= top
  {
    RelativeBound(x, e, top);
    if e.hi != e.lo then
      FloorBound((x - e.lo) / (e.hi - e.lo) * top as real, top);
      ((x - e.lo) / (e.hi - e.lo) * top as real).Floor
    else
      ((x - e.lo) * top as real).Floor
  }

  lemma FloorBound(y: real, top: nat)
    requires 0.0 <= y <= top as real
    ensures 0 <= y.Floor <= top
  {
  }

  lemma RelativeBound(x: real, e: Extremes, top: nat)
    requires e.lo <= x <= e.hi
    ensures e.hi != e.lo ==> 0.0 <= (x - e.lo) / (e.hi - e.lo) * top as real <= top as real
  {
    if e.hi != e.lo {
      var d := e.hi - e.lo;
      var rel := (x - e.lo) / d;
      assert rel * d == x - e.lo;
      UnitInterval(rel, d, x - e.lo);
      Scale(rel, top as real);
    }
  }

  lemma UnitInterval(rel: real, d: real, n: real)
    requires d > 0.0 && rel * d == n && 0.0 <= n <= d
    ensures 0.0 <= rel <= 1.0
  {
  }

  lemma Scale(rel: real, t: real)
    requires 0.0 <= rel <= 1.0 && t >= 0.0
    ensures 0.0 <= rel * t <= t
  {
  }

  /** deQuantizeMinMaxScalar. */
  function Value(q: nat, e: Extremes, top: nat): real
    requires top > 0
  {
    e.lo + (q as real / top as real) * (e.hi - e.lo)
  }

  /** Truncation never raises a value, never leaves the chunk's range, and loses less than one level. */
  lemma HopBound(x: real, e: Extremes, top: nat)
    requires e.lo <= x <= e.hi && top > 0
    ensures e.lo <= Value(Code(x, e, top), e, top) <= x
    ensures x - Value(Code(x, e, top), e, top) <= (e.hi - e.lo) / top as real
  {
    if e.hi != e.lo {
      var d, t := e.hi - e.lo, top as real;
      var rel := (x - e.lo) / d;
      var q := Code(x, e, top);
      RelativeBound(x, e, top);
      assert q as real <= rel * t < q as real + 1.0;
      assert rel * d == x - e.lo;
      Levels(q as real, rel, t, d);
    }
  }

  /** The code is the largest one that stands for no more than the element; in a constant chunk it is zero. */
  lemma CodeIsLargest(x: real, e: Extremes, top: nat, p: nat)
    requires e.lo <= x <= e.hi && top > 0
    ensures e.lo == e.hi ==> Code(x, e, top) == 0
    ensures e.lo < e.hi && Value(p, e, top) <= x ==> p <= Code(x, e, top)
  {
    if e.lo < e.hi && Value(p, e, top) <= x {
      var d, t, q := e.hi - e.lo, top as real, Code(x, e, top);
      var rel := (x - e.lo) / d;
      RelativeBound(x, e, top);
      assert rel * d == x - e.lo;
      DivLe(p as real / t, rel, d);
      MulLe(p as real / t, rel, t);
      assert (p as real / t) * t == p as real;
      assert rel * t < q as real + 1.0;
    }
  }

  lemma Levels(q: real, rel: real, t: real, d: real)
    requires t > 0.0 && d > 0.0 && 0.0 <= q <= rel * t < q + 1.0
    ensures 0.0 <= (q / t) * d <= rel * d <= (q / t) * d + d / t
  {
    var level := q / t;
    assert level * t == q;
    assert 0.0 <= level <= rel by { DivLe(level, rel, t); DivLe(0.0, level, t); }
    assert rel <= level + 1.0 / t by {
      assert (level + 1.0 / t) * t == q + 1.0;
      DivLe(rel, level + 1.0 / t, t);
    }
    MulLe(level, rel, d);
    MulLe(0.0, level, d);
    MulLe(rel, level + 1.0 / t, d);
    assert (level + 1.0 / t) * d == level * d + d / t;
  }

  lemma DivLe(a: real, b: real, t: real)
    requires t > 0.0 && a * t <= b * t
    ensures a <= b
  {
  }

  lemma MulLe(a: real, b: real, d: real)
    requires a <= b && d >= 0.0
    ensures a * d <= b * d
  {
  }

  // Whole chunks ------------------------------------------------------------------------------------

  function Codes(v: seq<real>, big: real, tiny: real, top: nat): (c: seq<nat>)
    requires top > 0
    ensures |c| == |v|
    ensures forall i :: 0 <= i < |c| ==> c[i] <= top
  {
    var e := ExtremesOf(v, big, tiny);
    seq(|v|, i requires 0 <= i < |v| => (ExtremesEnclose(v, big, tiny, i); Code(v[i], e, top)))
  }

  function Values(c: seq<nat>, e: Extremes, top: nat): (v: seq<real>)
    requires top > 0
    ensures |v| == |c|
  {
    seq(|c|, i requires 0 <= i < |c| => Value(c[i], e, top))
  }

  /** The element step of both loops, with the branch for a constant chunk. */
  method QuantizeOne(x: real, e: Extremes, dif: real, top: nat) returns (q: nat)
    requires e.lo <= x <= e.hi && dif == e.hi - e.lo && top > 0
    ensures q == Code(x, e, top) && q <= top
    ensures e.lo <= Value(q, e, top) <= x && x - Value(q, e, top) <= dif / top as real
  {
    RelativeBound(x, e, top);
    HopBound(x, e, top);
    if dif != 0.0 {
      q := ((x - e.lo) / dif * top as real).Floor;
    } else {
      q := ((x - e.lo) * top as real).Floor;
    }
  }

  method MinMaxQuant(dst: array<nat>, src: array<real>, big: real, tiny: real, top: nat) returns (e: Extremes)
    requires dst.Length == src.Length && top > 0
    modifies dst
    ensures e == ExtremesOf(old(src[..]), big, tiny)
    ensures dst[..] == Codes(old(src[..]), big, tiny, top)
  {
    hide Code;
    ghost var v := src[..];
    e := FindMinAndMax(src, big, tiny);
    var dif := e.hi - e.lo;
    for i := 0 to src.Length
      invariant src[..] == v
      invariant forall k :: 0 <= k < i ==> dst[k] == Codes(v, big, tiny, top)[k]
    {
      ExtremesEnclose(v, big, tiny, i);
      dst[i] := QuantizeOne(src[i], e, dif, top);
    }
  }

  /** The fused form stores what a receiver of the codes would compute. */
  method MinMaxQuantAndDequant(dst: array<real>, src: array<real>, big: real, tiny: real, top: nat)
    requires dst.Length == src.Length && dst != src && top > 0
    modifies dst
    ensures dst[..] == Values(Codes(old(src[..]), big, tiny, top), ExtremesOf(old(src[..]), big, tiny), top)
  {
    hide Value, Code;
    ghost var v := src[..];
    var e := FindMinAndMax(src, big, tiny);
    var dif := e.hi - e.lo;
    for i := 0 to src.Length
      invariant src[..] == v
      invariant forall k :: 0 <= k < i ==> dst[k] == Values(Codes(v, big, tiny, top), e, top)[k]
    {
      ExtremesEnclose(v, big, tiny, i);
      var q := QuantizeOne(src[i], e, dif, top);
      dst[i] := Value(q, e, top);
    }
  }

  /** One hop of the ring: a chunk within [lo, hi] comes out within it, no element larger than it was and none smaller by
      more than one level of that range, whichever range encloses the chunk and the start values. */
  lemma ChunkBound(v: seq<real>, big: real, tiny: real, top: nat, lo: real, hi: real, i: nat)
    requires top > 0 && i < |v| && lo <= big && tiny <= hi
    requires forall j :: 0 <= j < |v| ==> lo <= v[j] <= hi
    ensures
      var w := Values(Codes(v, big, tiny, top), ExtremesOf(v, big, tiny), top);
      lo <= w[i] <= v[i] && v[i] - w[i] <= (hi - lo) / top as real
  {
    hide Code, Value;
    var e := ExtremesOf(v, big, tiny);
    ExtremesEnclose(v, big, tiny, i);
    ExtremesAttained(v, big, tiny);
    HopBound(v[i], e, top);
    DivMono(e.hi - e.lo, hi - lo, top as real);
  }

  lemma DivMono(a: real, b: real, t: real)
    requires a <= b && t > 0.0
    ensures a / t <= b / t
  {
    assert (a / t) * t == a && (b / t) * t == b;
    DivLe(a / t, b / t, t);
  }
}
