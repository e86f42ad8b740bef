/** Reducing a chunk while its bytes are still arriving, for whole-byte and packed sub-byte elements. */
module Streaming {

  type Byte = x: int | 0 <= x < 256

  /** Where one packed element sits: bytes of its own, or a bit field inside one byte. */
  datatype Slot = Whole(bytes: seq<Byte>) | Field(container: Byte, shift: nat)

  /** Element widths in bits: 1, 2, 4 or a multiple of 8. */
  predicate ValidWidth(q: nat) {
    q == 1 || q == 2 || q == 4 || (q > 0 && q % 8 == 0)
  }

  /** Fewest bytes that hold a whole number of elements. */
  function UnitBytes(q: nat): (u: nat)
    requires ValidWidth(q)
    ensures u > 0
  {
    if q % 8 == 0 then q / 8 else 1
  }

  /** The elements packed into one unit. */
  function UnitSlots(bs: seq<Byte>, q: nat): (s: seq<Slot>)
    requires ValidWidth(q) && |bs| == UnitBytes(q)
    ensures |s| == PerUnit(q)
  {
    if q % 8 == 0 then [Whole(bs)]
    else seq(8 / q, i requires 0 <= i < 8 / q => Field(bs[0], i * q))
  }

  /** All complete elements of a byte sequence, in order. */
  function Slots(w: seq<Byte>, q: nat): (s: seq<Slot>)
    requires ValidWidth(q)
  {
    var u := UnitBytes(q);
    if |w| < u then [] else UnitSlots(w[..u], q) + Slots(w[u..], q)
  }

  lemma Distribute(n: nat, d: nat, b: nat)
    ensures (n + d) * b == n * b + d * b
  {
  }

  lemma DivAdd(a: nat, b: nat, n: nat, c: nat)
    requires b > 0 && a == n * b
    ensures (a + c) / b == n + c / b
  {
    var d, r := c / b, c % b;
    assert c == d * b + r;
    Distribute(n, d, b);
    DivUnique(a + c, b, n + d, r);
  }

  lemma DivUnique(a: nat, b: nat, d: nat, r: nat)
    requires b > 0 && r < b && a == d * b + r
    ensures a / b == d
  {
    var e := a / b;
    assert e * b <= a < (e + 1) * b;
    if e < d { MulLe(e + 1, d, b); } else if d < e { MulLe(d + 1, e, b); }
  }

  lemma MulLe(a: nat, b: nat, k: nat)
    requires a <= b
    ensures a * k <= b * k
  {
  }

  lemma EightMore(u: nat, k: nat)
    ensures (8 * u + k) % 8 == k % 8
  {
  }

  lemma CountStep(n: nat, u: nat, q: nat, m: nat, bytes: nat)
    requires q > 0 && n * q == 8 * u
    requires m == (bytes * 8) / q && m * q <= 8 * bytes && (m * q) % 8 == 0
    ensures n + m == ((u + bytes) * 8) / q
    ensures (n + m) * q <= 8 * (u + bytes)
    ensures ((n + m) * q) % 8 == 0
  {
    assert (u + bytes) * 8 == 8 * u + bytes * 8;
    Distribute(n, m, q);
    EightMore(u, m * q);
    DivAdd(8 * u, q, n, bytes * 8);
  }

  /** Elements per unit. */
  function PerUnit(q: nat): nat
    requires ValidWidth(q)
  {
    if q % 8 == 0 then 1 else 8 / q
  }

  /** Number of complete elements in `n` bytes. */
  ghost function Count(n: nat, q: nat): nat
    requires ValidWidth(q)
  {
    if n < UnitBytes(q) then 0 else PerUnit(q) + Count(n - UnitBytes(q), q)
  }

  /** The source's floor arithmetic counts the complete elements. */
  lemma {:induction false} CountIsFloor(n: nat, q: nat)
    requires ValidWidth(q)
    ensures Count(n, q) == (n * 8) / q
    ensures Count(n, q) * q <= 8 * n && (Count(n, q) * q) % 8 == 0
  {
    var u := UnitBytes(q);
    if n < u {
      SmallQuotient(n * 8, q);
    } else {
      CountIsFloor(n - u, q);
      assert PerUnit(q) * q == 8 * u;
      CountStep(PerUnit(q), u, q, Count(n - u, q), n - u);
    }
  }

  lemma {:induction false} SlotsLength(w: seq<Byte>, q: nat)
    requires ValidWidth(q)
    ensures |Slots(w, q)| == Count(|w|, q)
    decreases |w|
  {
    if |w| >= UnitBytes(q) {
      SlotsLength(w[UnitBytes(q)..], q);
    }
  }

  lemma SlotsCount(w: seq<Byte>, q: nat)
    requires ValidWidth(q)
    ensures |Slots(w, q)| == (|w| * 8) / q
    ensures |Slots(w, q)| * q <= 8 * |w|
  {
    SlotsLength(w, q);
    CountIsFloor(|w|, q);
  }

  /** Whether `n` elements fill whole bytes. */
  function Aligned(n: nat, q: nat): bool
    requires ValidWidth(q)
  {
    if n < PerUnit(q) then n == 0 else Aligned(n - PerUnit(q), q)
  }

  /** Bytes of `n` packed elements. */
  function PackedBytes(n: nat, q: nat): nat
    requires ValidWidth(q)
  {
    if n < PerUnit(q) then 0 else UnitBytes(q) + PackedBytes(n - PerUnit(q), q)
  }

  lemma {:induction false} PackedCount(n: nat, q: nat)
    requires ValidWidth(q) && Aligned(n, q)
    ensures Count(PackedBytes(n, q), q) == n
  {
    if n >= PerUnit(q) { PackedCount(n - PerUnit(q), q); }
  }

  lemma {:induction false} CountMonotone(a: nat, b: nat, q: nat)
    requires ValidWidth(q) && a <= b
    ensures Count(a, q) <= Count(b, q)
  {
    if a >= UnitBytes(q) { CountMonotone(a - UnitBytes(q), b - UnitBytes(q), q); }
  }

  /** The source's size arithmetic: `n` elements are byte-aligned iff their bits are a multiple of 8, and then
      take (n * q) / 8 bytes. */
  lemma {:induction false} PackedArithmetic(n: nat, q: nat)
    requires ValidWidth(q)
    ensures Aligned(n, q) <==> (n * q) % 8 == 0
    ensures Aligned(n, q) ==> PackedBytes(n, q) == (n * q) / 8
  {
    var k := PerUnit(q);
    if n >= k {
      PackedArithmetic(n - k, q);
      UnitBits(n - k, q);
    } else {
      SubUnit(n, q);
    }
  }

  lemma UnitBits(n: nat, q: nat)
    requires ValidWidth(q)
    ensures ((n + PerUnit(q)) * q) / 8 == (n * q) / 8 + UnitBytes(q)
    ensures ((n + PerUnit(q)) * q) % 8 == (n * q) % 8
  {
    assert PerUnit(q) * q == 8 * UnitBytes(q);
    assert (n + PerUnit(q)) * q == n * q + 8 * UnitBytes(q);
  }

  lemma SubUnit(n: nat, q: nat)
    requires ValidWidth(q) && n < PerUnit(q)
    ensures (n * q) % 8 == 0 <==> n == 0
  {
  }

  lemma SmallQuotient(a: nat, b: nat)
    requires a < b
    ensures a / b == 0
  {
  }

  /** A chunk of `m` packed elements that fills its bytes exactly. */
  lemma ExactCount(w: seq<Byte>, m: nat, q: nat)
    requires ValidWidth(q) && |w| * 8 == m * q
    ensures |Slots(w, q)| == m
  {
    SlotsCount(w, q);
    DivUnique(|w| * 8, q, m, 0);
  }

  /** Byte offset at which the element after `n` others starts. */
  function Offset(n: nat, q: nat): nat {
    (n * q) / 8
  }

  /** How many of `n` bytes belong to complete units of `u` bytes. */
  ghost function Consumed(n: nat, u: nat): (c: nat)
    requires u > 0
    ensures c <= n < c + u
  {
    if n < u then 0 else u + Consumed(n - u, u)
  }

  lemma {:induction false} ConsumedAgain(n: nat, u: nat)
    requires u > 0
    ensures Consumed(Consumed(n, u), u) == Consumed(n, u)
  {
    if n >= u { ConsumedAgain(n - u, u); }
  }

  lemma OffsetUnit(n: nat, m: nat, u: nat, q: nat)
    requires n * q == 8 * u
    ensures Offset(n + m, q) == u + Offset(m, q)
  {
    assert (n + m) * q == 8 * u + m * q;
  }

  lemma {:induction false} OffsetCount(n: nat, q: nat)
    requires ValidWidth(q)
    ensures Offset(Count(n, q), q) == Consumed(n, UnitBytes(q))
  {
    var u := UnitBytes(q);
    if n >= u {
      OffsetCount(n - u, q);
      assert PerUnit(q) * q == 8 * u;
      OffsetUnit(PerUnit(q), Count(n - u, q), u, q);
    }
  }

  lemma OffsetConsumed(w: seq<Byte>, q: nat)
    requires ValidWidth(q)
    ensures Offset(|Slots(w, q)|, q) == Consumed(|w|, UnitBytes(q))
  {
    SlotsLength(w, q);
    OffsetCount(|w|, q);
  }

  lemma SlotsCons(bs: seq<Byte>, tail: seq<Byte>, q: nat)
    requires ValidWidth(q) && |bs| == UnitBytes(q)
    ensures Slots(bs + tail, q) == UnitSlots(bs, q) + Slots(tail, q)
  {
    assert (bs + tail)[..|bs|] == bs && (bs + tail)[|bs|..] == tail;
  }

  /** Elements do not straddle a boundary between whole units. */
  lemma {:induction false} SlotsConcat(a: seq<Byte>, b: seq<Byte>, q: nat)
    requires ValidWidth(q) && Consumed(|a|, UnitBytes(q)) == |a|
    ensures Slots(a + b, q) == Slots(a, q) + Slots(b, q)
    decreases |a|
  {
    var u := UnitBytes(q);
    if |a| < u {
      assert a + b == b;
    } else {
      var bs, rest := a[..u], a[u..];
      assert Slots(a + b, q) == UnitSlots(bs, q) + Slots(rest + b, q) by {
        assert a + b == bs + (rest + b);
        SlotsCons(bs, rest + b, q);
      }
      SlotsConcat(rest, b, q);
      Assoc(UnitSlots(bs, q), Slots(rest, q), Slots(b, q));
    }
  }

  lemma Assoc<T>(a: seq<T>, b: seq<T>, c: seq<T>)
    ensures a + (b + c) == (a + b) + c
  {
  }

  /** The elements of `w` are those of its first `c` bytes and those of the rest, when `c` is a whole number
      of units. */
  lemma SlotsAt(w: seq<Byte>, c: nat, q: nat)
    requires ValidWidth(q) && c <= |w| && Consumed(c, UnitBytes(q)) == c
    ensures Slots(w, q) == Slots(w[..c], q) + Slots(w[c..], q)
  {
    SplitJoin(w, c);
    SlotsConcat(w[..c], w[c..], q);
  }

  lemma SplitJoin<T>(w: seq<T>, c: nat)
    requires c <= |w|
    ensures w == w[..c] + w[c..]
  {
  }

  /** Trailing bytes that complete no element do not matter. */
  lemma SlotsTrim(w: seq<Byte>, q: nat)
    requires ValidWidth(q)
    ensures Slots(w[..Consumed(|w|, UnitBytes(q))], q) == Slots(w, q)
  {
    var c := Consumed(|w|, UnitBytes(q));
    ConsumedAgain(|w|, UnitBytes(q));
    SlotsAt(w, c, q);
    assert Slots(w[c..], q) == [];
  }

  /** The elements of a prefix come first; the rest are those of what starts at the prefix's last
      complete element. */
  lemma SlotsSplit(w: seq<Byte>, have: nat, q: nat)
    requires ValidWidth(q)
    requires have <= |w|
    ensures Slots(w, q) == Slots(w[..have], q) + Slots(w[Consumed(have, UnitBytes(q))..], q)
  {
    hide Slots;
    var c := Consumed(have, UnitBytes(q));
    ConsumedAgain(have, UnitBytes(q));
    assert Slots(w[..c], q) == Slots(w[..have], q) by {
      SlotsTrim(w[..have], q);
      assert w[..have][..c] == w[..c];
    }
    SlotsAt(w, c, q);
  }

  /** The chunk after its first `|s|` elements were combined with the elements `s`. */
  function Streamed<E>(before: seq<E>, s: seq<Slot>, f: (E, Slot) -> E): (after: seq<E>)
    requires |s| <= |before|
    ensures |after| == |before|
  {
    seq(|before|, i requires 0 <= i < |before| => if i < |s| then f(before[i], s[i]) else before[i])
  }

  /** A kernel call: the elements `s` of a window are combined into `dst[at..]`. */
  function Kernel<E>(dst: seq<E>, at: nat, s: seq<Slot>, f: (E, Slot) -> E): (after: seq<E>)
    requires at + |s| <= |dst|
    ensures |after| == |dst|
  {
    seq(|dst|, i requires 0 <= i < |dst| => if at <= i < at + |s| then f(dst[i], s[i - at]) else dst[i])
  }

  lemma StreamedAppend<E>(before: seq<E>, s: seq<Slot>, t: seq<Slot>, f: (E, Slot) -> E)
    requires |s| + |t| <= |before|
    ensures Kernel(Streamed(before, s, f), |s|, t, f) == Streamed(before, s + t, f)
  {
  }

  /** The source window of a frame: `have` bytes of `w` were there before, `have + got` are there now. */
  function Window(w: seq<Byte>, have: nat, got: nat, q: nat): (src: seq<Byte>)
    requires ValidWidth(q)
    requires have + got <= |w|
    ensures Slots(w[..have + got], q) == Slots(w[..have], q) + Slots(src, q)
  {
    WindowOk(w, have, got, q);
    var oldFloor := (have * 8) / q;
    var newFloor := ((have + got) * 8) / q;
    w[Offset(oldFloor, q)..Offset(oldFloor, q) + Offset(newFloor - oldFloor, q)]
  }

  /** The window is in bounds and holds exactly the elements the frame completes. */
  lemma WindowOk(w: seq<Byte>, have: nat, got: nat, q: nat)
    requires ValidWidth(q)
    requires have + got <= |w|
    ensures (have * 8) / q == |Slots(w[..have], q)| <= |Slots(w[..have + got], q)| == ((have + got) * 8) / q
    ensures
      var a := (have * 8) / q;
      var size := Offset(((have + got) * 8) / q - a, q);
      && Offset(a, q) + size <= have + got
      && Slots(w[..have + got], q) == Slots(w[..have], q) + Slots(w[Offset(a, q)..Offset(a, q) + size], q)
  {
    var a := |Slots(w[..have], q)|;
    var b := |Slots(w[..have + got], q)|;
    WindowSlots(w, have, have + got, q, a, b);
    FloorIs(w, have, q);
    FloorIs(w, have + got, q);
  }

  lemma FloorIs(w: seq<Byte>, n: nat, q: nat)
    requires ValidWidth(q) && n <= |w|
    ensures (n * 8) / q == |Slots(w[..n], q)|
  {
    SlotsCount(w[..n], q);
  }

  lemma WindowSlots(w: seq<Byte>, have: nat, now: nat, q: nat, a: nat, b: nat)
    requires ValidWidth(q)
    requires have <= now <= |w|
    requires a == |Slots(w[..have], q)| && b == |Slots(w[..now], q)|
    ensures a <= b && Offset(a, q) + Offset(b - a, q) <= now
    ensures Slots(w[..now], q) == Slots(w[..have], q) + Slots(w[Offset(a, q)..Offset(a, q) + Offset(b - a, q)], q)
  {
    var v := w[..now];
    var o := Consumed(have, UnitBytes(q));
    assert Slots(v, q) == Slots(w[..have], q) + Slots(v[o..], q) by {
      assert v[..have] == w[..have];
      SlotsSplit(v, have, q);
    }
    assert Offset(a, q) == o by { OffsetConsumed(w[..have], q); }
    TrimmedWindow(w, o, now, q, b - a);
  }

  lemma TrimmedWindow(w: seq<Byte>, o: nat, now: nat, q: nat, n: nat)
    requires ValidWidth(q)
    requires o <= now <= |w| && n == |Slots(w[..now][o..], q)|
    ensures o + Offset(n, q) <= now
    ensures Slots(w[o..o + Offset(n, q)], q) == Slots(w[..now][o..], q)
  {
    var v := w[..now][o..];
    SlotsTrim(v, q);
    OffsetConsumed(v, q);
    var size := Consumed(|v|, UnitBytes(q));
    assert v[..size] == w[o..o + size];
  }

  /** What one received frame does to the chunk, with the arithmetic of the source. */
  function Absorb<E>(dst: seq<E>, w: seq<Byte>, have: nat, got: nat, q: nat, f: (E, Slot) -> E): (after: seq<E>)
    requires ValidWidth(q)
    requires have + got <= |w|
    requires |Slots(w[..have + got], q)| <= |dst|
    ensures |after| == |dst|
  {
    var oldFloor := (have * 8) / q;
    var newFloor := ((have + got) * 8) / q;
    WindowOk(w, have, got, q);
    if newFloor > oldFloor then Kernel(dst, oldFloor, Slots(Window(w, have, got, q), q), f) else dst
  }

  /** Absorbing a frame extends the streamed prefix, wherever the frame is cut. */
  lemma AbsorbStep<E>(before: seq<E>, w: seq<Byte>, have: nat, got: nat, q: nat, f: (E, Slot) -> E)
    requires ValidWidth(q)
    requires have + got <= |w|
    requires |Slots(w[..have], q)| <= |before|
    requires |Slots(w[..have + got], q)| <= |before|
    ensures Absorb(Streamed(before, Slots(w[..have], q), f), w, have, got, q, f)
         == Streamed(before, Slots(w[..have + got], q), f)
  {
    WindowOk(w, have, got, q);
    var a := (have * 8) / q;
    var b := ((have + got) * 8) / q;
    if b > a {
      StreamedAppend(before, Slots(w[..have], q), Slots(Window(w, have, got, q), q), f);
    } else {
      assert |Slots(w[..have + got], q)| == |Slots(w[..have], q)|;
    }
  }

  function Joined(frames: seq<seq<Byte>>): seq<Byte> {
    if frames == [] then [] else Joined(frames[..|frames| - 1]) + frames[|frames| - 1]
  }

  lemma JoinedNext(frames: seq<seq<Byte>>, k: nat)
    requires k < |frames|
    ensures Joined(frames[..k + 1]) == Joined(frames[..k]) + frames[k]
  {
    assert frames[..k + 1][..k] == frames[..k];
  }

  lemma {:induction false} JoinedPrefix(frames: seq<seq<Byte>>, k: nat)
    requires k <= |frames|
    ensures Joined(frames[..k]) <= Joined(frames)
    decreases |frames| - k
  {
    if k < |frames| {
      JoinedPrefix(frames, k + 1);
      JoinedNext(frames, k);
      PrefixTrans(Joined(frames[..k]), frames[k], Joined(frames));
    } else {
      assert frames[..k] == frames;
    }
  }

  lemma PrefixTrans(a: seq<Byte>, b: seq<Byte>, c: seq<Byte>)
    requires a + b <= c
    ensures a <= c
  {
  }

  lemma {:induction false} SlotsPrefix(a: seq<Byte>, b: seq<Byte>, q: nat)
    requires ValidWidth(q)
    requires a <= b
    ensures |Slots(a, q)| <= |Slots(b, q)|
  {
    SlotsSplit(b, |a|, q);
    assert b[..|a|] == a;
  }

  /** Where element `i` sits: its bits start at bit `i * q` of the stream, low bits of a byte first. */
  lemma {:induction false} SlotPlace(w: seq<Byte>, q: nat, i: nat)
    requires ValidWidth(q) && i < |Slots(w, q)|
    ensures q < 8 ==> i * q / 8 < |w| && Slots(w, q)[i] == Field(w[i * q / 8], i * q % 8)
    ensures q >= 8 ==> (i + 1) * (q / 8) <= |w| && Slots(w, q)[i] == Whole(w[i * (q / 8)..(i + 1) * (q / 8)])
    decreases |w|
  {
    var u, n := UnitBytes(q), PerUnit(q);
    if i >= n {
      SlotPlace(w[u..], q, i - n);
      if q < 8 { EarlierBit(i, q); } else { EarlierUnit(w, i, u); }
    } else if q < 8 {
      FirstBits(i, q);
    }
  }

  lemma EarlierBit(i: nat, q: nat)
    requires (q == 1 || q == 2 || q == 4) && i >= 8 / q
    ensures (i - 8 / q) * q + 8 == i * q && i * q / 8 == (i - 8 / q) * q / 8 + 1 && i * q % 8 == (i - 8 / q) * q % 8
  {
  }

  lemma FirstBits(i: nat, q: nat)
    requires (q == 1 || q == 2 || q == 4) && i < 8 / q
    ensures i * q / 8 == 0 && i * q % 8 == i * q
  {
  }

  lemma EarlierUnit(w: seq<Byte>, i: nat, u: nat)
    requires i > 0 && u <= |w| && i * u <= |w| - u
    ensures (i - 1) * u + u == i * u && (i + 1) * u == i * u + u
    ensures w[u..][(i - 1) * u..i * u] == w[i * u..(i + 1) * u]
  {
    OneFurther(i, u);
    OneFurther(i - 1, u);
    var at := i * u;
    assert (i - 1) * u == at - u && (i + 1) * u == at + u;
  }

  /** The first bit of element `i`. */
  function BitOf(i: nat, q: nat): nat { i * q }

  function BytesFrom(w: seq<Byte>, at: nat, n: nat): seq<Byte> {
    if at + n <= |w| then w[at..at + n] else []
  }

  lemma Placed<E>(after: seq<E>, before: seq<E>, w: seq<Byte>, q: nat, f: (E, Slot) -> E)
    requires ValidWidth(q) && |Slots(w, q)| == |before| && after == Streamed(before, Slots(w, q), f)
    ensures q < 8 ==> forall i :: 0 <= i < |after| ==>
      BitOf(i, q) / 8 < |w| && after[i] == f(before[i], Field(w[BitOf(i, q) / 8], BitOf(i, q) % 8))
    ensures q >= 8 ==> forall i :: 0 <= i < |after| ==> after[i] == f(before[i], Whole(BytesFrom(w, i * (q / 8), q / 8)))
  {
    hide Slots;
    forall i | 0 <= i < |after|
      ensures q < 8 ==> BitOf(i, q) / 8 < |w| && after[i] == f(before[i], Field(w[BitOf(i, q) / 8], BitOf(i, q) % 8))
      ensures q >= 8 ==> after[i] == f(before[i], Whole(BytesFrom(w, i * (q / 8), q / 8)))
    {
      SlotPlace(w, q, i);
      OneFurther(i, q / 8);
    }
  }

  lemma OneFurther(i: nat, u: nat)
    ensures (i + 1) * u == i * u + u
  {
  }

  /** The receive half of runReduceStage and runAllgatherStage: the frames arrive one by one, each is copied
      behind what was received before, and the elements it completes are reduced in place. Element `i` is combined with
      the bits from `i * q` on, wherever the stream was cut. */
  method ReceiveChunk<E>(rx: array<E>, frames: seq<seq<Byte>>, q: nat, f: (E, Slot) -> E)
    requires ValidWidth(q)
    requires |Joined(frames)| * 8 == rx.Length * q
    modifies rx
    ensures |Slots(Joined(frames), q)| == rx.Length
    ensures rx[..] == Streamed(old(rx[..]), Slots(Joined(frames), q), f)
    ensures q < 8 ==> forall i :: 0 <= i < rx.Length ==>
      BitOf(i, q) / 8 < |Joined(frames)| && rx[i] == f(old(rx[i]), Field(Joined(frames)[BitOf(i, q) / 8], BitOf(i, q) % 8))
    ensures q >= 8 ==> forall i :: 0 <= i < rx.Length ==>
      rx[i] == f(old(rx[i]), Whole(BytesFrom(Joined(frames), i * (q / 8), q / 8)))
  {
    ghost var before := rx[..];
    ExactCount(Joined(frames), rx.Length, q);
    var buffer: seq<Byte> := [];
    for n := 0 to |frames|
      invariant buffer == Joined(frames[..n])
      invariant |Slots(buffer, q)| <= rx.Length
      invariant rx[..] == Streamed(before, Slots(buffer, q), f)
    {
      JoinedNext(frames, n);
      JoinedPrefix(frames, n + 1);
      SlotsPrefix(buffer + frames[n], Joined(frames), q);
      ReceiveFrame(rx, buffer, frames[n], q, f, before);
      buffer := buffer + frames[n];
    }
    assert frames[..|frames|] == frames;
    Placed(rx[..], before, Joined(frames), q, f);
  }

  /** One iteration: `buffer` was received before, `frame` is what just arrived. */
  method ReceiveFrame<E>(rx: array<E>, buffer: seq<Byte>, frame: seq<Byte>, q: nat, f: (E, Slot) -> E,
                         ghost before: seq<E>)
    requires ValidWidth(q)
    requires |before| == rx.Length
    requires |Slots(buffer, q)| <= rx.Length && |Slots(buffer + frame, q)| <= rx.Length
    requires rx[..] == Streamed(before, Slots(buffer, q), f)
    modifies rx
    ensures rx[..] == Streamed(before, Slots(buffer + frame, q), f)
  {
    hide Slots, Streamed, Kernel;
    var w := buffer + frame;
    var have, got := |buffer|, |frame|;
    assert w[..have] == buffer && w[..have + got] == w;
    AbsorbStep(before, w, have, got, q, f);
    WindowOk(w, have, got, q);
    var oldFloor := (have * 8) / q;
    var newFloor := ((have + got) * 8) / q;
    if newFloor > oldFloor {
      ReduceWindow(rx, oldFloor, Window(w, have, got, q), q, f);
    }
  }

  /** performReduction on one window: an element loop over `dst[at..]`. */
  method ReduceWindow<E>(dst: array<E>, at: nat, src: seq<Byte>, q: nat, f: (E, Slot) -> E)
    requires ValidWidth(q)
    requires at + |Slots(src, q)| <= dst.Length
    modifies dst
    ensures dst[..] == Kernel(old(dst[..]), at, Slots(src, q), f)
  {
    var s := Slots(src, q);
    for i := 0 to |s|
      invariant forall j :: 0 <= j < dst.Length ==>
        dst[j] == if at <= j < at + i then f(old(dst[j]), s[j - at]) else old(dst[j])
    {
      dst[at + i] := f(dst[at + i], s[i]);
    }
  }
}
