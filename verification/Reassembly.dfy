/** The server's reassembly of length-prefixed packets from the fragments a TCP stream arrives in. */
module Reassembly {

  type Byte = x: int | 0 <= x < 256

  // Big-endian integers -----------------------------------------------------------------------------

  function Pow(k: nat): (p: nat)
    ensures p > 0
  {
    if k == 0 then 1 else 256 * Pow(k - 1)
  }

  /** `value` in `k` bytes, most significant byte first. */
  function BigEndian(value: nat, k: nat): (bs: seq<Byte>)
    ensures |bs| == k
  {
    if k == 0 then [] else BigEndian(value / 256, k - 1) + [value % 256]
  }

  function FromBigEndian(bs: seq<Byte>): nat {
    if bs == [] then 0 else FromBigEndian(bs[..|bs| - 1]) * 256 + bs[|bs| - 1]
  }

  lemma {:induction false} BigEndianRoundTrip(value: nat, k: nat)
    requires value < Pow(k)
    ensures FromBigEndian(BigEndian(value, k)) == value
  {
    if k > 0 {
      BigEndianRoundTrip(value / 256, k - 1);
      assert BigEndian(value, k)[..k - 1] == BigEndian(value / 256, k - 1);
    }
  }

  // The receiver ------------------------------------------------------------------------------------

  const UNSET: int := -1

  /** A length of all ones cannot be told from "no length read yet". */
  const TOP: int := 0xFFFF_FFFF_FFFF_FFFF

  /** One client's receive buffer, the packets handed on, and whether the connection was closed. */
  datatype Receiver = Receiver(expected: int, buffer: seq<Byte>, delivered: seq<seq<Byte>>, closed: bool)

  function Limit(expected: int): int { if expected == UNSET then TOP else expected }

  function Stored(length: nat): int { if length == TOP then UNSET else length }

  /** One turn of the loop: the length, if it is not known yet, and as much of the packet as there is. */
  function Turn(r: Receiver, data: seq<Byte>): (t: (Receiver, seq<Byte>))
    requires data != [] && (r.expected == UNSET ==> |data| >= 8)
    ensures |t.1| < |data| || (|t.1| == |data| && r.expected != UNSET && |r.buffer| == r.expected && t.0.expected == UNSET)
  {
    var body := if r.expected == UNSET then data[8..] else data;
    var expected := if r.expected == UNSET then Stored(FromBigEndian(data[..8])) else r.expected;
    var room := Limit(expected) - |r.buffer|;
    var n := if room < 0 || |body| <= room then |body| else room;
    var buffer := r.buffer + body[..n];
    (if |buffer| == Limit(expected) then Receiver(UNSET, [], r.delivered + [buffer], false)
     else Receiver(expected, buffer, r.delivered, false),
     body[n..])
  }

  /** The loop of onClientRead: what reading `data` makes of the receiver. */
  function Feed(r: Receiver, data: seq<Byte>): Receiver
    decreases |data|, if r.expected != UNSET && |r.buffer| == r.expected then 1 else 0
  {
    if data == [] || r.closed then r
    else if r.expected == UNSET && |data| < 8 then r.(closed := true)
    else
      var t := Turn(r, data);
      Feed(t.0, t.1)
  }

  class Connection {
    var expected: int
    var buffer: seq<Byte>
    var delivered: seq<seq<Byte>>
    var closed: bool

    function State(): Receiver
      reads this
    {
      Receiver(expected, buffer, delivered, closed)
    }

    constructor ()
      ensures State() == Receiver(UNSET, [], [], false)
    {
      expected, buffer, delivered, closed := UNSET, [], [], false;
    }

    method OnClientRead(data: seq<Byte>)
      modifies this
      ensures State() == Feed(old(State()), data)
    {
      if closed {
        return;
      }
      var rest := data;
      while rest != []
        invariant !closed && Feed(State(), rest) == Feed(old(State()), data)
        decreases |rest|, if expected != UNSET && |buffer| == expected then 1 else 0
      {
        if expected == UNSET {
          if |rest| < 8 {
            closed := true;
            return;
          }
          var length := ReadLength(rest[..8]);
          expected := if length == TOP then UNSET else length;
          rest := rest[8..];
        }
        var room := Limit(expected) - |buffer|;
        var n := if room < 0 || |rest| <= room then |rest| else room;
        buffer := buffer + rest[..n];
        rest := rest[n..];
        if |buffer| == Limit(expected) {
          delivered := delivered + [buffer];
          expected, buffer := UNSET, [];
        }
      }
    }
  }

  /** readIntegral: the value is shifted left by one byte at a time. */
  method ReadLength(bs: seq<Byte>) returns (value: nat)
    ensures value == FromBigEndian(bs)
  {
    value := 0;
    for i := 0 to |bs|
      invariant value == FromBigEndian(bs[..i])
    {
      assert bs[..i + 1][..i] == bs[..i];
      value := value * 256 + bs[i];
    }
    assert bs[..|bs|] == bs;
  }

  // Streams of packets ------------------------------------------------------------------------------

  /** A packet as sendLtvPacket puts it on the wire. */
  function Framed(p: seq<Byte>): seq<Byte> { BigEndian(|p|, 8) + p }

  function Stream(ps: seq<seq<Byte>>): seq<Byte> {
    if ps == [] then [] else Framed(ps[0]) + Stream(ps[1..])
  }

  ghost predicate Sendable(ps: seq<seq<Byte>>) {
    forall i :: 0 <= i < |ps| ==> |ps[i]| < TOP
  }

  /** Whether position `b` of the stream lies inside a length prefix. */
  function Inside(ps: seq<seq<Byte>>, b: nat): bool
    decreases |ps|
  {
    if ps == [] || b == 0 then false
    else if b < 8 then true
    else if b <= 8 + |ps[0]| then false
    else Inside(ps[1..], b - 8 - |ps[0]|)
  }

  /** Between two packets, or after `k` bytes of `p`. */
  datatype Place = Between | Within(p: seq<Byte>, k: nat)

  predicate Proper(w: Place) { w.Within? ==> w.k < |w.p| < TOP }

  function At(w: Place, delivered: seq<seq<Byte>>): Receiver
    requires Proper(w)
  {
    if w.Between? then Receiver(UNSET, [], delivered, false) else Receiver(|w.p|, w.p[..w.k], delivered, false)
  }

  function Ahead(w: Place, qs: seq<seq<Byte>>): seq<Byte>
    requires Proper(w)
  {
    if w.Between? then Stream(qs) else w.p[w.k..] + Stream(qs)
  }

  function AheadInside(w: Place, qs: seq<seq<Byte>>, n: nat): bool
    requires Proper(w)
  {
    if w.Between? then Inside(qs, n) else n > |w.p| - w.k && Inside(qs, n - (|w.p| - w.k))
  }

  function Unfinished(w: Place): seq<seq<Byte>> { if w.Between? then [] else [w.p] }

  lemma PowEight()
    ensures Pow(8) == TOP + 1
  {
    assert Pow(4) == 0x1_0000_0000;
    assert Pow(8) == 256 * (256 * (256 * (256 * Pow(4))));
  }

  lemma PrefixRead(p: seq<Byte>, tail: seq<Byte>)
    requires |p| < TOP
    ensures (Framed(p) + tail)[..8] == BigEndian(|p|, 8) && (Framed(p) + tail)[8..] == p + tail
    ensures Stored(FromBigEndian(BigEndian(|p|, 8))) == |p|
  {
    hide BigEndian, FromBigEndian, Pow;
    PowEight();
    BigEndianRoundTrip(|p|, 8);
    FramedSplit(BigEndian(|p|, 8), p, tail);
  }

  lemma FramedSplit(a: seq<Byte>, p: seq<Byte>, tail: seq<Byte>)
    requires |a| == 8
    ensures (a + p + tail)[..8] == a && (a + p + tail)[8..] == p + tail
  {
  }

  /** Reading `n` bytes of a packet of which `k` were there. */
  lemma TakeBytes(p: seq<Byte>, k: nat, n: nat)
    requires k + n <= |p|
    ensures p[..k] + p[k..][..n] == p[..k + n] && p[k..][n..] == p[k + n..]
  {
  }

  lemma PrefixOf(d: seq<Byte>, all: seq<Byte>, n: nat)
    requires d <= all && n <= |d|
    ensures d[..n] == all[..n] && d[n..] <= all[n..]
  {
  }

  lemma PartOf(d: seq<Byte>, p: seq<Byte>, tail: seq<Byte>)
    requires d <= p + tail
    ensures |d| <= |p| ==> d == p[..|d|]
    ensures |d| > |p| ==> d[..|p|] == p && d[|p|..] <= tail
  {
  }

  lemma TurnWithin(p: seq<Byte>, k: nat, delivered: seq<seq<Byte>>, d: seq<Byte>, tail: seq<Byte>)
    requires k < |p| < TOP && d != [] && d <= p[k..] + tail
    ensures Turn(At(Within(p, k), delivered), d)
         == if |d| < |p| - k then (At(Within(p, k + |d|), delivered), [])
            else (At(Between, delivered + [p]), d[|p| - k..])
  {
    var n := if |d| <= |p| - k then |d| else |p| - k;
    PartOf(d, p[k..], tail);
    TakeBytes(p, k, n);
    assert d[..n] == p[k..][..n];
    assert p[..|p|] == p;
  }

  /** One turn of the loop inside a packet. */
  lemma FeedWithin(p: seq<Byte>, k: nat, delivered: seq<seq<Byte>>, d: seq<Byte>, tail: seq<Byte>)
    requires k < |p| < TOP && d != [] && d <= p[k..] + tail
    ensures Feed(At(Within(p, k), delivered), d)
         == if |d| < |p| - k then At(Within(p, k + |d|), delivered)
            else Feed(At(Between, delivered + [p]), d[|p| - k..])
  {
    hide Turn;
    TurnWithin(p, k, delivered, d, tail);
  }

  lemma TurnBetween(q: seq<Byte>, delivered: seq<seq<Byte>>, d: seq<Byte>, tail: seq<Byte>)
    requires |q| < TOP && |d| >= 8 && d <= Framed(q) + tail
    ensures d[8..] <= q + tail
    ensures Turn(At(Between, delivered), d)
         == if |d| - 8 < |q| then (At(Within(q, |d| - 8), delivered), [])
            else (At(Between, delivered + [q]), d[8 + |q|..])
  {
    hide Framed, FromBigEndian, BigEndian;
    PrefixOf(d, Framed(q) + tail, 8);
    PrefixRead(q, tail);
    var body := d[8..];
    PartOf(body, q, tail);
    var n := if |body| <= |q| then |body| else |q|;
    assert [] + body[..n] == q[..n];
    assert body[n..] == d[8 + n..];
    assert q[..|q|] == q;
  }

  /** A length prefix and what follows it. */
  lemma FeedBetween(q: seq<Byte>, delivered: seq<seq<Byte>>, d: seq<Byte>, tail: seq<Byte>)
    requires |q| < TOP && |d| >= 8 && d <= Framed(q) + tail
    ensures d[8..] <= q + tail
    ensures Feed(At(Between, delivered), d)
         == if |d| - 8 < |q| then At(Within(q, |d| - 8), delivered)
            else Feed(At(Between, delivered + [q]), d[8 + |q|..])
  {
    hide Turn, Framed;
    TurnBetween(q, delivered, d, tail);
  }

  /** The place `n` bytes further on: the bytes, the packets and the length prefixes ahead are the same. */
  ghost predicate Moved(w: Place, qs: seq<seq<Byte>>, delivered: seq<seq<Byte>>, n: nat,
                        w': Place, qs': seq<seq<Byte>>, more: seq<seq<Byte>>)
  {
    && Proper(w) && Proper(w') && n <= |Ahead(w, qs)|
    && Ahead(w', qs') == Ahead(w, qs)[n..]
    && more + Unfinished(w') + qs' == delivered + Unfinished(w) + qs
    && forall m: nat :: AheadInside(w', qs', m) == AheadInside(w, qs, n + m)
  }

  lemma MovedTwice(w: Place, qs: seq<seq<Byte>>, del: seq<seq<Byte>>, n: nat, w1: Place, qs1: seq<seq<Byte>>, del1: seq<seq<Byte>>,
                   m: nat, w2: Place, qs2: seq<seq<Byte>>, del2: seq<seq<Byte>>)
    requires Moved(w, qs, del, n, w1, qs1, del1) && Moved(w1, qs1, del1, m, w2, qs2, del2)
    ensures Moved(w, qs, del, n + m, w2, qs2, del2)
  {
    hide Ahead;
    assert Ahead(w, qs)[n..][m..] == Ahead(w, qs)[n + m..];
    forall k: nat ensures AheadInside(w2, qs2, k) == AheadInside(w, qs, n + m + k) {
      assert AheadInside(w1, qs1, m + k) == AheadInside(w, qs, n + (m + k));
    }
  }

  lemma MovedWithin(p: seq<Byte>, k: nat, qs: seq<seq<Byte>>, delivered: seq<seq<Byte>>, n: nat)
    requires k + n <= |p| < TOP && k < |p|
    ensures k + n < |p| ==> Moved(Within(p, k), qs, delivered, n, Within(p, k + n), qs, delivered)
    ensures k + n == |p| ==> Moved(Within(p, k), qs, delivered, n, Between, qs, delivered + [p])
  {
    hide Stream;
    var tail := Stream(qs);
    assert (p[k..] + tail)[n..] == p[k + n..] + tail;
    assert k + n == |p| ==> p[k + n..] + tail == tail;
    assert (delivered + [p]) + [] + qs == delivered + [p] + qs;
  }

  lemma MovedPrefix(qs: seq<seq<Byte>>, delivered: seq<seq<Byte>>)
    requires qs != [] && |qs[0]| < TOP
    ensures |qs[0]| > 0 ==> Moved(Between, qs, delivered, 8, Within(qs[0], 0), qs[1..], delivered)
    ensures |qs[0]| == 0 ==> Moved(Between, qs, delivered, 8, Between, qs[1..], delivered + [qs[0]])
  {
    hide Framed, FromBigEndian;
    var q, rest := qs[0], qs[1..];
    PrefixRead(q, Stream(rest));
    FramedLength(q);
    assert q[0..] == q;
    assert delivered + [q] + rest == delivered + [] + qs;
    assert (delivered + [q]) + [] + rest == delivered + [] + qs;
    if |q| == 0 { assert q + Stream(rest) == Stream(rest); }
  }

  /** Where a fragment leads, if it does not end inside a length prefix. */
  lemma {:induction false} FeedFragment(w: Place, qs: seq<seq<Byte>>, delivered: seq<seq<Byte>>, d: seq<Byte>)
    returns (w': Place, qs': seq<seq<Byte>>, more: seq<seq<Byte>>)
    requires Proper(w) && Sendable(qs) && d <= Ahead(w, qs) && !AheadInside(w, qs, |d|)
    ensures Moved(w, qs, delivered, |d|, w', qs', more) && Sendable(qs') && Feed(At(w, delivered), d) == At(w', more)
    decreases |qs|, if w.Within? then 2 else 1
  {
    hide Feed, Moved;
    if d == [] {
      FeedNothing(w, delivered);
      w', qs', more := w, qs, delivered;
      MovedNot(w, qs, delivered);
    } else if w.Within? {
      FeedWithin(w.p, w.k, delivered, d, Stream(qs));
      var left := |w.p| - w.k;
      if |d| < left {
        MovedWithin(w.p, w.k, qs, delivered, |d|);
        w', qs', more := Within(w.p, w.k + |d|), qs, delivered;
      } else {
        MovedWithin(w.p, w.k, qs, delivered, left);
        assert d[left..] <= Stream(qs) by { PartOf(d, w.p[w.k..], Stream(qs)); }
        assert !Inside(qs, |d| - left);
        w', qs', more := FeedFragment(Between, qs, delivered + [w.p], d[left..]);
        MovedTwice(w, qs, delivered, left, Between, qs, delivered + [w.p], |d| - left, w', qs', more);
      }
    } else {
      w', qs', more := FeedPackets(qs, delivered, d);
    }
  }

  lemma MovedNot(w: Place, qs: seq<seq<Byte>>, delivered: seq<seq<Byte>>)
    requires Proper(w)
    ensures Moved(w, qs, delivered, 0, w, qs, delivered)
  {
    assert Ahead(w, qs)[0..] == Ahead(w, qs);
  }

  lemma FeedNothing(w: Place, delivered: seq<seq<Byte>>)
    requires Proper(w)
    ensures Feed(At(w, delivered), []) == At(w, delivered)
  {
  }

  lemma {:induction false} FeedPackets(qs: seq<seq<Byte>>, delivered: seq<seq<Byte>>, d: seq<Byte>)
    returns (w': Place, qs': seq<seq<Byte>>, more: seq<seq<Byte>>)
    requires Sendable(qs) && d != [] && d <= Stream(qs) && !Inside(qs, |d|)
    ensures Moved(Between, qs, delivered, |d|, w', qs', more) && Sendable(qs')
    ensures Feed(At(Between, delivered), d) == At(w', more)
    decreases |qs|, 0
  {
    hide Feed, Framed, Moved;
    var q, rest := qs[0], qs[1..];
    FramedLength(q);
    FeedBetween(q, delivered, d, Stream(rest));
    MovedPrefix(qs, delivered);
    var n := |d| - 8;
    if n < |q| {
      MovedWithin(q, 0, rest, delivered, n);
      MovedTwice(Between, qs, delivered, 8, Within(q, 0), rest, delivered, n, Within(q, n), rest, delivered);
      w', qs', more := Within(q, n), rest, delivered;
    } else {
      if |q| > 0 {
        MovedWithin(q, 0, rest, delivered, |q|);
        MovedTwice(Between, qs, delivered, 8, Within(q, 0), rest, delivered, |q|, Between, rest, delivered + [q]);
      }
      assert d[8 + |q|..] <= Stream(rest) by {
        PartOf(d[8..], q, Stream(rest));
        assert d[8..][|q|..] == d[8 + |q|..];
      }
      w', qs', more := FeedFragment(Between, rest, delivered + [q], d[8 + |q|..]);
      MovedTwice(Between, qs, delivered, 8 + |q|, Between, rest, delivered + [q], n - |q|, w', qs', more);
    }
  }

  lemma FramedLength(q: seq<Byte>)
    ensures |Framed(q)| == 8 + |q|
  {
  }

  // Whole streams -----------------------------------------------------------------------------------

  function FeedAll(r: Receiver, fs: seq<seq<Byte>>): Receiver
    decreases |fs|
  {
    if fs == [] then r else FeedAll(Feed(r, fs[0]), fs[1..])
  }

  function Joined(fs: seq<seq<Byte>>): seq<Byte> {
    if fs == [] then [] else fs[0] + Joined(fs[1..])
  }

  /** Some fragment of those that start `n` bytes ahead ends inside a length prefix. */
  predicate Cuts(w: Place, qs: seq<seq<Byte>>, n: nat, fs: seq<seq<Byte>>)
    requires Proper(w)
    decreases |fs|
  {
    fs != [] && (AheadInside(w, qs, n + |fs[0]|) || Cuts(w, qs, n + |fs[0]|, fs[1..]))
  }

  lemma {:induction false} ClosedStays(r: Receiver, fs: seq<seq<Byte>>)
    requires r.closed
    ensures FeedAll(r, fs) == r
    decreases |fs|
  {
    if fs != [] { ClosedStays(r, fs[1..]); }
  }

  lemma {:induction false} CutCloses(w: Place, qs: seq<seq<Byte>>, delivered: seq<seq<Byte>>, d: seq<Byte>)
    requires Proper(w) && Sendable(qs) && d <= Ahead(w, qs) && AheadInside(w, qs, |d|)
    ensures Feed(At(w, delivered), d).closed
    decreases |qs|, if w.Within? then 1 else 0
  {
    hide Turn;
    if w.Within? {
      var left := |w.p| - w.k;
      FeedWithin(w.p, w.k, delivered, d, Stream(qs));
      assert d[left..] <= Stream(qs) by { PartOf(d, w.p[w.k..], Stream(qs)); }
      CutCloses(Between, qs, delivered + [w.p], d[left..]);
    } else if |d| >= 8 {
      var q, rest := qs[0], qs[1..];
      FramedLength(q);
      FeedBetween(q, delivered, d, Stream(rest));
      assert d[8 + |q|..] <= Stream(rest) by {
        PartOf(d[8..], q, Stream(rest));
        assert d[8..][|q|..] == d[8 + |q|..];
      }
      CutCloses(Between, rest, delivered + [q], d[8 + |q|..]);
    }
  }

  lemma {:induction false} CutsShift(w: Place, qs: seq<seq<Byte>>, n: nat, w': Place, qs': seq<seq<Byte>>, m: nat, fs: seq<seq<Byte>>)
    requires Proper(w) && Proper(w') && forall k: nat :: AheadInside(w', qs', k) == AheadInside(w, qs, n + k)
    ensures Cuts(w', qs', m, fs) == Cuts(w, qs, n + m, fs)
    decreases |fs|
  {
    if fs != [] { CutsShift(w, qs, n, w', qs', m + |fs[0]|, fs[1..]); }
  }

  lemma {:induction false} FeedAllExact(w: Place, qs: seq<seq<Byte>>, delivered: seq<seq<Byte>>, fs: seq<seq<Byte>>)
    requires Proper(w) && Sendable(qs) && Joined(fs) == Ahead(w, qs)
    ensures !Cuts(w, qs, 0, fs) ==> FeedAll(At(w, delivered), fs) == At(Between, delivered + Unfinished(w) + qs)
    ensures Cuts(w, qs, 0, fs) ==> FeedAll(At(w, delivered), fs).closed
    decreases |fs|
  {
    hide Feed, Moved;
    if fs == [] {
      NothingAhead(w, qs);
    } else {
      var d := fs[0];
      assert d <= Ahead(w, qs) && Joined(fs[1..]) == Ahead(w, qs)[|d|..];
      if AheadInside(w, qs, |d|) {
        CutCloses(w, qs, delivered, d);
        ClosedStays(Feed(At(w, delivered), d), fs[1..]);
      } else {
        var w', qs', more := FeedFragment(w, qs, delivered, d);
        MovedMeans(w, qs, delivered, |d|, w', qs', more);
        FeedAllExact(w', qs', more, fs[1..]);
        CutsShift(w, qs, |d|, w', qs', 0, fs[1..]);
      }
    }
  }

  lemma MovedMeans(w: Place, qs: seq<seq<Byte>>, delivered: seq<seq<Byte>>, n: nat,
                   w': Place, qs': seq<seq<Byte>>, more: seq<seq<Byte>>)
    requires Moved(w, qs, delivered, n, w', qs', more)
    ensures Proper(w') && Ahead(w', qs') == Ahead(w, qs)[n..]
    ensures more + Unfinished(w') + qs' == delivered + Unfinished(w) + qs
    ensures forall m: nat :: AheadInside(w', qs', m) == AheadInside(w, qs, n + m)
  {
  }

  lemma NothingAhead(w: Place, qs: seq<seq<Byte>>)
    requires Proper(w) && Ahead(w, qs) == []
    ensures w.Between? && qs == []
  {
    StreamLonger(qs);
  }

  lemma StreamLonger(qs: seq<seq<Byte>>)
    ensures qs != [] ==> |Stream(qs)| >= 8
  {
    if qs != [] { FramedLength(qs[0]); }
  }

  /** However the bytes of a sequence of packets are fragmented: the server hands on exactly these packets, in
      order and with nothing left over, if no fragment ends inside a length prefix; otherwise it closes the
      connection. */
  lemma DeliversExactlyUnlessPrefixCut(ps: seq<seq<Byte>>, fs: seq<seq<Byte>>)
    requires Sendable(ps) && Joined(fs) == Stream(ps)
    ensures
      var r := FeedAll(Receiver(UNSET, [], [], false), fs);
      if Cuts(Between, ps, 0, fs) then r.closed else r == Receiver(UNSET, [], ps, false)
  {
    hide FeedAll, Cuts;
    FeedAllExact(Between, ps, [], fs);
    assert [] + [] + ps == ps;
  }
}
