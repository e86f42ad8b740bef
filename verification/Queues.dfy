/** Receive queues: selective removal from the master connection's queue, and the per-tag queue of a peer link. */
module Queues {

  datatype Option<T> = None | Some(value: T)

  /** Index of the first element that satisfies `want`, or the length. */
  function First<T>(q: seq<T>, want: T -> bool): (i: nat)
    ensures i <= |q| && (i < |q| ==> want(q[i]))
    ensures forall j :: 0 <= j < i ==> !want(q[j])
  {
    if q == [] || want(q[0]) then 0 else 1 + First(q[1..], want)
  }

  function Without<T>(q: seq<T>, i: nat): seq<T>
    requires i <= |q|
  {
    if i == |q| then q else q[..i] + q[i + 1..]
  }

  function Taken<T>(q: seq<T>, want: T -> bool): Option<T> {
    var i := First(q, want);
    if i < |q| then Some(q[i]) else None
  }

  function Left<T>(q: seq<T>, want: T -> bool): seq<T> { Without(q, First(q, want)) }

  class PacketQueue<T> {
    var queue: seq<T>

    constructor ()
      ensures queue == []
    {
      queue := [];
    }

    /** pollNextMatchingPacketBuffer without waiting. */
    method PollMatching(want: T -> bool) returns (r: Option<T>)
      modifies this
      ensures r == Taken(old(queue), want) && queue == Left(old(queue), want)
      ensures r == None ==> queue == old(queue) && forall x :: x in old(queue) ==> !want(x)
      ensures r.Some? ==> exists i ::
        && 0 <= i < |old(queue)| && r.value == old(queue)[i] && want(r.value)
        && queue == old(queue)[..i] + old(queue)[i + 1..] && forall j :: 0 <= j < i ==> !want(old(queue)[j])
    {
      var idx := 0;
      while idx < |queue|
        invariant idx <= |queue| && queue == old(queue) && forall j :: 0 <= j < idx ==> !want(queue[j])
      {
        if want(queue[idx]) {
          var packet := queue[idx];
          queue := queue[..idx] + queue[idx + 1..];
          return Some(packet);
        }
        idx := idx + 1;
      }
      return None;
    }
  }

  lemma FirstUnique<T>(q: seq<T>, want: T -> bool, i: nat)
    requires i <= |q| && (i < |q| ==> want(q[i])) && forall j :: 0 <= j < i ==> !want(q[j])
    ensures First(q, want) == i
  {
  }

  ghost predicate Disjoint<T(!new)>(a: T -> bool, b: T -> bool) { forall x :: !(a(x) && b(x)) }

  /** What one consumer removes is never what another one, waiting for other packets, would get. */
  lemma TakenUndisturbed<T(!new)>(q: seq<T>, a: T -> bool, b: T -> bool)
    requires Disjoint(a, b)
    ensures Taken(Left(q, a), b) == Taken(q, b)
  {
    var i, j := First(q, a), First(q, b);
    var rest := Left(q, a);
    if i == |q| {
      assert rest == q;
    } else if j < i {
      assert rest[j] == q[j];
      FirstUnique(rest, b, j);
    } else if j == |q| {
      FirstUnique(rest, b, |rest|);
    } else {
      assert j != i;
      assert rest[j - 1] == q[j];
      FirstUnique(rest, b, j - 1);
    }
  }

  /** So concurrent operations that receive by tag do not interfere, in whichever order they poll. */
  lemma PollsCommute<T(!new)>(q: seq<T>, a: T -> bool, b: T -> bool)
    requires Disjoint(a, b)
    ensures Taken(Left(q, a), b) == Taken(q, b) && Taken(Left(q, b), a) == Taken(q, a)
    ensures Left(Left(q, a), b) == Left(Left(q, b), a)
  {
    hide First, Left, Taken;
    TakenUndisturbed(q, a, b);
    TakenUndisturbed(q, b, a);
    if First(q, a) == |q| {
      LeftOne(q, a, b);
    } else if First(q, b) == |q| {
      LeftOne(q, b, a);
    } else if First(q, a) < First(q, b) {
      LeftTwice(q, a, b);
    } else {
      LeftTwice(q, b, a);
    }
  }

  /** Dropping positions i < j one after the other, in either order. */
  lemma DropTwo<T>(q: seq<T>, i: nat, j: nat)
    requires i < j < |q|
    ensures Without(Without(q, i), j - 1) == Without(Without(q, j), i)
  {
    var x, y := Without(q, i), Without(q, j);
    assert x[..j - 1] == q[..i] + q[i + 1..j] && x[j..] == q[j + 1..];
    assert y[..i] == q[..i] && y[i + 1..] == q[i + 1..j] + q[j + 1..];
  }

  /** Dropping a position that is not wanted moves the first wanted one by at most a place. */
  lemma {:induction false} FirstWithout<T>(q: seq<T>, want: T -> bool, i: nat)
    requires i < |q| && i != First(q, want) && First(q, want) < |q|
    ensures First(Without(q, i), want) == if i < First(q, want) then First(q, want) - 1 else First(q, want)
  {
    if i == 0 {
      assert Without(q, 0) == q[1..];
    } else if !want(q[0]) {
      FirstWithout(q[1..], want, i - 1);
      assert Without(q, i)[1..] == Without(q[1..], i - 1);
    }
  }

  lemma LeftTwice<T>(q: seq<T>, a: T -> bool, b: T -> bool)
    requires First(q, a) < First(q, b) < |q|
    ensures Left(Left(q, a), b) == Left(Left(q, b), a)
  {
    hide First, Without;
    FirstWithout(q, b, First(q, a));
    FirstWithout(q, a, First(q, b));
    DropTwo(q, First(q, a), First(q, b));
  }

  lemma LeftOne<T(!new)>(q: seq<T>, a: T -> bool, b: T -> bool)
    requires First(q, a) == |q|
    ensures Left(q, a) == q && Left(Left(q, b), a) == Left(q, b)
  {
    var rest := Left(q, b);
    assert forall k :: 0 <= k < |rest| ==> rest[k] in q;
    FirstUnique(rest, a, |rest|);
  }

  // Peer links --------------------------------------------------------------------------------------

  datatype Frame = Frame(ctr: nat, size: nat)

  /** Frames of other operations, and frames that do not fit the receive buffer, are thrown away. */
  function Wanted(ctr: nat, room: nat): Frame -> bool { (f: Frame) => f.ctr == ctr && f.size <= room }

  class TagQueue {
    var queue: seq<Frame>

    constructor ()
      ensures queue == []
    {
      queue := [];
    }

    /** receiveBytesInplace: the next frame of the operation, dropping what lies before it; nothing if there is none. */
    method Receive(ctr: nat, room: nat) returns (r: Option<Frame>)
      modifies this
      ensures r == Taken(old(queue), Wanted(ctr, room))
      ensures r == None ==> queue == [] && forall f :: f in old(queue) ==> f.ctr != ctr || f.size > room
      ensures r.Some? ==> exists i ::
        && 0 <= i < |old(queue)| && r.value == old(queue)[i] && queue == old(queue)[i + 1..]
        && r.value.ctr == ctr && r.value.size <= room
        && forall j :: 0 <= j < i ==> old(queue)[j].ctr != ctr || old(queue)[j].size > room
    {
      ghost var k := 0;
      while queue != []
        invariant k <= |old(queue)| && queue == old(queue)[k..]
        invariant forall j :: 0 <= j < k ==> !Wanted(ctr, room)(old(queue)[j])
        decreases |queue|
      {
        var entry := queue[0];
        assert entry == old(queue)[k];
        queue := queue[1..];
        if entry.ctr == ctr && entry.size <= room {
          FirstUnique(old(queue), Wanted(ctr, room), k);
          return Some(entry);
        }
        k := k + 1;
      }
      FirstUnique(old(queue), Wanted(ctr, room), |old(queue)|);
      return None;
    }
  }
}
