/** The cached ring of each peer group, and what is sent to the peers from it. */
module Topology {
  import opened MasterSpec
  import opened RingSearch

  datatype Cache = Cache(rings: map<Group, seq<Uuid>>, optimal: set<Group>)

  function RingOf(t: Cache, g: Group): seq<Uuid> {
    if g in t.rings then t.rings[g] else []
  }

  /** The clients of a group; registered ones only if asked for. */
  function Locals(s: State, g: Group, registered: bool): set<Uuid> {
    set u | u in s.clients && s.clients[u].group == g && (registered || s.clients[u].phase == Accepted)
  }

  /** The peers a basic ring is built from. */
  function Eligible(s: State, g: Group): set<Uuid> {
    set u | u in s.clients && s.clients[u].group == g &&
            (s.clients[u].phase == Accepted || s.clients[u].conn == Connecting)
  }

  predicate Dirty(s: State, ring: seq<Uuid>, worldSize: nat) {
    |ring| != worldSize || exists u :: u in ring && u !in s.clients
  }

  /** An optimal ring is only ever replaced when its peers change. */
  predicate Settled(t: Cache, g: Group, ring: seq<Uuid>) {
    g in t.optimal && |ring| == |RingOf(t, g)| && forall u :: u in RingOf(t, g) ==> u in ring
  }

  function Stored(t: Cache, g: Group, ring: seq<Uuid>, optimal: bool): Cache {
    Cache(t.rings[g := ring], if optimal then t.optimal + {g} else t.optimal - {g})
  }

  // Ascending order ---------------------------------------------------------------------------------

  ghost predicate Increasing(r: seq<nat>) { forall i, j :: 0 <= i < j < |r| ==> r[i] < r[j] }

  ghost function Least(us: set<nat>): (m: nat)
    requires us != {}
    ensures m in us && forall u :: u in us ==> m <= u
    decreases |us|
  {
    var u :| u in us;
    if us == {u} then u
    else
      assert us == us - {u} + {u};
      var m := Least(us - {u}); if u < m then u else m
  }

  /** The members of a set in ascending order. */
  ghost function Ascending(us: set<nat>): (r: seq<nat>)
    ensures Elements(r) == us && Increasing(r)
    decreases |us|
  {
    if us == {} then []
    else
      var m := Least(us);
      var rest := Ascending(us - {m});
      Prepended(m, rest);
      [m] + rest
  }

  lemma Prepended(m: nat, rest: seq<nat>)
    requires Increasing(rest) && forall u :: u in Elements(rest) ==> m < u
    ensures Increasing([m] + rest) && Elements([m] + rest) == Elements(rest) + {m}
  {
    assert forall i :: 0 <= i < |rest| ==> rest[i] in Elements(rest);
  }

  lemma {:induction false} IncreasingUnique(a: seq<nat>, b: seq<nat>)
    requires Increasing(a) && Increasing(b) && Elements(a) == Elements(b)
    ensures a == b
    decreases |a|
  {
    assert b != [] ==> b[0] in Elements(b);
    assert a != [] ==> a[0] in Elements(a);
    if a != [] {
      assert a[0] == b[0];
      TailElements(a);
      TailElements(b);
      IncreasingUnique(a[1..], b[1..]);
    }
  }

  lemma TailElements(a: seq<nat>)
    requires a != [] && Increasing(a)
    ensures Elements(a[1..]) == Elements(a) - {a[0]}
  {
    forall u ensures u in Elements(a[1..]) <==> u in Elements(a) - {a[0]} {
      if u in a[1..] {
        var i :| 0 <= i < |a[1..]| && a[1..][i] == u;
        assert a[i + 1] == u;
      }
    }
  }

  ghost function Basic(s: State, g: Group): seq<Uuid> { Ascending(Eligible(s, g)) }

  // Fetching ----------------------------------------------------------------------------------------

  /** getRingTopology: a dirty ring is replaced by the basic one. */
  ghost function Fetched(t: Cache, s: State, g: Group, registered: bool): Cache {
    if Dirty(s, RingOf(t, g), |Locals(s, g, registered)|) && !Settled(t, g, Basic(s, g))
    then Stored(t, g, Basic(s, g), false)
    else t
  }

  /** The ring is dirty, but may not be replaced: the process ends. */
  ghost predicate FetchFails(t: Cache, s: State, g: Group, registered: bool) {
    Dirty(s, RingOf(t, g), |Locals(s, g, registered)|) && Settled(t, g, Basic(s, g))
  }

  lemma IncreasingDistinct(r: seq<nat>)
    requires Increasing(r)
    ensures Distinct(r) && |Elements(r)| == |r|
  {
    DistinctSize(r);
  }

  lemma BasicFacts(s: State, g: Group)
    ensures Elements(Basic(s, g)) == Eligible(s, g) && |Basic(s, g)| == |Eligible(s, g)| && Distinct(Basic(s, g))
  {
    IncreasingDistinct(Basic(s, g));
  }

  /** A fetch only ever fails while registered peers are counted differently by the world size and by the builder. */
  lemma FetchFailsOnlyIf(t: Cache, s: State, g: Group, registered: bool)
    requires FetchFails(t, s, g, registered)
    ensures |Eligible(s, g)| != |Locals(s, g, registered)|
  {
    BasicFacts(s, g);
    assert forall u :: u in Basic(s, g) ==> u in Elements(Basic(s, g));
  }

  /** Asking twice changes nothing, so peers of one group are always told about the same ring. */
  lemma FetchedTwice(t: Cache, s: State, g: Group, registered: bool)
    ensures Fetched(Fetched(t, s, g, registered), s, g, registered) == Fetched(t, s, g, registered)
  {
  }

  // Neighbours --------------------------------------------------------------------------------------

  function IndexOf(ring: seq<Uuid>, u: Uuid): (i: nat)
    ensures i <= |ring| && (i < |ring| ==> ring[i] == u) && forall j :: 0 <= j < i ==> ring[j] != u
  {
    if ring == [] || ring[0] == u then 0 else 1 + IndexOf(ring[1..], u)
  }

  /** getPeersForClient; a client that is not on the ring is treated as if it were the first. */
  function PeersFor(s: State, ring: seq<Uuid>, u: Uuid): seq<Uuid> {
    if |ring| <= 1 then []
    else
      var found := IndexOf(ring, u);
      var i := if found == |ring| then 0 else found;
      var previous := if i == 0 then |ring| - 1 else i - 1;
      var next := if i == |ring| - 1 then 0 else i + 1;
      if ring[previous] !in s.clients || ring[next] !in s.clients then []
      else if next != previous then [ring[previous], ring[next]] else [ring[previous]]
  }

  /** The peers before and after position `i` of a ring. */
  function Around(ring: seq<Uuid>, i: nat): set<Uuid>
    requires i < |ring|
  {
    {ring[(i + |ring| - 1) % |ring|], ring[(i + 1) % |ring|]} - {ring[i]}
  }

  lemma AroundIs(ring: seq<Uuid>, i: nat)
    requires i < |ring|
    ensures Around(ring, i) == {if i == 0 then ring[|ring| - 1] else ring[i - 1],
                                if i == |ring| - 1 then ring[0] else ring[i + 1]} - {ring[i]}
  {
    Wraps(i, |ring|);
  }

  lemma Wraps(i: nat, n: nat)
    requires i < n
    ensures (i + n - 1) % n == if i == 0 then n - 1 else i - 1
    ensures (i + 1) % n == if i == n - 1 then 0 else i + 1
  {
    assert i > 0 ==> i + n - 1 == n + (i - 1);
  }

  lemma IndexUnique(ring: seq<Uuid>, i: nat)
    requires i < |ring| && Distinct(ring)
    ensures IndexOf(ring, ring[i]) == i
  {
    hide IndexOf;
  }

  lemma PeersAround(s: State, ring: seq<Uuid>, i: nat)
    requires i < |ring| && Distinct(ring) && Elements(ring) <= s.clients.Keys
    ensures Elements(PeersFor(s, ring, ring[i])) == Around(ring, i) && Distinct(PeersFor(s, ring, ring[i]))
  {
    hide IndexOf, Around;
    AroundIs(ring, i);
    IndexUnique(ring, i);
    var n := |ring|;
    var previous := if i == 0 then n - 1 else i - 1;
    var next := if i == n - 1 then 0 else i + 1;
    assert ring[previous] in Elements(ring) && ring[next] in Elements(ring);
    var peers := PeersFor(s, ring, ring[i]);
    if n > 1 {
      assert peers == if next != previous then [ring[previous], ring[next]] else [ring[previous]];
      assert Elements(peers) == {ring[previous], ring[next]};
    }
  }

  // What is sent: the list only if it differs from the last one sent to this peer -------------------

  datatype Listing = Listing(same: bool, peers: seq<Uuid>)

  predicate Changed(last: seq<Uuid>, peers: seq<Uuid>) {
    |last| != |peers| || exists u :: u in peers && u !in last
  }

  function ListingOf(last: seq<Uuid>, peers: seq<Uuid>): Listing {
    if Changed(last, peers) then Listing(false, peers) else Listing(true, [])
  }

  /** A receiver that goes on with its previous list when told so has the right peers. */
  lemma ListingMeans(last: seq<Uuid>, peers: seq<Uuid>)
    requires Distinct(peers)
    ensures var l := ListingOf(last, peers);
            Elements(if l.same then last else l.peers) == Elements(peers)
  {
    if !Changed(last, peers) {
      DistinctSize(peers);
      assert Elements(peers) <= Elements(last);
      ElementsAtMost(last);
      assert |Elements(last) - Elements(peers)| == |Elements(last)| - |Elements(peers)|;
      SubsetSameSize(Elements(peers), Elements(last));
    }
  }

  lemma {:induction false} ElementsAtMost(s: seq<Uuid>)
    ensures |Elements(s)| <= |s|
  {
    if s != [] {
      ElementsAtMost(s[1..]);
      assert Elements(s) == Elements(s[1..]) + {s[0]};
    }
  }

  // The cache as the master keeps it ----------------------------------------------------------------

  class RingCache {
    var rings: map<Group, seq<Uuid>>
    var optimal: set<Group>

    constructor ()
      ensures Contents() == Cache(map[], {})
    {
      rings, optimal := map[], {};
    }

    function Contents(): Cache
      reads this
    {
      Cache(rings, optimal)
    }

    method LocalWorldSize(s: State, g: Group, registered: bool) returns (size: nat)
      ensures size == |Locals(s, g, registered)|
    {
      size := 0;
      var left := s.clients.Keys;
      ghost var counted: set<Uuid> := {};
      while left != {}
        invariant left <= s.clients.Keys
        invariant counted == (set u | u in Locals(s, g, registered) && u !in left)
        invariant size == |counted|
        decreases left
      {
        var u :| u in left;
        left := left - {u};
        if (registered || s.clients[u].phase == Accepted) && s.clients[u].group == g {
          size := size + 1;
          counted := counted + {u};
        }
      }
      assert counted == Locals(s, g, registered);
    }

    method IsDirty(s: State, ring: seq<Uuid>, worldSize: nat) returns (dirty: bool)
      ensures dirty == Dirty(s, ring, worldSize)
    {
      if |ring| != worldSize { return true; }
      for i := 0 to |ring|
        invariant forall j :: 0 <= j < i ==> ring[j] in s.clients
      {
        if ring[i] !in s.clients { return true; }
      }
      return false;
    }

    /** A new peer of an ascending list goes before the first larger one. */
    method Insert(ring: seq<Uuid>, u: Uuid) returns (r: seq<Uuid>)
      requires Increasing(ring) && u !in ring
      ensures Increasing(r) && Elements(r) == Elements(ring) + {u}
    {
      var i := 0;
      while i < |ring| && ring[i] < u
        invariant i <= |ring| && forall j :: 0 <= j < i ==> ring[j] < u
      {
        i := i + 1;
      }
      assert forall j :: i <= j < |ring| ==> u < ring[j] by {
        assert i < |ring| ==> ring[i] in ring;
      }
      InsertedAt(ring, i, u);
      r := ring[..i] + [u] + ring[i..];
    }

    method BuildBasicRing(s: State, g: Group) returns (ring: seq<Uuid>)
      ensures ring == Basic(s, g)
    {
      ring := [];
      var left := s.clients.Keys;
      while left != {}
        invariant left <= s.clients.Keys && Increasing(ring)
        invariant Elements(ring) == (set u | u in Eligible(s, g) && u !in left)
        decreases left
      {
        var u :| u in left;
        assert u !in Elements(ring);
        left := left - {u};
        if (s.clients[u].phase == Accepted || s.clients[u].conn == Connecting) && s.clients[u].group == g {
          ring := Insert(ring, u);
        }
      }
      assert Elements(ring) == Eligible(s, g);
      IncreasingUnique(ring, Basic(s, g));
    }

    method SetRing(g: Group, ring: seq<Uuid>, isOptimal: bool) returns (ok: bool)
      modifies this
      ensures ok == !Settled(old(Contents()), g, ring)
      ensures Contents() == if ok then Stored(old(Contents()), g, ring, isOptimal) else old(Contents())
    {
      var same := g in optimal;
      var current := RingOf(Contents(), g);
      if same {
        if |ring| != |current| { same := false; }
        var i := 0;
        while i < |current|
          invariant i <= |current|
          invariant same == (|ring| == |current| && forall j :: 0 <= j < i ==> current[j] in ring)
        {
          if current[i] !in ring { same := false; break; }
          i := i + 1;
        }
      }
      if same { return false; }
      rings := rings[g := ring];
      optimal := if isOptimal then optimal + {g} else optimal - {g};
      return true;
    }

    /** getRingTopology; without success the process ends. */
    method GetRing(s: State, g: Group, registered: bool) returns (ok: bool, ring: seq<Uuid>)
      modifies this
      ensures ok == !FetchFails(old(Contents()), s, g, registered)
      ensures Contents() == Fetched(old(Contents()), s, g, registered) && ring == RingOf(Contents(), g)
    {
      ok := true;
      var size := LocalWorldSize(s, g, registered);
      var dirty := IsDirty(s, RingOf(Contents(), g), size);
      if dirty {
        var basic := BuildBasicRing(s, g);
        ok := SetRing(g, basic, false);
      }
      ring := RingOf(Contents(), g);
    }

    method GetPeers(s: State, ring: seq<Uuid>, u: Uuid) returns (peers: seq<Uuid>)
      ensures peers == PeersFor(s, ring, u)
    {
      if |ring| <= 1 { return []; }
      var index := 0;
      var i := 0;
      while i < |ring|
        invariant i <= |ring| && index == 0 && forall j :: 0 <= j < i ==> ring[j] != u
      {
        if ring[i] == u { index := i; break; }
        i := i + 1;
      }
      IndexFound(ring, u, i);
      var previous := if index == 0 then |ring| - 1 else index - 1;
      var next := if index == |ring| - 1 then 0 else index + 1;
      if ring[previous] !in s.clients || ring[next] !in s.clients { return []; }
      peers := [ring[previous]];
      if next != previous { peers := peers + [ring[next]]; }
    }
  }

  lemma InsertedAt(ring: seq<Uuid>, i: nat, u: Uuid)
    requires Increasing(ring) && i <= |ring|
    requires (forall j :: 0 <= j < i ==> ring[j] < u) && (forall j :: i <= j < |ring| ==> u < ring[j])
    ensures Increasing(ring[..i] + [u] + ring[i..]) && Elements(ring[..i] + [u] + ring[i..]) == Elements(ring) + {u}
  {
    var r := ring[..i] + [u] + ring[i..];
    assert ring == ring[..i] + ring[i..];
    assert forall j :: 0 <= j < |r| ==> r[j] == if j < i then ring[j] else if j == i then u else ring[j - 1];
  }

  lemma IndexFound(ring: seq<Uuid>, u: Uuid, i: nat)
    requires i <= |ring| && (i < |ring| ==> ring[i] == u) && forall j :: 0 <= j < i ==> ring[j] != u
    ensures IndexOf(ring, u) == i
  {
    hide IndexOf;
  }
}
