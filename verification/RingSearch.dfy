/** The search for a ring of mutually reachable peers. */
module RingSearch {

  type Peer = nat

  datatype Option<T> = None | Some(value: T)

  function Lookup(m: map<Peer, set<Peer>>, p: Peer): set<Peer> {
    if p in m then m[p] else {}
  }

  /** `unreach[u]` are the peers `u` reported it could not connect to. */
  predicate Mutual(unreach: map<Peer, set<Peer>>, u: Peer, v: Peer) {
    u != v && v !in Lookup(unreach, u) && u !in Lookup(unreach, v)
  }

  ghost predicate Distinct(s: seq<Peer>) {
    forall i, j :: 0 <= i < j < |s| ==> s[i] != s[j]
  }

  /** A ring visits every peer once, and neighbours, the last and the first included, reach each other. */
  ghost predicate Hamiltonian(ring: seq<Peer>, peers: seq<Peer>, unreach: map<Peer, set<Peer>>) {
    && multiset(ring) == multiset(peers)
    && (forall i :: 0 < i < |ring| ==> Mutual(unreach, ring[i - 1], ring[i]))
    && (|ring| > 0 ==> Mutual(unreach, ring[|ring| - 1], ring[0]))
  }

  /** The peers among the first `n` that `u` shares an edge with. */
  function Neighbours(peers: seq<Peer>, unreach: map<Peer, set<Peer>>, u: Peer, n: nat): set<Peer>
    requires n <= |peers|
  {
    set v | v in peers[..n] && Mutual(unreach, u, v)
  }

  method BuildAdjacency(peers: seq<Peer>, unreach: map<Peer, set<Peer>>) returns (adj: map<Peer, set<Peer>>)
    ensures forall u :: u in peers ==> Lookup(adj, u) == Neighbours(peers, unreach, u, |peers|)
  {
    adj := map[];
    for i := 0 to |peers|
      invariant forall u ::
        Lookup(adj, u) == if u in peers[..i] then Neighbours(peers, unreach, u, |peers|) else {}
    {
      var u := peers[i];
      ghost var before := adj;
      for j := 0 to |peers|
        invariant forall x :: x != u ==> Lookup(adj, x) == Lookup(before, x)
        invariant Lookup(adj, u) == Lookup(before, u) + Neighbours(peers, unreach, u, j)
      {
        var v := peers[j];
        if u != v && !(v in Lookup(unreach, u)) && !(u in Lookup(unreach, v)) {
          adj := adj[u := Lookup(adj, u) + {v}];
        }
        assert Neighbours(peers, unreach, u, j + 1)
            == Neighbours(peers, unreach, u, j) + if Mutual(unreach, u, v) then {v} else {};
      }
    }
  }

  ghost predicate Covers(ring: seq<Peer>, peers: seq<Peer>) {
    Distinct(ring) && |ring| == |peers| && forall i :: 0 <= i < |ring| ==> ring[i] in peers
  }

  ghost predicate Walk(path: seq<Peer>, adj: map<Peer, set<Peer>>) {
    forall i :: 0 < i < |path| ==> path[i] in Lookup(adj, path[i - 1])
  }

  /** A closed walk through all peers. */
  ghost predicate Cycle(ring: seq<Peer>, peers: seq<Peer>, adj: map<Peer, set<Peer>>) {
    && |ring| > 0 && Covers(ring, peers) && Walk(ring, adj)
    && ring[0] in Lookup(adj, ring[|ring| - 1])
  }

  ghost predicate Extends(ring: seq<Peer>, path: seq<Peer>) {
    path <= ring
  }

  /** No cycle starts with `path`. */
  ghost predicate DeadEnd(path: seq<Peer>, peers: seq<Peer>, adj: map<Peer, set<Peer>>) {
    forall ring :: Extends(ring, path) ==> !Cycle(ring, peers, adj)
  }

  /** Every cycle that starts with `path` goes on with a peer in `rest`. */
  ghost predicate OnlyVia(path: seq<Peer>, rest: set<Peer>, peers: seq<Peer>, adj: map<Peer, set<Peer>>) {
    forall ring :: Extends(ring, path) ==> Cycle(ring, peers, adj) ==> |ring| > |path| && ring[|path|] in rest
  }

  /** The state of the search: a walk over distinct peers, which are the ones visited. */
  ghost predicate OnWalk(path: seq<Peer>, visited: set<Peer>, peers: seq<Peer>, adj: map<Peer, set<Peer>>) {
    && 0 < |path| <= |peers| && Distinct(path) && Walk(path, adj)
    && (forall i :: 0 <= i < |path| ==> path[i] in peers)
    && (forall p :: p in visited <==> p in path)
  }

  lemma Complete(path: seq<Peer>, peers: seq<Peer>, adj: map<Peer, set<Peer>>)
    requires |path| == |peers| > 0 && path[0] !in Lookup(adj, path[|path| - 1])
    ensures DeadEnd(path, peers, adj)
  {
    forall ring | Extends(ring, path)
      ensures !Cycle(ring, peers, adj)
    {
      if |ring| == |path| { assert ring == path; }
    }
  }

  lemma ViaNeighbours(path: seq<Peer>, peers: seq<Peer>, adj: map<Peer, set<Peer>>)
    requires 0 < |path| < |peers|
    ensures OnlyVia(path, Lookup(adj, path[|path| - 1]), peers, adj)
  {
    forall ring | Extends(ring, path) && Cycle(ring, peers, adj)
      ensures |ring| > |path| && ring[|path|] in Lookup(adj, path[|path| - 1])
    {
      assert ring[|path|] in Lookup(adj, ring[|path| - 1]);
    }
  }

  lemma ViaFewer(path: seq<Peer>, rest: set<Peer>, p: Peer, peers: seq<Peer>, adj: map<Peer, set<Peer>>)
    requires OnlyVia(path, rest, peers, adj)
    requires p in path || DeadEnd(path + [p], peers, adj)
    ensures OnlyVia(path, rest - {p}, peers, adj)
  {
    forall ring | Extends(ring, path) && Cycle(ring, peers, adj)
      ensures |ring| > |path| && ring[|path|] in rest - {p}
    {
      assert ring[|path|] == p ==> Extends(ring, path + [p]);
      if p in path {
        var i :| 0 <= i < |path| && path[i] == p;
        assert ring[i] == p;
      }
    }
  }

  lemma ViaNone(path: seq<Peer>, peers: seq<Peer>, adj: map<Peer, set<Peer>>)
    requires OnlyVia(path, {}, peers, adj)
    ensures DeadEnd(path, peers, adj)
  {
  }

  lemma WalkOn(path: seq<Peer>, visited: set<Peer>, p: Peer, peers: seq<Peer>, adj: map<Peer, set<Peer>>)
    requires OnWalk(path, visited, peers, adj) && |path| < |peers|
    requires p !in visited && p in peers && p in Lookup(adj, path[|path| - 1])
    ensures OnWalk(path + [p], visited + {p}, peers, adj)
  {
  }

  class Search {
    const peers: seq<Peer>
    const adj: map<Peer, set<Peer>>
    var path: seq<Peer>
    var visited: set<Peer>

    constructor (peers: seq<Peer>, adj: map<Peer, set<Peer>>)
      ensures this.peers == peers && this.adj == adj
    {
      this.peers, this.adj := peers, adj;
      path, visited := [], {};
    }

    ghost predicate Closed() {
      forall u, v :: u in peers && v in Lookup(adj, u) ==> v in peers
    }

    /** Tries to complete `path`, which ends in `current`, to a cycle. */
    method Backtrack(current: Peer) returns (found: bool)
      requires Closed() && OnWalk(path, visited, peers, adj) && path[|path| - 1] == current
      modifies this
      ensures found ==> Cycle(path, peers, adj) && Extends(path, old(path))
      ensures !found ==> path == old(path) && visited == old(visited) && DeadEnd(path, peers, adj)
      decreases |peers| - |path|
    {
      hide DeadEnd, OnlyVia;
      if |path| == |peers| {
        found := path[0] in Lookup(adj, current);
        if !found { Complete(path, peers, adj); }
        return;
      }
      hide Cycle, Walk, Distinct;
      var rest := Lookup(adj, current);
      ghost var before, seen := path, visited;
      ViaNeighbours(path, peers, adj);
      while rest != {}
        invariant path == before && visited == seen
        invariant rest <= Lookup(adj, current)
        invariant OnlyVia(before, rest, peers, adj)
        decreases |rest|
      {
        var neighbor :| neighbor in rest;
        if neighbor !in visited {
          WalkOn(path, visited, neighbor, peers, adj);
          visited := visited + {neighbor};
          path := path + [neighbor];
          found := Backtrack(neighbor);
          if found {
            return;
          }
          visited := visited - {neighbor};
          path := path[..|path| - 1];
        }
        ViaFewer(before, rest, neighbor, peers, adj);
        rest := rest - {neighbor};
      }
      ViaNone(before, peers, adj);
      found := false;
    }

    /** Tries every peer as a start. */
    method Find() returns (found: bool)
      requires Closed() && |peers| > 0
      modifies this
      ensures found ==> Cycle(path, peers, adj)
      ensures !found ==> forall ring :: !Cycle(ring, peers, adj)
    {
      for i := 0 to |peers|
        invariant forall j :: 0 <= j < i ==> DeadEnd([peers[j]], peers, adj)
      {
        var start := peers[i];
        path, visited := [start], {start};
        found := Backtrack(start);
        if found {
          return;
        }
      }
      found := false;
      forall ring
        ensures !Cycle(ring, peers, adj)
      {
        if |ring| > 0 && ring[0] in peers {
          var j :| 0 <= j < |peers| && peers[j] == ring[0];
          assert Extends(ring, [peers[j]]);
        }
      }
    }
  }

  lemma {:induction false} DistinctCount(s: seq<Peer>, p: Peer)
    requires Distinct(s)
    ensures multiset(s)[p] == if p in s then 1 else 0
    decreases |s|
  {
    if s != [] {
      DistinctCount(s[1..], p);
      assert s == [s[0]] + s[1..];
    }
  }

  function Elements(s: seq<Peer>): set<Peer> { set p | p in s }

  lemma {:induction false} DistinctSize(s: seq<Peer>)
    requires Distinct(s)
    ensures |Elements(s)| == |s|
    decreases |s|
  {
    if s != [] {
      DistinctSize(s[1..]);
      assert Elements(s) == Elements(s[1..]) + {s[0]};
    }
  }

  lemma SubsetSameSize(a: set<Peer>, b: set<Peer>)
    requires a <= b && |a| == |b|
    ensures a == b
  {
    assert |b - a| == |b| - |a|;
  }

  /** Covering distinct peers is being a permutation of them. */
  lemma CoversIsPermutation(ring: seq<Peer>, peers: seq<Peer>)
    requires Distinct(peers)
    ensures Covers(ring, peers) <==> multiset(ring) == multiset(peers)
  {
    if Covers(ring, peers) {
      DistinctSize(ring);
      DistinctSize(peers);
      SubsetSameSize(Elements(ring), Elements(peers));
      forall p ensures multiset(ring)[p] == multiset(peers)[p] {
        DistinctCount(ring, p);
        DistinctCount(peers, p);
        assert p in Elements(ring) <==> p in Elements(peers);
      }
    }
    if multiset(ring) == multiset(peers) {
      PermutationCovers(ring, peers);
    }
  }

  lemma PermutationCovers(ring: seq<Peer>, peers: seq<Peer>)
    requires Distinct(peers) && multiset(ring) == multiset(peers)
    ensures Covers(ring, peers)
  {
    assert |multiset(ring)| == |ring| && |multiset(peers)| == |peers|;
    forall i | 0 <= i < |ring| ensures ring[i] in peers {
      assert ring[i] in multiset(ring);
    }
    forall i, j | 0 <= i < j < |ring|
      ensures ring[i] != ring[j]
    {
      DistinctCount(peers, ring[i]);
      TwiceCounted(ring, i, j);
    }
  }

  lemma TwiceCounted(s: seq<Peer>, i: nat, j: nat)
    requires i < j < |s|
    ensures s[i] == s[j] ==> multiset(s)[s[i]] >= 2
  {
    assert s == s[..i] + [s[i]] + s[i + 1..j] + [s[j]] + s[j + 1..];
  }

  lemma CycleIsHamiltonian(ring: seq<Peer>, peers: seq<Peer>, adj: map<Peer, set<Peer>>, unreach: map<Peer, set<Peer>>)
    requires Distinct(peers) && |peers| > 0
    requires forall u :: u in peers ==> Lookup(adj, u) == Neighbours(peers, unreach, u, |peers|)
    ensures Cycle(ring, peers, adj) <==> Hamiltonian(ring, peers, unreach)
  {
    hide Lookup, Mutual;
    CoversIsPermutation(ring, peers);
    if Covers(ring, peers) {
      assert forall i :: 0 <= i < |ring| ==> ring[i] in peers[..|peers|];
      assert forall i :: 0 <= i < |ring| ==>
        Lookup(adj, ring[i]) == Neighbours(peers, unreach, ring[i], |peers|);
    }
  }

  /** buildReachableRingTopology on the eligible peers of a group: it finds a ring exactly when there is one. */
  method BuildReachableRing(peers: seq<Peer>, unreach: map<Peer, set<Peer>>) returns (r: Option<seq<Peer>>)
    requires Distinct(peers)
    ensures |peers| == 0 ==> r == None
    ensures |peers| == 1 ==> r == Some(peers)
    ensures |peers| >= 2 ==> (r.Some? <==> exists ring :: Hamiltonian(ring, peers, unreach))
    ensures |peers| >= 2 && r.Some? ==> Hamiltonian(r.value, peers, unreach)
  {
    if |peers| <= 1 {
      if |peers| == 0 {
        return None;
      }
      assert peers == [peers[0]];
      return Some([peers[0]]);
    }
    var adj := BuildAdjacency(peers, unreach);
    forall ring ensures Cycle(ring, peers, adj) <==> Hamiltonian(ring, peers, unreach) {
      CycleIsHamiltonian(ring, peers, adj, unreach);
    }
    var search := new Search(peers, adj);
    var found := search.Find();
    return if found then Some(search.path) else None;
  }
}
