/** The bandwidth store: measurements between the network addresses of the registered peers. */
module Bandwidth {

  type Uuid = nat
  type Addr = nat
  type Group = nat

  datatype Peer = Peer(addr: Addr, group: Group)

  datatype Option<T> = None | Some(value: T)

  type Peers = map<Uuid, Peer>
  type Rows = map<Addr, map<Addr, real>>

  predicate Has(rows: Rows, a: Addr, b: Addr) { a in rows && b in rows[a] }

  function At(rows: Rows, a: Addr, b: Addr): Option<real> {
    if Has(rows, a, b) then Some(rows[a][b]) else None
  }

  function AddrsOf(peers: Peers, g: Group): set<Addr> {
    set u | u in peers && peers[u].group == g :: peers[u].addr
  }

  function Groups(peers: Peers): set<Group> {
    set u | u in peers :: peers[u].group
  }

  predicate Used(peers: Peers, a: Addr) { exists u :: u in peers && peers[u].addr == a }

  /** No row and no column names an address without a registered peer. */
  ghost predicate OnlyRegistered(peers: Peers, rows: Rows) {
    forall a :: a in rows ==> Used(peers, a) && forall b :: b in rows[a] ==> Used(peers, b)
  }

  /** The measurements a group needs: between any two of its addresses, or of its only address with itself. */
  predicate Needed(peers: Peers, g: Group, a: Addr, b: Addr) {
    a in AddrsOf(peers, g) && b in AddrsOf(peers, g) && (a != b || |AddrsOf(peers, g)| == 1)
  }

  ghost predicate Populated(peers: Peers, rows: Rows) {
    forall g, a, b :: Needed(peers, g, a, b) ==> Has(rows, a, b)
  }

  /** A measurement that `u` is asked to help with: needed, not there, and at its own address. */
  predicate Lacks(peers: Peers, rows: Rows, u: Uuid, a: Addr, b: Addr) {
    && u in peers && Needed(peers, peers[u].group, a, b) && !Has(rows, a, b)
    && (a == peers[u].addr || b == peers[u].addr)
  }

  /** The two queries agree: the store is populated exactly when no registered peer lacks anything. */
  lemma PopulatedIffNothingMissing(peers: Peers, rows: Rows)
    ensures Populated(peers, rows) <==> forall u, a, b :: !Lacks(peers, rows, u, a, b)
  {
    if !Populated(peers, rows) {
      var g, a, b :| Needed(peers, g, a, b) && !Has(rows, a, b);
      var u :| u in peers && peers[u].group == g && peers[u].addr == a;
      assert Lacks(peers, rows, u, a, b);
    }
  }

  /** Storing a value for everything that is reported missing populates the store. */
  lemma StoringMissingPopulates(peers: Peers, rows: Rows, more: Rows)
    requires forall a, b :: Has(rows, a, b) ==> Has(more, a, b)
    requires forall u, a, b :: Lacks(peers, rows, u, a, b) ==> Has(more, a, b)
    ensures Populated(peers, more)
  {
    forall g, a, b | Needed(peers, g, a, b)
      ensures Has(more, a, b)
    {
      if !Has(rows, a, b) {
        var u :| u in peers && peers[u].group == g && peers[u].addr == a;
        assert Lacks(peers, rows, u, a, b);
      }
    }
  }

  /** A request to measure from one peer to another. */
  datatype Request = Request(from: Uuid, to: Uuid)

  predicate Asks(peers: Peers, q: Request, a: Addr, b: Addr) {
    q.from in peers && q.to in peers && peers[q.from].addr == a && peers[q.to].addr == b
  }

  class Store {
    var peers: Peers
    var rows: Rows

    ghost predicate Valid()
      reads this
    {
      OnlyRegistered(peers, rows)
    }

    constructor ()
      ensures Valid() && peers == map[] && rows == map[]
    {
      peers, rows := map[], map[];
    }

    method RegisterPeer(u: Uuid, addr: Addr, group: Group) returns (inserted: bool)
      requires Valid()
      modifies this
      ensures Valid() && rows == old(rows)
      ensures inserted == (u !in old(peers))
      ensures peers == if inserted then old(peers)[u := Peer(addr, group)] else old(peers)
    {
      inserted := u !in peers;
      if inserted {
        ghost var before := peers;
        peers := peers[u := Peer(addr, group)];
        forall a | Used(before, a) ensures Used(peers, a) {
          var v :| v in before && before[v].addr == a;
          assert v in peers && peers[v].addr == a;
        }
      }
    }

    method StoreBandwidth(from: Uuid, to: Uuid, mbps: real) returns (stored: bool)
      requires Valid()
      modifies this
      ensures Valid() && peers == old(peers)
      ensures stored == (from in peers && to in peers)
      ensures !stored ==> rows == old(rows)
      ensures stored ==> forall a, b ::
        At(rows, a, b) == if a == peers[from].addr && b == peers[to].addr then Some(mbps) else At(old(rows), a, b)
    {
      if from !in peers || to !in peers {
        return false;
      }
      var a, b := peers[from].addr, peers[to].addr;
      assert Used(peers, a) && Used(peers, b);
      var row := if a in rows then rows[a] else map[];
      rows := rows[a := row[b := mbps]];
      return true;
    }

    method GetBandwidth(from: Uuid, to: Uuid) returns (r: Option<real>)
      ensures r == if from in peers && to in peers then At(rows, peers[from].addr, peers[to].addr) else None
    {
      if from !in peers || to !in peers {
        return None;
      }
      var a, b := peers[from].addr, peers[to].addr;
      if a !in rows || b !in rows[a] {
        return None;
      }
      return Some(rows[a][b]);
    }

    /** Removes the row of an address and every measurement towards it. */
    method Erase(gone: Addr)
      modifies this`rows
      ensures gone !in rows && rows.Keys <= old(rows).Keys
      ensures forall a, b :: At(rows, a, b) == if a == gone || b == gone then None else At(old(rows), a, b)
    {
      rows := rows - {gone};
      ghost var kept := rows;
      var todo := rows.Keys;
      while todo != {}
        invariant todo <= rows.Keys == kept.Keys
        invariant forall a :: a in todo ==> rows[a] == kept[a]
        invariant forall a :: a in rows && a !in todo ==> rows[a] == kept[a] - {gone}
        decreases |todo|
      {
        var a :| a in todo;
        rows := rows[a := rows[a] - {gone}];
        todo := todo - {a};
      }
    }

    /** A peer leaves; measurements survive as long as some peer uses both addresses. */
    method UnregisterPeer(u: Uuid) returns (removed: bool)
      requires Valid()
      modifies this
      ensures Valid() && removed == (u in old(peers)) && peers == old(peers) - {u}
      ensures forall a, b :: At(rows, a, b) == if Used(peers, a) && Used(peers, b) then At(old(rows), a, b) else None
    {
      hide At;
      ghost var before := peers;
      removed := u in peers;
      if removed {
        var gone := peers[u].addr;
        peers := peers - {u};
        UsedLess(before, u);
        if !Used(peers, gone) {
          Erase(gone);
        }
        StillRegistered(before, peers, old(rows), rows, gone);
      } else {
        assert peers == peers - {u};
        StillRegistered(peers, peers, rows, rows, 0);
      }
    }

    /** The measurements `u` is asked for, each by one request; `reps` names one peer of the group per address. */
    method MissingEntries(u: Uuid) returns (missing: seq<Request>)
      ensures forall q :: q in missing ==> exists a, b :: Lacks(peers, rows, u, a, b) && Asks(peers, q, a, b)
      ensures forall a, b :: Lacks(peers, rows, u, a, b) ==> exists q :: q in missing && Asks(peers, q, a, b)
    {
      missing := [];
      if u !in peers {
        return;
      }
      var self, g := peers[u].addr, peers[u].group;
      var reps := Representatives(g);
      if |reps.Keys| == 1 {
        OnlyAddress(peers, u, reps.Keys);
        if !Has(rows, self, self) {
          missing := [Request(u, u)];
          assert Lacks(peers, rows, u, self, self) && Asks(peers, missing[0], self, self);
        }
        return;
      }
      var todo := reps.Keys;
      while todo != {}
        invariant todo <= reps.Keys
        invariant forall q :: q in missing ==> exists a, b :: Lacks(peers, rows, u, a, b) && Asks(peers, q, a, b)
        invariant forall a :: a in reps && a !in todo ==> Covered(peers, rows, u, missing, a)
        decreases |todo|
      {
        var other :| other in todo;
        todo := todo - {other};
        ghost var before := missing;
        if other != self {
          if !Has(rows, other, self) {
            missing := missing + [Request(reps[other], u)];
            assert Lacks(peers, rows, u, other, self) && Asks(peers, Request(reps[other], u), other, self);
          }
          ghost var half := missing;
          if !Has(rows, self, other) {
            missing := missing + [Request(u, reps[other])];
            assert Lacks(peers, rows, u, self, other) && Asks(peers, Request(u, reps[other]), self, other);
          }
          CoveredBoth(peers, rows, u, missing, other, reps[other]);
        }
        forall a | a in reps && a !in todo && a != other
          ensures Covered(peers, rows, u, missing, a)
        {
          CoveredMore(peers, rows, u, before, missing, a);
        }
      }
    }

    /** isBandwidthStoreFullyPopulated: by counting, per address, the edges to the other addresses of its group. */
    method IsFullyPopulated() returns (full: bool)
      ensures full <==> Populated(peers, rows)
    {
      var groups := GroupAddrs();
      var todo := groups.Keys;
      while todo != {}
        invariant todo <= groups.Keys
        invariant forall g :: g in groups && g !in todo ==> GroupPopulated(peers, rows, g)
        decreases |todo|
      {
        var g :| g in todo;
        todo := todo - {g};
        var addrs := groups[g];
        if |addrs| == 1 {
          var addr :| addr in addrs;
          assert addrs == {addr} by { SoleElement(addrs, addr); }
          if addr !in rows || addr !in rows[addr] {
            assert Needed(peers, g, addr, addr);
            return false;
          }
        } else {
          var ok := AllEdges(addrs);
          if !ok {
            ghost var a, b :| a in addrs && b in addrs && a != b && !Has(rows, a, b);
            assert Needed(peers, g, a, b);
            return false;
          }
        }
      }
      forall g, a, b | Needed(peers, g, a, b) ensures Has(rows, a, b) {
        assert g in groups && GroupPopulated(peers, rows, g);
      }
      return true;
    }

    method AllEdges(addrs: set<Addr>) returns (ok: bool)
      requires |addrs| != 1
      ensures ok <==> forall a, b :: a in addrs && b in addrs && a != b ==> Has(rows, a, b)
    {
      var todo := addrs;
      while todo != {}
        invariant todo <= addrs
        invariant forall a, b :: a in addrs - todo && b in addrs && a != b ==> Has(rows, a, b)
        decreases |todo|
      {
        var a :| a in todo;
        todo := todo - {a};
        ghost var others := addrs - {a};
        assert |others| == |addrs| - 1 && others != {};
        if a !in rows {
          ghost var b :| b in others;
          return false;
        }
        ghost var there := Targets(rows[a], addrs, a);
        var present := CountEdges(addrs, a);
        Edges(there, others);
        if present != |addrs| - 1 {
          ghost var b :| b in others - there;
          return false;
        }
        assert forall b :: b in addrs && b != a ==> b in there;
      }
      return true;
    }

    method CountEdges(addrs: set<Addr>, a: Addr) returns (present: nat)
      requires a in rows
      ensures present == |Targets(rows[a], addrs, a)|
    {
      present := 0;
      var todo := addrs;
      ghost var seen: set<Addr> := {};
      while todo != {}
        invariant todo <= addrs && present == |seen|
        invariant seen == Targets(rows[a], addrs - todo, a)
        decreases |todo|
      {
        var b :| b in todo;
        todo := todo - {b};
        if b != a && b in rows[a] {
          present := present + 1;
          seen := seen + {b};
        }
      }
      assert addrs - todo == addrs;
    }

    method GroupAddrs() returns (groups: map<Group, set<Addr>>)
      ensures groups.Keys == Groups(peers)
      ensures forall g :: g in groups ==> groups[g] == AddrsOf(peers, g)
    {
      groups := map[];
      var todo := peers.Keys;
      assert peers - todo == map[];
      IndexedNone();
      hide Indexed;
      while todo != {}
        invariant todo <= peers.Keys && Indexed(groups, peers - todo)
        decreases |todo|
      {
        var u :| u in todo;
        var p := peers[u];
        IndexedMore(groups, peers - todo, u, p);
        assert (peers - todo)[u := p] == peers - (todo - {u});
        todo := todo - {u};
        groups := groups[p.group := (if p.group in groups then groups[p.group] else {}) + {p.addr}];
      }
      assert peers - todo == peers;
      IndexedAll(groups, peers);
    }

    method Representatives(g: Group) returns (reps: map<Addr, Uuid>)
      ensures reps.Keys == AddrsOf(peers, g)
      ensures forall a :: a in reps ==> reps[a] in peers && peers[reps[a]] == Peer(a, g)
    {
      reps := map[];
      var todo := peers.Keys;
      while todo != {}
        invariant todo <= peers.Keys
        invariant forall a :: a in reps ==> reps[a] in peers && peers[reps[a]] == Peer(a, g)
        invariant forall u :: u in peers && u !in todo && peers[u].group == g ==> peers[u].addr in reps
        decreases |todo|
      {
        var u :| u in todo;
        todo := todo - {u};
        if peers[u].group == g && peers[u].addr !in reps {
          reps := reps[peers[u].addr := u];
        }
      }
    }
  }

  lemma UsedLess(before: Peers, u: Uuid)
    requires u in before
    ensures forall a :: a != before[u].addr ==> (Used(before - {u}, a) <==> Used(before, a))
  {
    forall a | a != before[u].addr && Used(before, a) ensures Used(before - {u}, a) {
      var v :| v in before && before[v].addr == a;
      assert v in before - {u};
    }
  }

  lemma StillRegistered(before: Peers, peers: Peers, was: Rows, rows: Rows, gone: Addr)
    requires OnlyRegistered(before, was) && rows.Keys <= was.Keys
    requires forall a :: a != gone || before == peers ==> (Used(peers, a) <==> Used(before, a))
    requires if before == peers || Used(peers, gone) then rows == was
             else gone !in rows && forall a, b :: At(rows, a, b) == if a == gone || b == gone then None else At(was, a, b)
    requires before != peers ==> Used(before, gone)
    ensures OnlyRegistered(peers, rows)
    ensures forall a, b :: At(rows, a, b) == if Used(peers, a) && Used(peers, b) then At(was, a, b) else None
  {
    hide Used;
    forall a, b | At(was, a, b).Some? ensures Used(before, a) && Used(before, b) { }
    forall a | a in rows
      ensures Used(peers, a) && forall b :: b in rows[a] ==> Used(peers, b)
    {
      forall b | b in rows[a] ensures Used(peers, b) { assert At(rows, a, b).Some?; }
    }
  }

  /** Everything `u` lacks with the address `a` is asked for. */
  ghost predicate Covered(peers: Peers, rows: Rows, u: Uuid, missing: seq<Request>, a: Addr) {
    u in peers ==>
      && (Lacks(peers, rows, u, a, peers[u].addr) ==> exists q :: q in missing && Asks(peers, q, a, peers[u].addr))
      && (Lacks(peers, rows, u, peers[u].addr, a) ==> exists q :: q in missing && Asks(peers, q, peers[u].addr, a))
  }

  lemma OnlyAddress(peers: Peers, u: Uuid, addrs: set<Addr>)
    requires u in peers && addrs == AddrsOf(peers, peers[u].group) && |addrs| == 1
    ensures addrs == {peers[u].addr}
  {
    var x := peers[u].addr;
    assert x in addrs && |addrs - {x}| == 0;
  }

  lemma CoveredBoth(peers: Peers, rows: Rows, u: Uuid, missing: seq<Request>, a: Addr, rep: Uuid)
    requires u in peers && rep in peers && peers[rep].addr == a
    requires !Has(rows, a, peers[u].addr) ==> Request(rep, u) in missing
    requires !Has(rows, peers[u].addr, a) ==> Request(u, rep) in missing
    ensures Covered(peers, rows, u, missing, a)
  {
    assert Asks(peers, Request(rep, u), a, peers[u].addr) && Asks(peers, Request(u, rep), peers[u].addr, a);
  }

  lemma CoveredMore(peers: Peers, rows: Rows, u: Uuid, missing: seq<Request>, more: seq<Request>, a: Addr)
    requires Covered(peers, rows, u, missing, a) && missing <= more
    ensures Covered(peers, rows, u, more, a)
  {
    forall q | q in missing ensures q in more {
      var i :| 0 <= i < |missing| && missing[i] == q;
      assert more[i] == q;
    }
  }

  ghost predicate GroupPopulated(peers: Peers, rows: Rows, g: Group) {
    forall a, b :: Needed(peers, g, a, b) ==> Has(rows, a, b)
  }

  lemma SoleElement(s: set<Addr>, a: Addr)
    requires |s| == 1 && a in s
    ensures s == {a}
  {
    assert |s - {a}| == 0;
  }

  lemma Edges(there: set<Addr>, all: set<Addr>)
    requires there <= all
    ensures |there| == |all| ==> there == all
    ensures |there| != |all| ==> all - there != {}
  {
    assert |all| == |there| + |all - there| by { assert all == there + (all - there); }
  }

  ghost predicate Indexed(groups: map<Group, set<Addr>>, done: Peers) {
    groups.Keys == Groups(done) && forall g :: g in groups ==> groups[g] == AddrsOf(done, g)
  }

  lemma IndexedNone()
    ensures Indexed(map[], map[])
  {
  }

  lemma IndexedAll(groups: map<Group, set<Addr>>, done: Peers)
    requires Indexed(groups, done)
    ensures groups.Keys == Groups(done) && forall g :: g in groups ==> groups[g] == AddrsOf(done, g)
  {
  }

  lemma IndexedMore(groups: map<Group, set<Addr>>, done: Peers, u: Uuid, p: Peer)
    requires Indexed(groups, done) && u !in done
    ensures Indexed(groups[p.group := (if p.group in groups then groups[p.group] else {}) + {p.addr}], done[u := p])
  {
    hide Groups, AddrsOf;
    GroupsMore(done, u, p);
  }

  function Targets(row: map<Addr, real>, addrs: set<Addr>, a: Addr): set<Addr> {
    set b | b in addrs && b != a && b in row
  }

  lemma GroupsMore(done: Peers, u: Uuid, p: Peer)
    requires u !in done
    ensures Groups(done[u := p]) == Groups(done) + {p.group}
    ensures forall g :: AddrsOf(done[u := p], g) == AddrsOf(done, g) + if g == p.group then {p.addr} else {}
    ensures p.group !in Groups(done) ==> AddrsOf(done, p.group) == {}
  {
    var more := done[u := p];
    forall v | v in done ensures v in more && more[v] == done[v] { }
    assert more[u] == p;
    assert Groups(more) == Groups(done) + {p.group};
    forall g ensures AddrsOf(more, g) == AddrsOf(done, g) + if g == p.group then {p.addr} else {} {
      forall a | a in AddrsOf(done, g) ensures a in AddrsOf(more, g) {
        var v :| v in done && done[v].group == g && done[v].addr == a;
        assert v in more;
      }
    }
  }
}
