/** In every smooth accept phase all peers end up with the ring that was announced to them when it opened. */
module RingDelivery {
  import opened MasterSpec
  import opened MasterInv
  import opened Topology
  import opened RingSearch
  import opened AcceptPhase
  import opened RingHistory
  import opened MasterKept

  /** An event, with the order in which the receivers of each packet are visited. */
  datatype Turn = Turn(e: Event, orders: seq<seq<Uuid>>)

  /** Everybody is asked to connect, and nothing else that concerns rings is sent. */
  ghost predicate Announces(o: Outcome, i: nat) {
    && o.Next? && i < |o.out| && o.out[i] == Cast(o.state.clients.Keys, PeersInfo(true))
    && forall j :: 0 <= j < |o.out| && j != i ==> !Asks(o.out[j].body)
  }

  /** The opening of an accept phase in which some peer is accepted already. */
  ghost predicate Opening(o: Outcome) {
    && o.Next? && AllConnecting(o.state) && !o.state.dropped
    && (exists u :: u in o.state.clients && o.state.clients[u].phase == Accepted)
    && exists i :: Announces(o, i)
  }

  function GroupsOf(s: State): map<Uuid, Group> { map u | u in s.clients :: s.clients[u].group }

  function PeersOf(p: map<Uuid, Group>, g: Group): set<Uuid> { set u | u in p && p[u] == g }

  /** What `u` has at the end: one ring of exactly the accepted peers of its group, the ring of the opening, on which
      its neighbours are the peers listed for it then. */
  ghost predicate Delivered(s: State, t: Cache, u: Uuid, g: Group, s1: State, t1: Cache) {
    var ring := RingOf(t, g);
    && ring == RingOf(t1, g) && Distinct(ring) && Elements(ring) == Members(s, g)
    && IndexOf(ring, u) < |ring|
    && PeersFor(s, ring, u) == PeersFor(s1, ring, u)
    && Elements(PeersFor(s1, ring, u)) == Around(ring, IndexOf(ring, u))
  }

  ghost predicate Ends(o: Outcome) { o.Next? && exists c :: c in o.out && c.body.Established? }

  /** Whatever the next events are: until the phase ends no fetch fails, and when it ends everybody is served. */
  ghost predicate Delivers(s: State, t: Cache, turns: seq<Turn>, p: map<Uuid, Group>, s1: State, t1: Cache)
    decreases |turns|
  {
    turns == [] ||
      (var o, orders := Step(s, turns[0].e), turns[0].orders;
       Legal(s, turns[0].e) && o.Next? && Ordered(o.out, orders) ==>
         var t' := ServeAll(t, o.state, o.out, orders);
         && !ServeAllFails(t, o.state, o.out, orders)
         && if Ends(o)
            then o.out == [Cast(p.Keys, Established(true))] && forall u :: u in p ==> Delivered(o.state, t', u, p[u], s1, t1)
            else Delivers(o.state, t', turns[1..], p, s1, t1))
  }

  lemma {:induction false} ServeAllSteady(t: Cache, s: State, out: seq<Cast>, orders: seq<seq<Uuid>>)
    requires Ordered(out, orders)
    requires forall i, u :: 0 <= i < |out| && Asks(out[i].body) && u in out[i].to && u in s.clients ==>
      Perfect(t, s, s.clients[u].group, Counts(out[i].body))
    ensures ServeAll(t, s, out, orders) == t && !ServeAllFails(t, s, out, orders)
    decreases |out|
  {
    hide Perfect, Asks, Counts;
    if out != [] {
      if Asks(out[0].body) {
        assert forall u :: u in orders[0] ==> u in Elements(orders[0]);
        ServeSteady(t, s, orders[0], Counts(out[0].body));
      }
      ServeAllSteady(t, s, out[1..], orders[1..]);
    }
  }

  lemma {:induction false} ServeAllQuiet(t: Cache, s: State, out: seq<Cast>, orders: seq<seq<Uuid>>)
    requires Ordered(out, orders) && forall i :: 0 <= i < |out| ==> !Asks(out[i].body)
    ensures ServeAll(t, s, out, orders) == t && !ServeAllFails(t, s, out, orders)
  {
    ServeAllSteady(t, s, out, orders);
  }

  lemma {:induction false} ServeAllOne(t: Cache, s: State, out: seq<Cast>, orders: seq<seq<Uuid>>, i: nat)
    requires Ordered(out, orders) && i < |out| && out[i].body == PeersInfo(true)
    requires forall j :: 0 <= j < |out| && j != i ==> !Asks(out[j].body)
    ensures ServeAll(t, s, out, orders) == Serve(t, s, orders[i], true)
    ensures ServeAllFails(t, s, out, orders) <==> ServeFails(t, s, orders[i], true)
    decreases i
  {
    if i == 0 {
      ServeAllQuiet(Serve(t, s, orders[0], true), s, out[1..], orders[1..]);
    } else {
      ServeAllOne(t, s, out[1..], orders[1..], i - 1);
    }
  }

  // The rings of the phase --------------------------------------------------------------------------

  ghost predicate RingsFor(t: Cache, p: map<Uuid, Group>) {
    forall u :: u in p ==> Distinct(RingOf(t, p[u])) && Elements(RingOf(t, p[u])) == PeersOf(p, p[u])
  }

  lemma RingsNow(t: Cache, s: State, p: map<Uuid, Group>, registered: bool)
    requires RingsFor(t, p) && p.Keys <= s.clients.Keys
    requires forall u :: u in p ==> s.clients[u].group == p[u]
    requires forall u :: u in s.clients && (registered || s.clients[u].phase == Accepted) <==> u in p
    ensures forall u :: u in p ==> Perfect(t, s, p[u], registered)
  {
    forall u | u in p
      ensures Perfect(t, s, p[u], registered)
    {
      assert Locals(s, p[u], registered) == PeersOf(p, p[u]);
    }
  }

  lemma OngoingSteady(t: Cache, o: Outcome, orders: seq<seq<Uuid>>, p: map<Uuid, Group>)
    requires Ongoing(o, p) && RingsFor(t, p) && Ordered(o.out, orders)
    ensures ServeAll(t, o.state, o.out, orders) == t && !ServeAllFails(t, o.state, o.out, orders) && !Ends(o)
  {
    hide RingsFor, Perfect;
    if o.state.clients.Keys == p.Keys { RingsNow(t, o.state, p, true); }
    ServeAllSteady(t, o.state, o.out, orders);
  }

  lemma OverSteady(t: Cache, o: Outcome, orders: seq<seq<Uuid>>, p: map<Uuid, Group>)
    requires Over(o, p) && RingsFor(t, p) && Ordered(o.out, orders)
    ensures ServeAll(t, o.state, o.out, orders) == t && !ServeAllFails(t, o.state, o.out, orders)
  {
    hide RingsFor, Perfect;
    RingsNow(t, o.state, p, false);
    ServeAllSteady(t, o.state, o.out, orders);
  }

  lemma OverDelivers(t: Cache, o: Outcome, p: map<Uuid, Group>, s1: State, u: Uuid)
    requires Over(o, p) && RingsFor(t, p) && p == GroupsOf(s1) && u in p
    ensures Delivered(o.state, t, u, p[u], s1, t)
  {
    var ring := RingOf(t, p[u]);
    assert Members(o.state, p[u]) == PeersOf(p, p[u]);
    assert u in Elements(ring);
    var i :| 0 <= i < |ring| && ring[i] == u;
    assert Elements(ring) <= s1.clients.Keys && Elements(ring) <= o.state.clients.Keys;
    IndexUnique(ring, i);
    PeersAround(s1, ring, i);
    SameNeighbours(s1, o.state, ring, u);
  }

  lemma SameNeighbours(s: State, s': State, ring: seq<Uuid>, u: Uuid)
    requires Elements(ring) <= s.clients.Keys && Elements(ring) <= s'.clients.Keys
    ensures PeersFor(s, ring, u) == PeersFor(s', ring, u)
  {
    hide IndexOf;
    assert forall i :: 0 <= i < |ring| ==> ring[i] in Elements(ring);
  }

  lemma {:induction false} PhaseDelivers(s: State, t: Cache, turns: seq<Turn>, p: map<Uuid, Group>, s1: State)
    requires Inv(s) && PhaseAt(s, p) && RingsFor(t, p) && p == GroupsOf(s1)
    requires forall i :: 0 <= i < |turns| ==> Smooth(turns[i].e)
    ensures Delivers(s, t, turns, p, s1, t)
    decreases |turns|
  {
    hide Inv, PhaseAt, RingsFor, Step, Legal, Smooth, Ordered, ServeAll, ServeAllFails, Delivered, EndAt;
    if turns != [] {
      var e, orders, o := turns[0].e, turns[0].orders, Step(s, turns[0].e);
      if Legal(s, e) && o.Next? && Ordered(o.out, orders) {
        StepInv(s, e);
        PhaseStep(s, e, p);
        if Over(o, p) {
          OverSteady(t, o, orders, p);
          assert o.out[0] in o.out;
          forall u | u in p ensures Delivered(o.state, t, u, p[u], s1, t) { OverDelivers(t, o, p, s1, u); }
        } else {
          OngoingSteady(t, o, orders, p);
          PhaseDelivers(o.state, t, turns[1..], p, s1);
        }
      }
    }
  }

  /** At the opening every group gets a permutation of its members, whatever the cache held before. */
  lemma OpeningRings(t: Cache, o: Outcome, orders: seq<seq<Uuid>>)
    requires Opening(o) && Inv(o.state) && SaneCache(o.state, t) && Ordered(o.out, orders)
    ensures !ServeAllFails(t, o.state, o.out, orders)
    ensures RingsFor(ServeAll(t, o.state, o.out, orders), GroupsOf(o.state))
  {
    hide Clients, VotesOk, StrategiesOk, MeteredOk, SaneCache, Serve, ServeFails, ServeAll, ServeAllFails, AllConnecting, Perfect;
    var i: nat :| Announces(o, i);
    ServeAllOne(t, o.state, o.out, orders, i);
    ServePerfect(t, o.state, orders[i]);
    PerfectRings(ServeAll(t, o.state, o.out, orders), o.state, orders[i]);
  }

  lemma PerfectRings(t: Cache, s: State, order: seq<Uuid>)
    requires Elements(order) == s.clients.Keys
    requires forall u :: u in order && u in s.clients ==> Perfect(t, s, s.clients[u].group, true)
    ensures RingsFor(t, GroupsOf(s))
  {
    var p := GroupsOf(s);
    forall u | u in p
      ensures Distinct(RingOf(t, p[u])) && Elements(RingOf(t, p[u])) == PeersOf(p, p[u])
    {
      assert u in Elements(order);
      assert Locals(s, p[u], true) == PeersOf(p, p[u]);
    }
  }

  lemma OpeningPhase(o: Outcome)
    requires Opening(o)
    ensures PhaseAt(o.state, GroupsOf(o.state))
  {
    hide Announces;
    var u :| u in o.state.clients && o.state.clients[u].phase == Accepted;
    assert u in GroupsOf(o.state);
  }

  lemma NotUnanimous(s: State, c: Conn, u: Uuid)
    requires Inv(s) && u in s.clients && s.clients[u].phase == Accepted && s.clients[u].conn != c
    ensures !Consensus(s, c)
  {
    hide Clients, Addresses, VotesOk, StrategiesOk, MeteredOk, Consensus;
    ConsensusIsUnanimity(s, c);
  }

  lemma OpenFacts(s: State, u: Uuid)
    requires u in s.clients && s.clients[u].phase == Accepted
    ensures var o := OpenP2P(s, true).(dropped := false);
      && AllConnecting(o) && InConn(o, Connecting) == o.clients.Keys == s.clients.Keys && o.clients[u].phase == Accepted
  {
    var o := OpenP2P(s, true).(dropped := false);
    assert forall v :: v in s.clients ==> o.clients[v] == s.clients[v].(conn := Connecting);
  }

  /** A request to accept peers that makes the master send connection information is such an opening. */
  lemma LastVoteOpens(s: State, e: Event)
    requires Inv(s) && e.RequestP2P? && e.accept && Step(s, e).Next?
    requires exists c :: c in Step(s, e).out && c.body.PeersInfo?
    ensures Opening(Step(s, e))
  {
    hide Inv, Consensus, CastVote, OpenP2P, AllConnecting, InConn;
    var u := s.byAddr[e.addr];
    var voted := CastVote(s, u, ToAccept);
    RequestVoteInv(s, u);
    NotUnanimous(voted.state, VoteNoNew, u);
    assert AcceptConsensus(voted.state);
    var o := OpenP2P(voted.state, true).(dropped := false);
    OpenFacts(voted.state, u);
    OpenP2PInv(voted.state, true);
    AllConnectingAt(o, u);
    NotUnanimous(o, VoteNoNew, u);
    assert Announces(Step(s, e), 0);
  }

  lemma AllConnectingAt(s: State, u: Uuid)
    requires AllConnecting(s) && u in s.clients
    ensures s.clients[u].conn == Connecting
  {
  }

  lemma RequestVoteInv(s: State, u: Uuid)
    requires Inv(s) && u in s.clients && s.clients[u].phase == Accepted
    requires s.clients[u].conn == Idle || s.clients[u].conn == ConnectFailed
    ensures var voted := CastVote(s, u, ToAccept);
      && voted.Next? && Inv(voted.state) && u in voted.state.clients
      && voted.state.clients[u] == s.clients[u].(conn := VoteAccept)
  {
    hide Addresses, VotesOk, StrategiesOk, MeteredOk, PairOk, CastVote;
    assert ClientOk(s.clients[u]);
    CastVoteInv(s, u, ToAccept);
    CastVoteFields(s, u, ToAccept);
  }

  /** In every run of the master with its optimizer: when an accept phase opens, and then no peer drops, no peer
      reports a failure and the optimizer leaves the cache alone, the phase ends by delivering to each peer one
      common permutation of its group's accepted peers, with the neighbours it was told to connect to. */
  lemma {:induction false} AcceptPhaseDelivers(ws: seq<World>, ms: seq<Move>, first: Turn, turns: seq<Turn>)
    requires History(ws, ms) && Legal(ws[|ms|].s, first.e)
    requires Opening(Step(ws[|ms|].s, first.e)) && Ordered(Step(ws[|ms|].s, first.e).out, first.orders)
    requires forall i :: 0 <= i < |turns| ==> Smooth(turns[i].e)
    ensures
      var o := Step(ws[|ms|].s, first.e);
      var t1 := ServeAll(ws[|ms|].t, o.state, o.out, first.orders);
      && !ServeAllFails(ws[|ms|].t, o.state, o.out, first.orders)
      && Delivers(o.state, t1, turns, GroupsOf(o.state), o.state, t1)
  {
    hide Inv, SaneCache, Step, Legal, Smooth, Ordered, ServeAll, ServeAllFails, Delivers, LeadsTo, Sane, AllConnecting, Announces, PhaseAt, RingsFor;
    var w := ws[|ms|];
    HistorySane(ws, ms);
    StepInv(w.s, first.e);
    StepSound(w.s, first.e);
    var o := Step(w.s, first.e);
    CacheKept(w.s, o.state, w.t);
    OpeningRings(w.t, o, first.orders);
    OpeningPhase(o);
    PhaseDelivers(o.state, ServeAll(w.t, o.state, o.out, first.orders), turns, GroupsOf(o.state), o.state);
  }
}
