/** The ring that is delivered at the end of an accept phase. */
module AcceptPhase {
  import opened MasterSpec
  import opened MasterInv
  import opened Topology
  import opened RingSearch

  // Packets that carry ring information -------------------------------------------------------------

  predicate Asks(b: Body) { b.PeersInfo? || b.Established? }

  predicate Counts(b: Body) { b.PeersInfo? && b.registered }

  /** One fetch for each receiver, in the order in which the loop meets them. */
  ghost function Serve(t: Cache, s: State, order: seq<Uuid>, registered: bool): Cache
    decreases |order|
  {
    if order == [] then t
    else if order[0] !in s.clients then Serve(t, s, order[1..], registered)
    else Serve(Fetched(t, s, s.clients[order[0]].group, registered), s, order[1..], registered)
  }

  ghost predicate ServeFails(t: Cache, s: State, order: seq<Uuid>, registered: bool)
    decreases |order|
  {
    if order == [] then false
    else if order[0] !in s.clients then ServeFails(t, s, order[1..], registered)
    else
      var g := s.clients[order[0]].group;
      FetchFails(t, s, g, registered) || ServeFails(Fetched(t, s, g, registered), s, order[1..], registered)
  }

  ghost predicate Ordered(out: seq<Cast>, orders: seq<seq<Uuid>>) {
    |orders| == |out| && forall i :: 0 <= i < |out| ==> Elements(orders[i]) == out[i].to
  }

  /** All packets of a step. */
  ghost function ServeAll(t: Cache, s: State, out: seq<Cast>, orders: seq<seq<Uuid>>): Cache
    requires Ordered(out, orders)
    decreases |out|
  {
    if out == [] then t
    else
      var t' := if Asks(out[0].body) then Serve(t, s, orders[0], Counts(out[0].body)) else t;
      ServeAll(t', s, out[1..], orders[1..])
  }

  ghost predicate ServeAllFails(t: Cache, s: State, out: seq<Cast>, orders: seq<seq<Uuid>>)
    requires Ordered(out, orders)
    decreases |out|
  {
    if out == [] then false
    else
      || (Asks(out[0].body) && ServeFails(t, s, orders[0], Counts(out[0].body)))
      || (var t' := if Asks(out[0].body) then Serve(t, s, orders[0], Counts(out[0].body)) else t;
          ServeAllFails(t', s, out[1..], orders[1..]))
  }

  // Good rings --------------------------------------------------------------------------------------

  /** A permutation of the group's peers. */
  ghost predicate Perfect(t: Cache, s: State, g: Group, registered: bool) {
    Distinct(RingOf(t, g)) && Elements(RingOf(t, g)) == Locals(s, g, registered)
  }

  lemma PerfectStays(t: Cache, s: State, g: Group, registered: bool)
    requires Perfect(t, s, g, registered)
    ensures Fetched(t, s, g, registered) == t && !FetchFails(t, s, g, registered)
  {
    var ring := RingOf(t, g);
    DistinctSize(ring);
    assert forall u :: u in ring ==> u in Elements(ring);
  }

  lemma {:induction false} ServeSteady(t: Cache, s: State, order: seq<Uuid>, registered: bool)
    requires forall u :: u in order && u in s.clients ==> Perfect(t, s, s.clients[u].group, registered)
    ensures Serve(t, s, order, registered) == t && !ServeFails(t, s, order, registered)
    decreases |order|
  {
    hide Perfect, Fetched, FetchFails;
    if order != [] {
      assert order[0] in order && forall u :: u in order[1..] ==> u in order;
      if order[0] in s.clients { PerfectStays(t, s, s.clients[order[0]].group, registered); }
      ServeSteady(t, s, order[1..], registered);
    }
  }

  /** A ring of peers that are, or once were, in the group. */
  ghost predicate Sane(s: State, g: Group, ring: seq<Uuid>) {
    Distinct(ring) && forall u :: u in ring ==> u in s.issued && (u in s.clients ==> s.clients[u].group == g)
  }

  ghost predicate SaneCache(s: State, t: Cache) {
    forall g :: Sane(s, g, RingOf(t, g))
  }

  ghost predicate AllConnecting(s: State) {
    forall u :: u in s.clients ==> s.clients[u].conn == Connecting
  }

  /** Whether it is kept or rebuilt: while everybody is connecting, the ring fetched is a permutation of the group. */
  lemma FetchPerfect(t: Cache, s: State, g: Group)
    requires Sane(s, g, RingOf(t, g)) && AllConnecting(s) && s.clients.Keys <= s.issued
    ensures !FetchFails(t, s, g, true) && Perfect(Fetched(t, s, g, true), s, g, true)
    ensures Sane(s, g, RingOf(Fetched(t, s, g, true), g))
    ensures forall h :: h != g ==> RingOf(Fetched(t, s, g, true), h) == RingOf(t, h)
  {
    var ring := RingOf(t, g);
    assert Eligible(s, g) == Locals(s, g, true);
    BasicFacts(s, g);
    assert !FetchFails(t, s, g, true) by {
      hide FetchFails;
      if FetchFails(t, s, g, true) { FetchFailsOnlyIf(t, s, g, true); }
    }
    if Dirty(s, ring, |Locals(s, g, true)|) {
      assert RingOf(Fetched(t, s, g, true), g) == Basic(s, g);
      assert forall u :: u in Basic(s, g) ==> u in Elements(Basic(s, g));
    } else {
      DistinctSize(ring);
      assert Elements(ring) <= Locals(s, g, true);
      SubsetSameSize(Elements(ring), Locals(s, g, true));
    }
  }

  lemma {:induction false} ServePerfect(t: Cache, s: State, order: seq<Uuid>)
    requires SaneCache(s, t) && AllConnecting(s) && s.clients.Keys <= s.issued
    ensures var t' := Serve(t, s, order, true);
      && !ServeFails(t, s, order, true) && SaneCache(s, t')
      && (forall u :: u in order && u in s.clients ==> Perfect(t', s, s.clients[u].group, true))
      && (forall g :: Perfect(t, s, g, true) ==> RingOf(t', g) == RingOf(t, g))
    decreases |order|
  {
    hide Perfect, Fetched, FetchFails, Sane, AllConnecting, RingOf;
    if order != [] {
      if order[0] in s.clients {
        var g := s.clients[order[0]].group;
        var t1 := Fetched(t, s, g, true);
        FetchPerfect(t, s, g);
        if Perfect(t, s, g, true) { PerfectStays(t, s, g, true); }
        forall h ensures Sane(s, h, RingOf(t1, h)) { }
        SameRingPerfect(t, t1, s);
        ServePerfect(t1, s, order[1..]);
        SameRingPerfect(t1, Serve(t, s, order, true), s);
      } else {
        ServePerfect(t, s, order[1..]);
      }
    }
  }

  lemma SameRingPerfect(t: Cache, t': Cache, s: State)
    ensures forall g :: RingOf(t', g) == RingOf(t, g) ==> Perfect(t', s, g, true) == Perfect(t, s, g, true)
  {
    hide RingOf;
  }

  // The course of the phase -------------------------------------------------------------------------

  /** The phase of the peers `p`, given with their groups; whoever registers meanwhile stays outside. */
  ghost predicate PhaseAt(s: State, p: map<Uuid, Group>) {
    && p.Keys <= s.clients.Keys && !s.dropped
    && (forall u :: u in p ==>
          s.clients[u].group == p[u] && (s.clients[u].conn == Connecting || s.clients[u].conn == Waiting))
    && (forall u :: u in s.clients && u !in p ==> LeftOut(s.clients[u]))
    && (exists u :: u in p && s.clients[u].phase == Accepted)
  }

  ghost predicate EndAt(s: State, p: map<Uuid, Group>) {
    && p.Keys <= s.clients.Keys
    && (forall u :: u in p ==> s.clients[u].group == p[u] && s.clients[u].phase == Accepted && s.clients[u].conn == Idle)
    && (forall u :: u in s.clients && u !in p ==> LeftOut(s.clients[u]))
  }

  /** No drop and no reported failure. */
  predicate Smooth(e: Event) { !e.Disconnect? && (e.ReportP2P? ==> e.success) }

  /** Nothing is delivered; at most a lone peer is sent its empty list again. */
  ghost predicate Ongoing(o: Outcome, p: map<Uuid, Group>) {
    && o.Next? && PhaseAt(o.state, p)
    && forall i :: 0 <= i < |o.out| && Asks(o.out[i].body) ==>
         o.out[i].body == PeersInfo(true) && o.state.clients.Keys == p.Keys
  }

  ghost predicate Over(o: Outcome, p: map<Uuid, Group>) {
    o.Next? && EndAt(o.state, p) && o.out == [Cast(p.Keys, Established(true))]
  }

  lemma NoConsensus(s: State, c: Conn)
    requires Inv(s) && c != Connecting && c != Waiting
    requires exists u :: u in s.clients && s.clients[u].phase == Accepted && (s.clients[u].conn == Connecting || s.clients[u].conn == Waiting)
    ensures !Consensus(s, c)
  {
    hide Clients, Addresses, VotesOk, StrategiesOk, MeteredOk, Consensus;
    ConsensusIsUnanimity(s, c);
  }

  lemma NothingOpens(s: State, p: map<Uuid, Group>)
    requires Inv(s) && PhaseAt(s, p)
    ensures CheckEstablish(s) == Stay(s)
  {
    hide Inv, Consensus;
    NoConsensus(s, VoteAccept);
    NoConsensus(s, VoteNoNew);
  }

  lemma OneClient(s: State, p: map<Uuid, Group>)
    requires Inv(s) && PhaseAt(s, p) && |s.byAddr| == 1
    ensures s.clients.Keys == p.Keys
  {
    hide VotesOk, Clients, StrategiesOk, MeteredOk;
    ClientCount(s);
    var u :| u in p;
    assert p.Keys <= s.clients.Keys && |s.clients.Keys| == 1;
    assert s.clients.Keys == {u} by { assert |s.clients.Keys - {u}| == 0; }
  }

  lemma PhaseJoin(s: State, u: Uuid, i: Info, p: map<Uuid, Group>)
    requires Inv(s) && PhaseAt(s, p) && u !in s.issued && i.addr !in s.byAddr && LeftOut(i)
    ensures PhaseAt(Join(s, u, i), p) && |Join(s, u, i).byAddr| != 1
  {
    hide Clients, VotesOk, StrategiesOk, MeteredOk;
    IssuedClients(s, u);
    NotFirst(s, u, i);
    var v :| v in p && s.clients[v].phase == Accepted;
    assert Join(s, u, i).clients[v] == s.clients[v];
  }

  lemma PhaseRegister(s: State, addr: Addr, local: bool, group: Group, u: Uuid, p: map<Uuid, Group>)
    requires Inv(s) && PhaseAt(s, p) && u !in s.issued
    ensures Ongoing(OnRegister(s, addr, local, group, u), p)
  {
    hide Inv, CheckEstablish, Mixes, Join, PhaseAt;
    if addr !in s.byAddr {
      if Mixes(s, local) {
        NothingOpens(s, p);
        if |s.byAddr| == 1 { OneClient(s, p); }
      } else {
        var i := Info(Registered, Idle, addr, local, group, map[], false);
        JoinInv(s, u, i);
        PhaseJoin(s, u, i, p);
        NothingOpens(Join(s, u, i), p);
      }
    }
  }

  lemma PhaseWaits(s: State, u: Uuid, p: map<Uuid, Group>)
    requires PhaseAt(s, p) && u in p
    ensures PhaseAt(SetConn(s, u, Waiting), p)
  {
    var v :| v in p && s.clients[v].phase == Accepted;
    assert SetConn(s, u, Waiting).clients[v].phase == Accepted;
  }

  /** Somebody reports its connections as established. */
  lemma PhaseReport(s: State, u: Uuid, fail: FailVerdict, p: map<Uuid, Group>)
    requires Inv(s) && PhaseAt(s, p) && u in s.clients
    ensures Ongoing(OnReportP2P(s, u, true, fail), p) || Over(OnReportP2P(s, u, true, fail), p)
  {
    hide Clients, Addresses, VotesOk, StrategiesOk, MeteredOk, CheckP2P, PhaseAt;
    if s.clients[u].conn == Connecting {
      var s1 := SetConn(s, u, Waiting);
      assert u in p by { InsideOrOut(s, u, p); }
      PhaseWaits(s, u, p);
      SameMetered(s, s1);
      NewcomersUnmetered(s1);
      PhaseCheck(s1, p);
    }
  }

  lemma InsideOrOut(s: State, u: Uuid, p: map<Uuid, Group>)
    requires PhaseAt(s, p) && u in s.clients
    ensures s.clients[u].conn == Connecting || s.clients[u].conn == Waiting ==> u in p
    ensures s.clients[u].conn == Connecting || s.clients[u].conn == Waiting || LeftOut(s.clients[u])
  {
  }

  lemma PhaseEnds(s: State, p: map<Uuid, Group>)
    requires PhaseAt(s, p) && forall u :: u in s.clients ==> s.clients[u].conn != Connecting
    ensures CanEndP2P(s, false) && EndAt(CloseP2P(s, false), p)
    ensures Participants(CloseP2P(s, false)) == p.Keys
  {
    var s' := CloseP2P(s, false);
    assert s'.clients.Keys == s.clients.Keys;
    forall u | u in s.clients
      ensures u in p ==> s'.clients[u] == s.clients[u].(conn := Idle, phase := Accepted)
      ensures u !in p ==> s'.clients[u] == s.clients[u]
    {
    }
  }

  lemma PhaseCheck(s: State, p: map<Uuid, Group>)
    requires PhaseAt(s, p) && Newcomers(s) !! s.metered
    ensures Ongoing(CheckP2P(s), p) || Over(CheckP2P(s), p)
  {
    hide CloseP2P, CanEndP2P, Newcomers, EndAt, Participants;
    if P2PConsensus(s) {
      PhaseEnds(s, p);
      forall u | u in s.clients ensures s.clients[u].conn != ConnectFailed { InsideOrOut(s, u, p); }
      assert CheckP2P(s).Next? && CheckP2P(s).state == CloseP2P(s, false);
    }
  }

  lemma PhaseSelf(s: State, u: Uuid, p: map<Uuid, Group>, i: Info)
    requires PhaseAt(s, p) && u in s.clients && i == s.clients[u].(pending := i.pending)
    ensures PhaseAt(SetInfo(s, u, i), p)
  {
    var v :| v in p && s.clients[v].phase == Accepted;
    assert SetInfo(s, u, i).clients[v].phase == Accepted;
  }

  lemma PhaseReset(s: State, p: map<Uuid, Group>)
    requires PhaseAt(s, p)
    ensures PhaseAt(ResetPendingAll(s), p)
  {
    var v :| v in p && s.clients[v].phase == Accepted;
    assert ResetPendingAll(s).clients[v].phase == Accepted;
  }

  lemma PhaseQuery(s: State, u: Uuid, p: map<Uuid, Group>)
    requires PhaseAt(s, p) && u in s.clients
    ensures Ongoing(OnQueryPending(s, u), p)
  {
    hide PhaseAt, ResetPendingAll, PendingConsensus;
    var s1 := SetInfo(s, u, s.clients[u].(pending := true));
    PhaseSelf(s, u, p, s1.clients[u]);
    PhaseReset(s1, p);
  }

  /** Every other request of a peer that is in the phase, or waits outside, gets it kicked. */
  lemma Refused(s: State, u: Uuid, tag: Tag, flag: bool, strategy: Strategy, verdict: SyncVerdict)
    requires u in s.clients && ClientOk(s.clients[u])
    requires s.clients[u].conn == Connecting || s.clients[u].conn == Waiting || LeftOut(s.clients[u])
    ensures OnRequestP2P(s, u, flag) == OnRequestOptimize(s, u) == OnReportOptimized(s, u) == KickOut(s, u)
    ensures OnSyncState(s, u, flag, strategy, verdict) == OnReportSynced(s, u) == KickOut(s, u)
    ensures OnInitiate(s, u, tag) == OnComplete(s, u, tag, flag) == KickOut(s, u)
  {
  }

  /** One step in the phase: it goes on, or it ends with success for exactly its peers. */
  lemma PhaseStep(s: State, e: Event, p: map<Uuid, Group>)
    requires Inv(s) && PhaseAt(s, p) && Smooth(e) && Legal(s, e) && Step(s, e).Next?
    ensures Ongoing(Step(s, e), p) || Over(Step(s, e), p)
  {
    hide VotesOk, StrategiesOk, MeteredOk, Addresses, PhaseAt, OnRegister, OnQueryPending, OnReportP2P, CheckEstablish,
         OnRequestP2P, OnRequestOptimize, OnReportOptimized, OnSyncState, OnReportSynced, OnInitiate, OnComplete, OnDisconnect;
    if e.Register? {
      PhaseRegister(s, e.addr, e.local, e.group, e.id, p);
    } else if e.addr in s.byAddr && s.byAddr[e.addr] in s.clients {
      var u := s.byAddr[e.addr];
      assert ClientOk(s.clients[u]);
      InsideOrOut(s, u, p);
      hide Clients;
      match e
      case ReportP2P(_, _, fail) => PhaseReport(s, u, fail, p);
      case QueryPending(_) => PhaseQuery(s, u, p);
      case RequestP2P(_, accept) => Refused(s, u, 0, accept, TxOnly, NoMask);
      case RequestOptimize(_) => Refused(s, u, 0, true, TxOnly, NoMask);
      case ReportBandwidth(_, _) =>
      case ReportOptimized(_) => Refused(s, u, 0, true, TxOnly, NoMask);
      case SyncState(_, legal, strategy, verdict) => Refused(s, u, 0, legal, strategy, verdict);
      case ReportSynced(_) => Refused(s, u, 0, true, TxOnly, NoMask);
      case Initiate(_, tag) => Refused(s, u, tag, true, TxOnly, NoMask);
      case Complete(_, tag, aborted) => Refused(s, u, tag, aborted, TxOnly, NoMask);
    }
  }
}
