/** The ring cache over any run of the master, with the optimizer at work beside it. */
module RingHistory {
  import opened MasterSpec
  import opened MasterInv
  import opened Topology
  import opened RingSearch
  import opened AcceptPhase
  import opened MasterKept
  import opened RingServing
  import RetryRace

  // Moves -------------------------------------------------------------------------------------------

  /** The master and its ring cache; the groups for which the optimizer is scheduled, the rings it has read, and the
      peers the bandwidth store has ever known. */
  datatype World = World(s: State, t: Cache, due: set<Group>, held: set<(Group, seq<Uuid>)>, known: set<Uuid>)

  /** A packet or a disconnect, with the order in which the receivers of each packet are visited and the ring that a
      failed report makes the search find; the optimizer reading the ring it was scheduled for, at any later time; the
      optimizer storing what it made of a ring, later again. */
  datatype Move =
    | Handled(e: Event, orders: seq<seq<Uuid>>, found: seq<Uuid>)
    | Read(g: Group)
    | Improved(g: Group, input: seq<Uuid>, ring: seq<Uuid>, optimal: bool)

  /** A peer that is connecting reports that it could not. */
  predicate FailedReport(s: State, e: Event) {
    && e.ReportP2P? && !e.success && e.addr in s.byAddr && s.byAddr[e.addr] in s.clients
    && s.clients[s.byAddr[e.addr]].conn == Connecting
  }

  /** A ring as the search returns it for some unreachability. */
  ghost predicate FromSearch(s: State, g: Group, ring: seq<Uuid>) {
    exists peers, unreach :: Searched(s, g, ring, peers, unreach)
  }

  ghost predicate Searched(s: State, g: Group, ring: seq<Uuid>, peers: seq<Uuid>, unreach: map<Uuid, set<Uuid>>) {
    && Distinct(peers) && Elements(peers) == Eligible(s, g) && |peers| > 0
    && if |peers| == 1 then ring == peers else Hamiltonian(ring, peers, unreach)
  }

  /** The verdict on a failed report is what search and cache make of it. */
  ghost predicate Coupled(s: State, t: Cache, e: Event, found: seq<Uuid>) {
    FailedReport(s, e) && e.fail != FailVerdict.KickPeer ==>
      var g := s.clients[s.byAddr[e.addr]].group;
      FromSearch(s, g, found) && (e.fail == StillOptimal <==> Settled(t, g, found))
  }

  /** The cache when the packets of a step are sent: a ring that the search found is stored before. */
  function Prepared(s: State, t: Cache, e: Event, found: seq<Uuid>): Cache {
    if FailedReport(s, e) && e.fail == NewRing then Stored(t, s.clients[s.byAddr[e.addr]].group, found, false) else t
  }

  /** At the end of an optimization phase the optimizer is scheduled for every group whose ring is not optimal. */
  ghost function Scheduled(s: State, t: Cache, out: seq<Cast>): set<Group> {
    if exists c :: c in out && c.body == OptimizeEnd then (set u | u in s.clients :: s.clients[u].group) - t.optimal else {}
  }

  /** What the optimizer makes of a ring: a ring of one is left alone, and is not called optimal; otherwise it is a tour
      of peers of the ring between which the bandwidth store had an entry when it was asked. */
  ghost predicate Solved(input: seq<Uuid>, ring: seq<Uuid>, optimal: bool, known: set<Uuid>) {
    if |input| == 1 then ring == input && !optimal
    else Distinct(ring) && Elements(ring) <= Elements(input) && Elements(ring) <= known
  }

  ghost predicate LeadsTo(w: World, m: Move, w': World) {
    && w'.known == w.known + w'.s.metered
    && match m
       case Handled(e, orders, found) =>
         && Legal(w.s, e) && Step(w.s, e).Next? && Ordered(Step(w.s, e).out, orders) && Coupled(w.s, w.t, e, found)
         && w'.s == Step(w.s, e).state && w'.t == ServeAll(Prepared(w.s, w.t, e, found), w'.s, Step(w.s, e).out, orders)
         && w'.due == w.due + Scheduled(w'.s, w'.t, Step(w.s, e).out) && w'.held == w.held
       case Read(g) =>
         && g in w.due && w'.s == w.s && w'.t == Fetched(w.t, w.s, g, false) && w'.due == w.due - {g}
         && w'.held == w.held + if g in w'.t.optimal then {} else {(g, RingOf(w'.t, g))}
       case Improved(g, input, ring, optimal) =>
         && (g, input) in w.held && Solved(input, ring, optimal, w.known) && w'.s == w.s
         && w'.t == (if Settled(w.t, g, ring) then w.t else Stored(w.t, g, ring, optimal))
         && w'.due == w.due && w'.held == w.held - {(g, input)}
  }

  function Beginning(): World { World(Start(), Cache(map[], {}), {}, {}, {}) }

  ghost predicate History(ws: seq<World>, ms: seq<Move>) {
    && |ws| == |ms| + 1 && ws[0] == Beginning()
    && forall i :: 0 <= i < |ms| ==> LeadsTo(ws[i], ms[i], ws[i + 1])
  }

  // Sane rings --------------------------------------------------------------------------------------

  ghost predicate SaneWorld(w: World) {
    Inv(w.s) && SaneCache(w.s, w.t) && forall r :: r in w.held ==> Sane(w.s, r.0, r.1)
  }

  lemma SaneKept(s: State, s': State, g: Group, ring: seq<Uuid>)
    requires Kept(s, s') && Sane(s, g, ring)
    ensures Sane(s', g, ring)
  {
  }

  lemma ClientsSane(s: State, g: Group, ring: seq<Uuid>)
    requires MadeOfClients(s, g, ring) && Inv(s)
    ensures Sane(s, g, ring)
  {
    hide Clients, VotesOk, StrategiesOk, MeteredOk;
    assert forall u :: u in ring ==> u in Elements(ring);
  }

  lemma RenewedSane(s: State, t: Cache, t': Cache)
    requires Inv(s) && SaneCache(s, t) && Renewed(t, t', s)
    ensures SaneCache(s, t')
  {
    hide Inv, Sane, MadeOfClients, RingOf;
    forall g ensures Sane(s, g, RingOf(t', g)) {
      assert Sane(s, g, RingOf(t, g));
      if MadeOfClients(s, g, RingOf(t', g)) { ClientsSane(s, g, RingOf(t', g)); }
    }
  }

  lemma CacheKept(s: State, s': State, t: Cache)
    requires SaneCache(s, t) && Kept(s, s')
    ensures SaneCache(s', t)
  {
    hide Kept, Sane;
    forall g ensures Sane(s', g, RingOf(t, g)) {
      assert Sane(s, g, RingOf(t, g));
      SaneKept(s, s', g, RingOf(t, g));
    }
  }

  /** What the search finds is a permutation of the eligible peers. */
  lemma SearchedRing(s: State, g: Group, ring: seq<Uuid>)
    requires FromSearch(s, g, ring)
    ensures Distinct(ring) && Elements(ring) == Eligible(s, g) && MadeOfClients(s, g, ring)
  {
    var peers, unreach :| Searched(s, g, ring, peers, unreach);
    if |peers| > 1 {
      CoversIsPermutation(ring, peers);
      assert forall u :: u in ring <==> u in multiset(ring);
      assert forall u :: u in peers <==> u in multiset(peers);
      assert Elements(ring) == Elements(peers);
    }
  }

  lemma PreparedRenews(s: State, t: Cache, e: Event, found: seq<Uuid>)
    requires Coupled(s, t, e, found)
    ensures Renewed(t, Prepared(s, t, e, found), s)
  {
    hide FromSearch, MadeOfClients;
    if FailedReport(s, e) && e.fail == NewRing { SearchedRing(s, s.clients[s.byAddr[e.addr]].group, found); }
  }

  lemma HandledSane(w: World, e: Event, orders: seq<seq<Uuid>>, found: seq<Uuid>, w': World)
    requires SaneWorld(w) && LeadsTo(w, Handled(e, orders, found), w')
    ensures Inv(w'.s) && Kept(w.s, w'.s) && SaneCache(w'.s, w'.t)
  {
    hide Inv, Legal, Step, Sane, SaneCache, Coupled, Kept, Prepared, ServeAll, Numbered, Scheduled;
    StepInv(w.s, e);
    StepSound(w.s, e);
    var t := Prepared(w.s, w.t, e, found);
    PreparedRenews(w.s, w.t, e, found);
    RenewedSane(w.s, w.t, t);
    CacheKept(w.s, w'.s, t);
    ServeAllRenews(t, w'.s, Step(w.s, e).out, orders);
    RenewedSane(w'.s, t, w'.t);
  }

  lemma MoveSane(w: World, m: Move, w': World)
    requires SaneWorld(w) && LeadsTo(w, m, w')
    ensures SaneWorld(w') && Kept(w.s, w'.s)
  {
    hide Inv, Legal, Step, Sane, Coupled, Kept, Prepared, ServeAll, Fetched, MadeOfClients, Stored, Settled, Scheduled, Solved,
         RingOf;
    match m {
      case Handled(e, orders, found) => HandledSane(w, e, orders, found, w');
      case Read(g) =>
        FetchRenews(w.t, w.s, g, false);
        RenewedSane(w.s, w.t, w'.t);
        KeptSelf(w.s);
        assert Sane(w'.s, g, RingOf(w'.t, g));
      case Improved(g, input, ring, optimal) =>
        Rearranged(w.s, g, input, ring, optimal, w.known);
        StoredSane(w.s, w.t, g, ring, optimal);
        KeptSelf(w.s);
    }
    forall r | r in w'.held ensures Sane(w'.s, r.0, r.1) {
      if r in w.held { SaneKept(w.s, w'.s, r.0, r.1); }
    }
  }

  lemma KeptSelf(s: State)
    ensures Kept(s, s)
  {
  }

  lemma StoredSane(s: State, t: Cache, g: Group, ring: seq<Uuid>, optimal: bool)
    requires SaneCache(s, t) && Sane(s, g, ring)
    ensures SaneCache(s, Stored(t, g, ring, optimal))
  {
    hide Sane;
    forall h ensures Sane(s, h, RingOf(Stored(t, g, ring, optimal), h)) { assert Sane(s, h, RingOf(t, h)); }
  }

  lemma Rearranged(s: State, g: Group, input: seq<Uuid>, ring: seq<Uuid>, optimal: bool, known: set<Uuid>)
    requires Sane(s, g, input) && Solved(input, ring, optimal, known)
    ensures Sane(s, g, ring)
  {
    assert forall u :: u in ring ==> u in Elements(ring);
    assert forall u :: u in Elements(input) ==> u in input;
  }

  /** In every run each cached ring is free of duplicates and names only peers that are or were in the group. */
  lemma {:induction false} HistorySane(ws: seq<World>, ms: seq<Move>)
    requires History(ws, ms)
    ensures SaneWorld(ws[|ms|])
    decreases |ms|
  {
    hide LeadsTo, SaneWorld;
    var n := |ms|;
    if n == 0 {
      StartSane();
    } else {
      assert History(ws[..n], ms[..n - 1]);
      HistorySane(ws[..n], ms[..n - 1]);
      assert LeadsTo(ws[n - 1], ms[n - 1], ws[n]);
      MoveSane(ws[n - 1], ms[n - 1], ws[n]);
    }
  }

  lemma StartSane()
    ensures SaneWorld(Beginning())
  {
    StartInv();
  }

  // When the cache ends the process -----------------------------------------------------------------

  lemma SaneDistinct(s: State, t: Cache)
    requires SaneCache(s, t)
    ensures DistinctRings(t)
  {
    forall g ensures Distinct(RingOf(t, g)) { assert Sane(s, g, RingOf(t, g)); }
  }

  /** Whom the bandwidth store knew, and who is on an optimal ring, is accepted if it is still there. */
  ghost predicate Marked(w: World) {
    && w.known <= w.s.issued && AllAccepted(w.s, w.known)
    && forall g :: g in w.t.optimal ==> AllAccepted(w.s, Elements(RingOf(w.t, g)))
  }

  ghost predicate AllAccepted(s: State, us: set<Uuid>) {
    forall u :: u in us && u in s.clients ==> s.clients[u].phase == Accepted
  }

  /** Nobody loses its place while it stays, and nobody comes back under an old id. */
  lemma AcceptedKept(s: State, s': State, us: set<Uuid>)
    requires Kept(s, s') && us <= s.issued && AllAccepted(s, us)
    ensures us <= s'.issued && AllAccepted(s', us)
  {
  }

  lemma SaneIssued(s: State, t: Cache, g: Group)
    requires SaneCache(s, t)
    ensures Elements(RingOf(t, g)) <= s.issued
  {
    assert Sane(s, g, RingOf(t, g));
  }

  lemma MeteredKnown(s: State)
    requires Inv(s)
    ensures s.metered <= s.issued && AllAccepted(s, s.metered)
  {
    hide Clients, VotesOk, StrategiesOk;
  }

  /** Rings that are optimal after a step are so, unchanged, from before. */
  lemma HandledRenews(w: World, e: Event, orders: seq<seq<Uuid>>, found: seq<Uuid>, w': World, g: Group)
    requires LeadsTo(w, Handled(e, orders, found), w') && g in w'.t.optimal
    ensures g in w.t.optimal && RingOf(w'.t, g) == RingOf(w.t, g)
  {
    hide Legal, Step, Coupled, Prepared, ServeAll, Scheduled, MadeOfClients, RingOf;
    PreparedRenews(w.s, w.t, e, found);
    ServeAllRenews(Prepared(w.s, w.t, e, found), w'.s, Step(w.s, e).out, orders);
  }

  /** The ring of an optimal group after any move: the one before, or made by the optimizer of known peers. */
  lemma MarkedFrom(w: World, m: Move, w': World, g: Group)
    requires LeadsTo(w, m, w') && g in w'.t.optimal
    ensures (g in w.t.optimal && RingOf(w'.t, g) == RingOf(w.t, g)) || (w'.s == w.s && Elements(RingOf(w'.t, g)) <= w.known)
  {
    hide Legal, Step, Coupled, Prepared, ServeAll, Scheduled;
    match m
    case Handled(e, orders, found) => HandledRenews(w, e, orders, found, w', g);
    case Read(h) => FetchRenews(w.t, w.s, h, false);
    case Improved(_, _, _, _) =>
  }

  lemma MoveMarked(w: World, m: Move, w': World)
    requires SaneWorld(w) && Marked(w) && LeadsTo(w, m, w')
    ensures Marked(w')
  {
    MoveSane(w, m, w');
    hide Inv, LeadsTo, Kept, SaneCache, AllAccepted, RingOf;
    AcceptedKept(w.s, w'.s, w.known);
    MeteredKnown(w'.s);
    assert w'.known == w.known + w'.s.metered by { KnownGrows(w, m, w'); }
    BothAccepted(w'.s, w.known, w'.s.metered);
    forall g | g in w'.t.optimal ensures AllAccepted(w'.s, Elements(RingOf(w'.t, g))) {
      MarkedFrom(w, m, w', g);
      if g in w.t.optimal && RingOf(w'.t, g) == RingOf(w.t, g) {
        SaneIssued(w.s, w.t, g);
        AcceptedKept(w.s, w'.s, Elements(RingOf(w.t, g)));
      } else {
        FewerAccepted(w.s, Elements(RingOf(w'.t, g)), w.known);
      }
    }
  }

  lemma KnownGrows(w: World, m: Move, w': World)
    requires LeadsTo(w, m, w')
    ensures w'.known == w.known + w'.s.metered
  {
  }

  lemma BothAccepted(s: State, a: set<Uuid>, b: set<Uuid>)
    requires AllAccepted(s, a) && AllAccepted(s, b)
    ensures AllAccepted(s, a + b)
  {
  }

  lemma FewerAccepted(s: State, a: set<Uuid>, b: set<Uuid>)
    requires a <= b && AllAccepted(s, b)
    ensures AllAccepted(s, a)
  {
  }

  /** In every run: an optimal ring names nobody who is a client and not accepted. */
  lemma {:induction false} OptimalRingsAreAccepted(ws: seq<World>, ms: seq<Move>)
    requires History(ws, ms)
    ensures Marked(ws[|ms|])
    decreases |ms|
  {
    hide LeadsTo, SaneWorld, Marked;
    var n := |ms|;
    if n == 0 {
      NothingMarked();
    } else {
      assert History(ws[..n], ms[..n - 1]);
      OptimalRingsAreAccepted(ws[..n], ms[..n - 1]);
      HistorySane(ws[..n], ms[..n - 1]);
      assert LeadsTo(ws[n - 1], ms[n - 1], ws[n]);
      MoveMarked(ws[n - 1], ms[n - 1], ws[n]);
    }
  }

  lemma NothingMarked()
    ensures Marked(Beginning())
  {
  }

  lemma NeverTrapped(s: State, t: Cache, g: Group)
    requires g in t.optimal ==> AllAccepted(s, Elements(RingOf(t, g)))
    ensures !Trapped(t, s, g)
  {
    AcceptedEligible(s, g);
    if g in t.optimal && Elements(RingOf(t, g)) == Eligible(s, g) { assert Eligible(s, g) <= Locals(s, g, false); }
  }

  /** Over all histories the cache never ends the process, neither when a next step serves its rings nor when the
      optimizer reads one. */
  lemma FetchNeverFails(ws: seq<World>, ms: seq<Move>, e: Event, orders: seq<seq<Uuid>>, found: seq<Uuid>, g: Group)
    requires History(ws, ms)
    ensures !FetchFails(ws[|ms|].t, ws[|ms|].s, g, false)
    ensures
      var s, t := ws[|ms|].s, ws[|ms|].t;
      Legal(s, e) && Step(s, e).Next? && Ordered(Step(s, e).out, orders) && Coupled(s, t, e, found) ==>
        !ServeAllFails(Prepared(s, t, e, found), Step(s, e).state, Step(s, e).out, orders)
  {
    hide Inv, LeadsTo, Legal, Step, Sane, SaneCache, Coupled, Prepared, ServeAllFails, Springs, FetchFails, Trapped, DistinctRings;
    HistorySane(ws, ms);
    OptimalRingsAreAccepted(ws, ms);
    var w := ws[|ms|];
    SaneDistinct(w.s, w.t);
    RingIsDistinct(w.t, g);
    FetchFailsIff(w.t, w.s, g);
    NeverTrapped(w.s, w.t, g);
    if Legal(w.s, e) && Step(w.s, e).Next? && Ordered(Step(w.s, e).out, orders) && Coupled(w.s, w.t, e, found) {
      var t := Prepared(w.s, w.t, e, found);
      PreparedRenews(w.s, w.t, e, found);
      RenewedSane(w.s, w.t, t);
      SaneDistinct(w.s, t);
      StepServesIff(w.s, e, t, orders);
      NothingSprings(w, e, found);
    }
  }

  lemma NothingSprings(w: World, e: Event, found: seq<Uuid>)
    requires SaneWorld(w) && Marked(w) && Legal(w.s, e) && Step(w.s, e).Next? && Coupled(w.s, w.t, e, found)
    ensures !Springs(Prepared(w.s, w.t, e, found), Step(w.s, e).state, Step(w.s, e).out)
  {
    hide Inv, Legal, Step, Coupled, Prepared, Trapped, Kept, AllAccepted, Sane, SaneCache, RingOf;
    var t, s' := Prepared(w.s, w.t, e, found), Step(w.s, e).state;
    StepSound(w.s, e);
    PreparedRenews(w.s, w.t, e, found);
    forall g ensures !Trapped(t, s', g) {
      if g in t.optimal {
        SaneIssued(w.s, w.t, g);
        AcceptedKept(w.s, s', Elements(RingOf(w.t, g)));
      }
      NeverTrapped(s', t, g);
    }
  }

  // The bug of the ring search ----------------------------------------------------------------------

  /** The ring of the group is optimal, and made of exactly the peers the search looks at. */
  ghost predicate AlreadyOptimal(t: Cache, s: State, g: Group) {
    g in t.optimal && Elements(RingOf(t, g)) == Eligible(s, g)
  }

  lemma SettledIff(s: State, t: Cache, g: Group, found: seq<Uuid>)
    requires Distinct(RingOf(t, g)) && FromSearch(s, g, found)
    ensures Settled(t, g, found) <==> AlreadyOptimal(t, s, g)
  {
    hide FromSearch;
    SearchedRing(s, g, found);
    DistinctSize(found);
    DistinctSize(RingOf(t, g));
    assert forall u :: u in RingOf(t, g) <==> u in Elements(RingOf(t, g));
    assert forall u :: u in found <==> u in Elements(found);
    if Settled(t, g, found) { SubsetSameSize(Elements(RingOf(t, g)), Elements(found)); }
  }

  /** A failed report for which the search found a ring, in a group whose ring is optimal and of the same peers. */
  ghost predicate Detours(t: Cache, s: State, e: Event) {
    && FailedReport(s, e) && e.fail != FailVerdict.KickPeer
    && AlreadyOptimal(t, s, s.clients[s.byAddr[e.addr]].group)
  }

  /** Over all histories and all packets, the exact guard of the LOG(BUG) behind a failed report. No newcomer is connecting
      then. */
  lemma DetourEndsMasterIff(ws: seq<World>, ms: seq<Move>, e: Event, found: seq<Uuid>)
    requires History(ws, ms) && Legal(ws[|ms|].s, e) && Coupled(ws[|ms|].s, ws[|ms|].t, e, found)
    ensures
      var s, t := ws[|ms|].s, ws[|ms|].t;
      && (Step(s, e) == Halt(Bug.RingOptimal) <==> Detours(t, s, e))
      && (Detours(t, s, e) ==>
            var g := s.clients[s.byAddr[e.addr]].group;
            Eligible(s, g) == Locals(s, g, false))
  {
    hide Inv, LeadsTo, SaneCache, Settled, AlreadyOptimal, FromSearch, Trapped, Eligible, Locals, Step, Legal;
    HistorySane(ws, ms);
    OptimalRingsAreAccepted(ws, ms);
    var s, t := ws[|ms|].s, ws[|ms|].t;
    DetourHaltsIff(s, e);
    if FailedReport(s, e) && e.fail != FailVerdict.KickPeer {
      var g := s.clients[s.byAddr[e.addr]].group;
      SaneDistinct(s, t);
      RingIsDistinct(t, g);
      SettledIff(s, t, g, found);
      NeverTrapped(s, t, g);
      NoNewcomer(s, t, g);
    }
  }

  lemma NoNewcomer(s: State, t: Cache, g: Group)
    requires !Trapped(t, s, g)
    ensures AlreadyOptimal(t, s, g) ==> Eligible(s, g) == Locals(s, g, false)
  {
  }

  lemma ReportDetours(s: State, u: Uuid, success: bool, fail: FailVerdict)
    requires Inv(s) && u in s.clients
    ensures OnReportP2P(s, u, success, fail) == Halt(Bug.RingOptimal) <==>
      s.clients[u].conn == Connecting && !success && fail == StillOptimal
  {
    hide Inv, CheckP2P;
    if s.clients[u].conn == Connecting && (success || fail == NewRing) {
      RetryRace.ReportedInv(s, u, success);
      CheckP2PInv(SetConn(s, u, if success then Waiting else ConnectFailed));
    }
  }

  lemma DetourHaltsIff(s: State, e: Event)
    requires Inv(s) && Legal(s, e)
    ensures Step(s, e) == Halt(Bug.RingOptimal) <==> FailedReport(s, e) && e.fail == StillOptimal
  {
    hide Inv, OnRegister, OnRequestP2P, OnReportP2P, OnQueryPending, OnRequestOptimize, OnReportOptimized, OnSyncState,
         OnReportSynced, OnInitiate, OnComplete, OnDisconnect;
    if e.Register? {
      RegisterInv(s, e.addr, e.local, e.group, e.id);
    } else if e.addr in s.byAddr && s.byAddr[e.addr] in s.clients {
      var u := s.byAddr[e.addr];
      match e
      case RequestP2P(_, accept) => RequestP2PInv(s, u, accept);
      case ReportP2P(_, success, fail) => ReportDetours(s, u, success, fail);
      case QueryPending(_) => QueryPendingInv(s, u);
      case RequestOptimize(_) => OptimizeInv(s, u);
      case ReportBandwidth(_, _) =>
      case ReportOptimized(_) => OptimizeInv(s, u);
      case SyncState(_, legal, strategy, verdict) => SyncStateInv(s, u, legal, strategy, verdict);
      case ReportSynced(_) => ReportSyncedInv(s, u);
      case Initiate(_, tag) => InitiateInv(s, u, tag);
      case Complete(_, tag, aborted) => CompleteInv(s, u, tag, aborted);
      case Disconnect(_, verdict, tags) => DisconnectInv(s, u, verdict, tags);
    }
  }
}
