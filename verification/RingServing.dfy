/** Serving rings over any step of the master: what the cache holds afterwards, and exactly when it ends the process. */
module RingServing {
  import opened MasterSpec
  import opened MasterInv
  import opened Topology
  import opened RingSearch
  import opened AcceptPhase
  import opened RetryRace

  ghost predicate MadeOfClients(s: State, g: Group, ring: seq<Uuid>) {
    Distinct(ring) && Elements(ring) <= Locals(s, g, true)
  }

  // What is stored ----------------------------------------------------------------------------------

  /** Each ring is the one before, or made of clients of its group; a ring that is optimal was so before. */
  ghost predicate Renewed(t: Cache, t': Cache, s: State) {
    && (forall g :: RingOf(t', g) == RingOf(t, g) || MadeOfClients(s, g, RingOf(t', g)))
    && (forall g :: g in t'.optimal ==> g in t.optimal && RingOf(t', g) == RingOf(t, g))
  }

  lemma FetchRenews(t: Cache, s: State, g: Group, registered: bool)
    ensures Renewed(t, Fetched(t, s, g, registered), s)
  {
    BasicFacts(s, g);
  }

  lemma RenewedThrough(a: Cache, b: Cache, c: Cache, s: State)
    requires Renewed(a, b, s) && Renewed(b, c, s)
    ensures Renewed(a, c, s)
  {
    hide MadeOfClients, RingOf;
  }

  lemma {:induction false} ServeRenews(t: Cache, s: State, order: seq<Uuid>, registered: bool)
    ensures Renewed(t, Serve(t, s, order, registered), s)
    decreases |order|
  {
    hide Renewed, Fetched;
    if order == [] {
      NothingRenewed(t, s);
    } else if order[0] !in s.clients {
      ServeRenews(t, s, order[1..], registered);
    } else {
      var t1 := Fetched(t, s, s.clients[order[0]].group, registered);
      FetchRenews(t, s, s.clients[order[0]].group, registered);
      ServeRenews(t1, s, order[1..], registered);
      RenewedThrough(t, t1, Serve(t1, s, order[1..], registered), s);
    }
  }

  lemma NothingRenewed(t: Cache, s: State)
    ensures Renewed(t, t, s)
  {
  }

  /** Whatever a step sends, each ring is then unchanged or made of clients of the group; one that is replaced is no
      longer optimal, and none becomes optimal. */
  lemma {:induction false} ServeAllRenews(t: Cache, s: State, out: seq<Cast>, orders: seq<seq<Uuid>>)
    requires Ordered(out, orders)
    ensures Renewed(t, ServeAll(t, s, out, orders), s)
    decreases |out|
  {
    hide Renewed, Serve;
    if out == [] {
      NothingRenewed(t, s);
    } else {
      var t1 := if Asks(out[0].body) then Serve(t, s, orders[0], Counts(out[0].body)) else t;
      NothingRenewed(t, s);
      ServeRenews(t, s, orders[0], Counts(out[0].body));
      ServeAllRenews(t1, s, out[1..], orders[1..]);
      RenewedThrough(t, t1, ServeAll(t, s, out, orders), s);
    }
  }

  // When serving fails ------------------------------------------------------------------------------

  ghost predicate DistinctRings(t: Cache) { forall g :: Distinct(RingOf(t, g)) }

  /** An optimal ring of exactly the peers a new ring would be built from, while one of them is only registered. */
  ghost predicate Trapped(t: Cache, s: State, g: Group) {
    g in t.optimal && Elements(RingOf(t, g)) == Eligible(s, g) != Locals(s, g, false)
  }

  lemma AcceptedEligible(s: State, g: Group)
    ensures Locals(s, g, false) <= Eligible(s, g)
    ensures |Locals(s, g, false)| == |Eligible(s, g)| <==> Locals(s, g, false) == Eligible(s, g)
  {
    SubsetCount(Locals(s, g, false), Eligible(s, g));
  }

  /** Fetching a ring of the accepted peers ends the process exactly if the ring is trapped. */
  lemma FetchFailsIff(t: Cache, s: State, g: Group)
    requires Distinct(RingOf(t, g))
    ensures FetchFails(t, s, g, false) <==> Trapped(t, s, g)
  {
    var ring, basic := RingOf(t, g), Basic(s, g);
    BasicFacts(s, g);
    DistinctSize(ring);
    AcceptedEligible(s, g);
    assert forall u :: u in ring <==> u in Elements(ring);
    assert forall u :: u in basic <==> u in Elements(basic);
    if FetchFails(t, s, g, false) {
      assert Elements(ring) <= Elements(basic);
      SubsetSameSize(Elements(ring), Elements(basic));
    }
  }

  lemma FetchKeepsTraps(t: Cache, s: State, g: Group, registered: bool, h: Group)
    requires DistinctRings(t) && !FetchFails(t, s, g, registered)
    ensures DistinctRings(Fetched(t, s, g, registered))
    ensures Trapped(Fetched(t, s, g, registered), s, h) <==> Trapped(t, s, h)
  {
    BasicFacts(s, g);
    var t' := Fetched(t, s, g, registered);
    forall k ensures Distinct(RingOf(t', k)) {
      assert Distinct(RingOf(t, k));
      assert RingOf(t', k) == RingOf(t, k) || RingOf(t', k) == Basic(s, g);
    }
    DistinctSize(RingOf(t, g));
    assert Trapped(t, s, g) ==> forall u :: u in RingOf(t, g) ==> u in Elements(Basic(s, g));
  }

  /** For all receivers both ways of counting agree. */
  ghost predicate Countable(s: State, to: set<Uuid>, registered: bool) {
    forall u :: u in to && u in s.clients ==> Eligible(s, s.clients[u].group) == Locals(s, s.clients[u].group, registered)
  }

  ghost predicate SomeTrapped(t: Cache, s: State, to: set<Uuid>) {
    exists u :: u in to && u in s.clients && Trapped(t, s, s.clients[u].group)
  }

  lemma FetchCountable(t: Cache, s: State, g: Group, registered: bool)
    requires Eligible(s, g) == Locals(s, g, registered)
    ensures !FetchFails(t, s, g, registered)
  {
    hide FetchFails;
    if FetchFails(t, s, g, registered) { FetchFailsOnlyIf(t, s, g, registered); }
  }

  lemma {:induction false} ServeFailsIff(t: Cache, s: State, order: seq<Uuid>, registered: bool)
    requires DistinctRings(t) && (Countable(s, Elements(order), registered) || !registered)
    ensures Countable(s, Elements(order), registered) ==> !ServeFails(t, s, order, registered)
    ensures !registered ==> (ServeFails(t, s, order, false) <==> SomeTrapped(t, s, Elements(order)))
    ensures !ServeFails(t, s, order, registered) ==>
      DistinctRings(Serve(t, s, order, registered)) && forall h :: Trapped(Serve(t, s, order, registered), s, h) <==> Trapped(t, s, h)
    decreases |order|
  {
    hide Trapped, DistinctRings, FetchFails, Fetched, Eligible, Locals;
    if order != [] {
      var rest := order[1..];
      assert Elements(order) == Elements(rest) + {order[0]};
      if order[0] !in s.clients {
        ServeFailsIff(t, s, rest, registered);
      } else {
        var g := s.clients[order[0]].group;
        if Countable(s, Elements(order), registered) { FetchCountable(t, s, g, registered); }
        if !registered { RingIsDistinct(t, g); FetchFailsIff(t, s, g); }
        if !FetchFails(t, s, g, registered) {
          FetchKeepsTraps(t, s, g, registered, g);
          forall h ensures Trapped(Fetched(t, s, g, registered), s, h) <==> Trapped(t, s, h) {
            FetchKeepsTraps(t, s, g, registered, h);
          }
          ServeFailsIff(Fetched(t, s, g, registered), s, rest, registered);
        }
      }
    }
  }

  lemma RingIsDistinct(t: Cache, g: Group)
    requires DistinctRings(t)
    ensures Distinct(RingOf(t, g))
  {
  }

  /** All but the packets that open a phase of accepted peers only are counted alike. */
  ghost predicate Fetchable(s: State, c: Cast) {
    Asks(c.body) && c.body != PeersInfo(false) ==> Countable(s, c.to, Counts(c.body))
  }

  /** Somebody of a trapped group is asked to connect to accepted peers only. */
  ghost predicate Springs(t: Cache, s: State, out: seq<Cast>) {
    exists c :: c in out && c.body == PeersInfo(false) && SomeTrapped(t, s, c.to)
  }

  lemma {:induction false} ServeAllFailsIff(t: Cache, s: State, out: seq<Cast>, orders: seq<seq<Uuid>>)
    requires Ordered(out, orders) && DistinctRings(t) && forall c :: c in out ==> Fetchable(s, c)
    ensures ServeAllFails(t, s, out, orders) <==> Springs(t, s, out)
    decreases |out|
  {
    hide Trapped, DistinctRings, Countable, Serve, ServeFails;
    if out != [] {
      assert out[0] in out && forall c :: c in out[1..] ==> c in out;
      assert forall c :: c in out ==> c == out[0] || c in out[1..];
      assert Elements(orders[0]) == out[0].to;
      if Asks(out[0].body) {
        assert Fetchable(s, out[0]);
        ServeFailsIff(t, s, orders[0], Counts(out[0].body));
        var t1 := Serve(t, s, orders[0], Counts(out[0].body));
        if !ServeFails(t, s, orders[0], Counts(out[0].body)) { ServeAllFailsIff(t1, s, out[1..], orders[1..]); }
      } else {
        ServeAllFailsIff(t, s, out[1..], orders[1..]);
      }
    }
  }

  // Every step sends only such packets --------------------------------------------------------------

  /** The same clients as far as rings are concerned. */
  ghost predicate SameRings(s: State, s': State) {
    && s'.clients.Keys == s.clients.Keys
    && forall u :: u in s.clients ==>
         && s'.clients[u].phase == s.clients[u].phase && s'.clients[u].group == s.clients[u].group
         && (s'.clients[u].conn == Connecting <==> s.clients[u].conn == Connecting)
  }

  /** A check that neither asks for rings nor matters to them. */
  ghost predicate Late(s: State, o: Outcome) {
    o.Next? ==> SameRings(s, o.state) && forall c :: c in o.out ==> !Asks(c.body)
  }

  lemma LateThrough(s: State, a: Outcome, b: Outcome)
    requires Late(s, a) && a.Next? && Late(a.state, b)
    ensures Late(s, Before(b, a.out))
  {
  }

  lemma LateStay(s: State)
    ensures Late(s, Stay(s))
  {
  }

  lemma PendingLate(s: State)
    ensures CheckPending(s).Next? && Late(s, CheckPending(s))
  {
    hide PendingConsensus, Everyone;
  }

  lemma SyncLate(s: State, g: Group, verdict: SyncVerdict)
    ensures Late(s, CheckSync(s, g, verdict))
  {
    hide Members, In, Votes;
  }

  lemma SyncedLate(s: State, g: Group)
    requires Inv(s)
    ensures Late(s, CheckSynced(s, g))
  {
    hide Inv, Members, Votes, EndRound;
    if Members(s, g) <= In(s, g, VoteSynced) { ReleasedSame(s, g); }
  }

  lemma ReleasedSame(s: State, g: Group)
    requires Members(s, g) <= In(s, g, VoteSynced)
    ensures SameRings(s, EndRound(s, g))
  {
    var s' := EndRound(s, g);
    forall u | u in s.clients
      ensures s'.clients[u].conn == Connecting <==> s.clients[u].conn == Connecting
    {
      if s.clients[u].phase == Accepted && s.clients[u].group == g { assert u in Members(s, g); }
    }
  }

  lemma InitiateLate(s: State, g: Group, tag: Tag)
    ensures Late(s, CheckInitiate(s, g, tag))
  {
    hide AllInColl, Runners;
  }

  lemma CompleteLate(s: State, g: Group, tag: Tag)
    ensures Late(s, CheckComplete(s, g, tag))
  {
    hide AllInColl, Concluded;
    if Members(s, g) <= Runners(s, g) { ConcludedSame(s, g, tag); }
  }

  lemma ConcludedSame(s: State, g: Group, tag: Tag)
    requires Members(s, g) <= Runners(s, g)
    ensures SameRings(s, Concluded(s, g, tag))
  {
    var s' := Concluded(s, g, tag);
    forall u | u in s.clients
      ensures s'.clients[u].conn == Connecting <==> s.clients[u].conn == Connecting
    {
      if u in Members(s, g) { assert s.clients[u].conn == Running; }
    }
  }

  lemma MarkLate(s: State, g: Group, tag: Tag)
    ensures MarkAborted(s, g, tag).Next? && Late(s, MarkAborted(s, g, tag))
  {
    hide Runners;
  }

  lemma RecheckLate(s: State, g: Group, tag: Tag)
    ensures Late(s, Recheck(s, g, tag))
  {
    hide CheckInitiate, CheckComplete, MarkAborted, InProgress, Late;
    var a := CheckInitiate(s, g, tag);
    InitiateLate(s, g, tag);
    if a.Halt? {
      HaltLate(s, a);
    } else {
      var b := CheckComplete(a.state, g, tag);
      CompleteLate(a.state, g, tag);
      if b.Halt? {
        HaltLate(s, b);
      } else {
        LateThrough(s, a, b);
        MarkLate(b.state, g, tag);
        LateStay(b.state);
        var c := if InProgress(b.state, g, tag) then MarkAborted(b.state, g, tag) else Stay(b.state);
        LateThrough(s, Before(b, a.out), c);
      }
    }
  }

  lemma HaltLate(s: State, o: Outcome)
    requires o.Halt?
    ensures Late(s, o)
  {
  }

  lemma {:induction false} RecheckAllLate(s: State, g: Group, tags: seq<Tag>)
    ensures Late(s, RecheckAll(s, g, tags))
    decreases |tags|
  {
    hide Recheck, Late;
    if tags == [] {
      LateStay(s);
    } else {
      var a := Recheck(s, g, tags[0]);
      RecheckLate(s, g, tags[0]);
      if a.Next? {
        RecheckAllLate(a.state, g, tags[1..]);
        LateThrough(s, a, RecheckAll(a.state, g, tags[1..]));
      }
    }
  }

  ghost predicate AllFetchable(o: Outcome) { o.Next? ==> forall c :: c in o.out ==> Fetchable(o.state, c) }

  lemma SameCounts(s: State, s': State, g: Group)
    requires SameRings(s, s')
    ensures Eligible(s', g) == Eligible(s, g) && Locals(s', g, true) == Locals(s, g, true) && Locals(s', g, false) == Locals(s, g, false)
  {
  }

  lemma SameFetchable(s: State, s': State, c: Cast)
    requires SameRings(s, s') && Fetchable(s, c)
    ensures Fetchable(s', c)
  {
    hide Eligible, Locals;
    forall u | u in c.to && u in s'.clients ensures u in s.clients && s'.clients[u].group == s.clients[u].group {
      SameCounts(s, s', s.clients[u].group);
    }
    forall u | u in c.to && u in s'.clients
      ensures Eligible(s', s'.clients[u].group) == Eligible(s, s.clients[u].group)
      ensures Locals(s', s'.clients[u].group, true) == Locals(s, s.clients[u].group, true)
      ensures Locals(s', s'.clients[u].group, false) == Locals(s, s.clients[u].group, false)
    {
      SameCounts(s, s', s.clients[u].group);
    }
  }

  lemma FetchableThrough(a: Outcome, b: Outcome)
    requires a.Next? && AllFetchable(a) && Late(a.state, b)
    ensures AllFetchable(Before(b, a.out))
  {
    hide Fetchable, SameRings;
    if b.Next? {
      forall c | c in a.out + b.out ensures Fetchable(b.state, c) {
        if c in a.out { SameFetchable(a.state, b.state, c); } else { NotAsking(b.state, c); }
      }
    }
  }

  lemma NotAsking(s: State, c: Cast)
    requires !Asks(c.body)
    ensures Fetchable(s, c)
  {
  }

  lemma OpenedFetchable(s: State)
    ensures CheckEstablish(s).Next? && AllFetchable(CheckEstablish(s))
  {
    hide Consensus, InConn;
    if AcceptConsensus(s) {
      var first := OpenP2P(s, true).(dropped := false);
      assert AllConnecting(first);
      assert AllConnecting(OpenP2P(first, false).(dropped := false));
    }
    var o := CheckEstablish(s);
    if AllConnecting(o.state) {
      forall g ensures Eligible(o.state, g) == Locals(o.state, g, true) { }
    }
  }

  lemma ClosedFetchable(s: State)
    ensures AllFetchable(CheckP2P(s))
  {
    hide CanEndP2P, Newcomers, Participants;
    var o := CheckP2P(s);
    if o.Next? && P2PConsensus(s) {
      forall u | u in o.state.clients ensures o.state.clients[u].conn != Connecting { }
      forall g ensures Eligible(o.state, g) == Locals(o.state, g, false) { }
    }
  }

  lemma DropFetchable(s: State)
    requires Inv(s)
    ensures
      var a := CheckEstablish(s);
      && a.Next?
      && (var b := CheckP2P(a.state.(dropped := true)); AllFetchable(Before(b, a.out)))
  {
    hide Inv, CheckEstablish, CheckP2P, Consensus, AllFetchable, P2PConsensus;
    OpenedFetchable(s);
    OpenedNow(s);
    var a := CheckEstablish(s);
    var a' := a.state.(dropped := true);
    var b := CheckP2P(a');
    ClosedFetchable(a');
    SameConsensus(a.state);
    if Consensus(s, VoteAccept) || Consensus(s, VoteNoNew) {
      NoEnd(a');
      DroppedFetchable(a, a');
    } else {
      QuietBefore(b);
    }
  }

  lemma NoEnd(s: State)
    requires !P2PConsensus(s)
    ensures CheckP2P(s) == Stay(s)
  {
  }

  lemma DroppedFetchable(a: Outcome, s: State)
    requires a.Next? && AllFetchable(a) && s == a.state.(dropped := true)
    ensures AllFetchable(Before(Stay(s), a.out))
  {
    hide Fetchable;
    forall c | c in a.out ensures Fetchable(s, c) { SameFetchable(a.state, s, c); }
    assert a.out + [] == a.out;
  }

  lemma QuietBefore(b: Outcome)
    ensures Before(b, []) == b
  {
    if b.Next? { assert [] + b.out == b.out; }
  }

  lemma DepartedFetchable(s: State, u: Uuid, verdict: SyncVerdict)
    requires Inv(s) && u in s.clients
    ensures AllFetchable(Departed(s, u, verdict))
  {
    hide Inv, Leave, CheckEstablish, CheckP2P, CheckPending, CheckSync, CheckSynced, AllFetchable, Late;
    var g, s0 := s.clients[u].group, Leave(s, u);
    LeaveInv(s, u);
    CheckEstablishInv(s0);
    DropFetchable(s0);
    var a := CheckEstablish(s0);
    var a' := a.state.(dropped := true);
    DroppedInv(a.state, true);
    CheckP2PInv(a');
    var b := CheckP2P(a');
    if b.Halt? {
      HaltFetchable(b);
    } else {
      var ab := Next(b.state, a.out + b.out);
      assert Before(b, a.out) == ab;
      var c := CheckPending(b.state);
      PendingLate(b.state);
      CheckPendingInv(b.state);
      FetchableThrough(ab, c);
      var d := CheckSync(c.state, g, verdict);
      SyncLate(c.state, g, verdict);
      CheckSyncInv(c.state, g, verdict);
      var abc := Next(c.state, a.out + b.out + c.out);
      if d.Halt? {
        HaltFetchable(d);
      } else {
        FetchableThrough(abc, d);
        SyncedLate(d.state, g);
        FetchableThrough(Next(d.state, a.out + b.out + c.out + d.out), CheckSynced(d.state, g));
      }
    }
  }

  lemma HaltFetchable(o: Outcome)
    requires o.Halt?
    ensures AllFetchable(o)
  {
  }

  lemma DisconnectFetchable(s: State, u: Uuid, verdict: SyncVerdict, tags: seq<Tag>)
    requires Inv(s) && u in s.clients
    ensures AllFetchable(OnDisconnect(s, u, verdict, tags))
  {
    hide Inv, Departed, RecheckAll, AllFetchable, Late;
    var a := Departed(s, u, verdict);
    DepartedFetchable(s, u, verdict);
    if a.Next? {
      RecheckAllLate(a.state, s.clients[u].group, tags);
      FetchableThrough(a, RecheckAll(a.state, s.clients[u].group, tags));
    }
  }

  lemma RegisterFetchable(s: State, addr: Addr, local: bool, group: Group, u: Uuid)
    requires Inv(s) && u !in s.issued
    ensures AllFetchable(OnRegister(s, addr, local, group, u))
  {
    hide Inv, Enroll, CheckEstablish, Mixes, Fetchable;
    RegisterInv(s, addr, local, group, u);
    if addr in s.byAddr {
      NotAsking(s, Cast({s.byAddr[addr]}, Kick));
    } else {
      if !Mixes(s, local) { EnrollInv(s, addr, local, group, u); }
      var joined := if Mixes(s, local) then s else Enroll(s, addr, local, group, u).state;
      var o := OnRegister(s, addr, local, group, u);
      NotAsking(o.state, Cast({u}, Response(!Mixes(s, local))));
      if |joined.byAddr| == 1 {
        LoneFetchable(joined);
      } else {
        OpenedFetchable(joined);
      }
    }
  }

  /** A lone client that is connecting is counted either way. */
  lemma LoneFetchable(s: State)
    requires Inv(s) && |s.byAddr| == 1
    ensures Fetchable(s, Cast(InConn(s, Connecting), PeersInfo(true)))
  {
    hide Clients, VotesOk, StrategiesOk, MeteredOk;
    ClientCount(s);
    forall u | u in InConn(s, Connecting)
      ensures Eligible(s, s.clients[u].group) == Locals(s, s.clients[u].group, true)
    {
      assert s.clients.Keys == {u} by { assert |s.clients.Keys - {u}| == 0; }
    }
  }

  lemma PlainFetchable(s: State, u: Uuid, accept: bool, success: bool, fail: FailVerdict)
    requires Inv(s) && u in s.clients
    ensures AllFetchable(OnRequestP2P(s, u, accept)) && AllFetchable(OnReportP2P(s, u, success, fail)) && AllFetchable(OnQueryPending(s, u))
  {
    hide Inv, CastVote, CheckEstablish, CheckP2P, CheckPending, Fetchable, SetInfo;
    NotAsking(s, Cast({u}, Kick));
    var voted := CastVote(s, u, if accept then ToAccept else ToEstablish);
    if voted.Next? { OpenedFetchable(voted.state); }
    ClosedFetchable(SetConn(s, u, if success then Waiting else ConnectFailed));
    var s1 := SetInfo(s, u, s.clients[u].(pending := true));
    PendingLate(s1);
    forall c | c in CheckPending(s1).out ensures Fetchable(CheckPending(s1).state, c) { NotAsking(CheckPending(s1).state, c); }
  }

  lemma OptimizeFetchable(s: State, u: Uuid)
    requires u in s.clients
    ensures AllFetchable(OnRequestOptimize(s, u)) && AllFetchable(OnReportOptimized(s, u))
  {
    hide Countable, Members, Votes, Everyone, Consensus, Unanimous, CastVote, AllTo, SetVotes;
    VoteSilent(s, u, ToOptimize);
    VoteSilent(s, u, ToEndOptimize);
  }

  lemma RoundFetchable(s: State, u: Uuid, legal: bool, strategy: Strategy, verdict: SyncVerdict)
    requires u in s.clients
    ensures AllFetchable(OnSyncState(s, u, legal, strategy, verdict)) && AllFetchable(OnReportSynced(s, u))
  {
    hide Countable, Members, In, Votes, CastVote, SetVotes, Assigned, EndRound;
  }

  /** The remaining packets have nothing to do with rings. */
  lemma OtherFetchable(s: State, u: Uuid, tag: Tag, flag: bool, strategy: Strategy, verdict: SyncVerdict)
    requires u in s.clients
    ensures AllFetchable(OnRequestOptimize(s, u)) && AllFetchable(OnReportOptimized(s, u))
    ensures AllFetchable(OnSyncState(s, u, flag, strategy, verdict)) && AllFetchable(OnReportSynced(s, u))
    ensures AllFetchable(OnInitiate(s, u, tag)) && AllFetchable(OnComplete(s, u, tag, flag))
  {
    hide Countable, Members, Runners, AllInColl, SetInfo, Commenced, Concluded, OnRequestOptimize, OnReportOptimized,
         OnSyncState, OnReportSynced;
    OptimizeFetchable(s, u);
    RoundFetchable(s, u, flag, strategy, verdict);
  }

  lemma VoteSilent(s: State, u: Uuid, b: Ballot)
    requires u in s.clients
    ensures CastVote(s, u, b).Next? ==> CastVote(s, u, b).out == []
  {
  }

  lemma StepFetchable(s: State, e: Event)
    requires Inv(s) && Legal(s, e)
    ensures AllFetchable(Step(s, e))
  {
    hide Inv, Fetchable, OnRegister, OnRequestP2P, OnReportP2P, OnQueryPending, OnRequestOptimize, OnReportOptimized, OnSyncState,
         OnReportSynced, OnInitiate, OnComplete, OnDisconnect;
    if e.Register? {
      RegisterFetchable(s, e.addr, e.local, e.group, e.id);
    } else if e.addr in s.byAddr && s.byAddr[e.addr] in s.clients {
      var u := s.byAddr[e.addr];
      match e
      case RequestP2P(_, accept) => PlainFetchable(s, u, accept, true, NewRing);
      case ReportP2P(_, success, fail) => PlainFetchable(s, u, true, success, fail);
      case QueryPending(_) => PlainFetchable(s, u, true, true, NewRing);
      case RequestOptimize(_) => OtherFetchable(s, u, 0, true, TxOnly, NoMask);
      case ReportBandwidth(_, _) =>
      case ReportOptimized(_) => OtherFetchable(s, u, 0, true, TxOnly, NoMask);
      case SyncState(_, legal, strategy, verdict) => OtherFetchable(s, u, 0, legal, strategy, verdict);
      case ReportSynced(_) => OtherFetchable(s, u, 0, true, TxOnly, NoMask);
      case Initiate(_, tag) => OtherFetchable(s, u, tag, true, TxOnly, NoMask);
      case Complete(_, tag, aborted) => OtherFetchable(s, u, tag, aborted, TxOnly, NoMask);
      case Disconnect(_, verdict, tags) => DisconnectFetchable(s, u, verdict, tags);
    }
  }

  /** The exact condition, for every step: the rings it serves end the process if and only if it opens a phase for
      accepted peers only and reaches somebody of a trapped group. */
  lemma StepServesIff(s: State, e: Event, t: Cache, orders: seq<seq<Uuid>>)
    requires Inv(s) && Legal(s, e) && Step(s, e).Next? && Ordered(Step(s, e).out, orders) && DistinctRings(t)
    ensures ServeAllFails(t, Step(s, e).state, Step(s, e).out, orders) <==> Springs(t, Step(s, e).state, Step(s, e).out)
  {
    hide Inv, Step, Legal, ServeAllFails, Springs, DistinctRings;
    StepFetchable(s, e);
    ServeAllFailsIff(t, Step(s, e).state, Step(s, e).out, orders);
  }
}
