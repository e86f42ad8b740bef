/** When the end of an establishment phase ends the master, and two runs in which it does. In one all clients follow the
    protocol: a peer leaves after a failed phase, when some of the others have asked to try again and some have not yet.
    In the other a client does not wait for the end of the phase. */
module RetryRace {
  import opened MasterSpec
  import opened MasterInv
  import opened MasterRuns
  import RingSearch

  // When the master ends there ----------------------------------------------------------------------

  /** Nobody but `u` is still connecting, and somebody else has voted for the next phase already. */
  ghost predicate VotedPast(s: State, u: Uuid) {
    && (forall v :: v in s.clients && v != u ==> s.clients[v].conn != Connecting)
    && (exists w :: w in s.clients && w != u && HoldsP2PVote(s.clients[w]))
  }

  /** Without `u` the accepted peers do not all hold the vote `c`. */
  ghost predicate Divided(s: State, u: Uuid, c: Conn) {
    exists v :: v in s.clients && v != u && s.clients[v].phase == Accepted && s.clients[v].conn != c
  }

  /** The guard, on the state before the step. A report: it is the last one of the phase, and somebody has voted past
      it. A departure: the phase waits for nobody else, somebody has voted past it, and the votes left do not open
      the next one. */
  ghost predicate Exposed(s: State, e: Event) {
    && !e.Register? && e.addr in s.byAddr && s.byAddr[e.addr] in s.clients
    && var u := s.byAddr[e.addr];
       match e
       case ReportP2P(_, success, fail) =>
         s.clients[u].conn == Connecting && (success || fail == NewRing) && VotedPast(s, u)
       case Disconnect(_, _, _) =>
         && VotedPast(s, u) && (exists r :: r in s.clients && r != u && Reported(s.clients[r].conn))
         && Divided(s, u, VoteAccept) && Divided(s, u, VoteNoNew)
       case _ => false
  }

  lemma ReportHaltsIff(s: State, u: Uuid, success: bool, fail: FailVerdict)
    requires Inv(s) && u in s.clients
    ensures OnReportP2P(s, u, success, fail) == Halt(Bug.EndP2P) <==>
      s.clients[u].conn == Connecting && (success || fail == NewRing) && VotedPast(s, u)
  {
    hide Inv, CheckP2P, VotedPast;
    if s.clients[u].conn == Connecting && (success || fail == NewRing) {
      var s1 := SetConn(s, u, if success then Waiting else ConnectFailed);
      assert SetConn(s, u, Waiting) == s1 || SetConn(s, u, ConnectFailed) == s1;
      ReportedInv(s, u, success);
      LastReported(s, u, if success then Waiting else ConnectFailed);
      CheckP2PHalts(s1);
      CheckP2PInv(s1);
    }
  }

  lemma LastReported(s: State, u: Uuid, c: Conn)
    requires u in s.clients && Reported(c)
    ensures
      var s1 := SetConn(s, u, c);
      VotedPast(s, u) <==> P2PConsensus(s1) && exists w :: w in s1.clients && HoldsP2PVote(s1.clients[w])
  {
    var s1 := SetConn(s, u, c);
    assert u in s1.clients && s1.clients[u].conn == c;
    forall v | v in s.clients && v != u ensures v in s1.clients && s1.clients[v] == s.clients[v] { }
  }

  lemma ReportedInv(s: State, u: Uuid, success: bool)
    requires Inv(s) && u in s.clients && s.clients[u].conn == Connecting
    ensures Inv(SetConn(s, u, if success then Waiting else ConnectFailed))
  {
    hide Addresses, VotesOk, StrategiesOk, MeteredOk, PairOk;
    assert ClientOk(s.clients[u]);
    hide Clients;
    QuietInv(s, u, s.clients[u].(conn := if success then Waiting else ConnectFailed));
  }

  lemma DisconnectHaltsIff(s: State, u: Uuid, verdict: SyncVerdict, tags: seq<Tag>)
    requires Inv(s) && u in s.clients
    ensures OnDisconnect(s, u, verdict, tags) == Halt(Bug.EndP2P) <==>
      && VotedPast(s, u) && (exists r :: r in s.clients && r != u && Reported(s.clients[r].conn))
      && Divided(s, u, VoteAccept) && Divided(s, u, VoteNoNew)
  {
    hide Inv, Leave, Consensus, CheckP2P, Departed, RecheckAll, VotedPast, Divided;
    var s1 := Leave(s, u);
    LeaveInv(s, u);
    LeaveClients(s, u);
    DepartedHaltsIff(s, u, verdict);
    AfterDepartureHalts(s, u, verdict, tags);
    DividedLeave(s, u, VoteAccept);
    DividedLeave(s, u, VoteNoNew);
    VotedPastLeave(s, u);
  }

  lemma DividedLeave(s: State, u: Uuid, c: Conn)
    requires Inv(s) && u in s.clients && Leave(s, u).clients == s.clients - {u} && Inv(Leave(s, u))
    ensures Divided(s, u, c) <==> !Consensus(Leave(s, u), c)
  {
    hide Clients, Addresses, VotesOk, StrategiesOk, MeteredOk, Consensus, Leave;
    ConsensusIsUnanimity(Leave(s, u), c);
    var s1 := Leave(s, u);
    if Divided(s, u, c) {
      var v :| v in s.clients && v != u && s.clients[v].phase == Accepted && s.clients[v].conn != c;
      assert v in s1.clients && s1.clients[v] == s.clients[v];
    }
    if !Unanimous(s1, c) {
      var v :| v in s1.clients && s1.clients[v].phase == Accepted && s1.clients[v].conn != c;
      assert v in s.clients && v != u;
    }
  }

  lemma VotedPastLeave(s: State, u: Uuid)
    requires u in s.clients && Leave(s, u).clients == s.clients - {u}
    ensures
      var s1 := Leave(s, u);
      (VotedPast(s, u) && exists r :: r in s.clients && r != u && Reported(s.clients[r].conn)) <==>
        P2PConsensus(s1) && exists w :: w in s1.clients && HoldsP2PVote(s1.clients[w])
  {
    hide Leave;
    var s1 := Leave(s, u);
    forall v ensures v in s1.clients <==> v in s.clients && v != u { }
    forall v | v in s1.clients ensures s1.clients[v] == s.clients[v] { }
  }

  /** Up to the check: if the departure opens a phase, that one has only begun. */
  lemma DepartedHaltsIff(s: State, u: Uuid, verdict: SyncVerdict)
    requires Inv(s) && u in s.clients && Inv(Leave(s, u))
    ensures
      var s1 := Leave(s, u);
      Departed(s, u, verdict) == Halt(Bug.EndP2P) <==>
        && !Consensus(s1, VoteAccept) && !Consensus(s1, VoteNoNew)
        && P2PConsensus(s1) && exists w :: w in s1.clients && HoldsP2PVote(s1.clients[w])
  {
    hide Inv, Leave, Consensus, CheckP2P, CheckPending, CheckSync, CheckSynced, P2PConsensus, CheckEstablish;
    var s1 := Leave(s, u);
    var g := s.clients[u].group;
    CheckEstablishInv(s1);
    var a := CheckEstablish(s1).state;
    var a' := a.(dropped := true);
    DroppedInv(a, true);
    CheckP2PInv(a');
    CheckP2PHalts(a');
    OpenedNow(s1);
    SameConsensus(a);
    LaterBugs(a', g, verdict);
  }

  lemma SameConsensus(s: State)
    ensures P2PConsensus(s.(dropped := true)) == P2PConsensus(s)
  {
  }

  lemma OpenedNow(s: State)
    requires Inv(s)
    ensures
      var o := CheckEstablish(s);
      && o.Next?
      && (Consensus(s, VoteAccept) || Consensus(s, VoteNoNew) ==> !P2PConsensus(o.state))
      && (!Consensus(s, VoteAccept) && !Consensus(s, VoteNoNew) ==> o == Stay(s))
  {
    hide Inv, Consensus;
    if Consensus(s, VoteAccept) {
      var first := OpenP2P(s, true).(dropped := false);
      assert forall v :: v in first.clients ==> first.clients[v].conn == Connecting;
      var second := OpenP2P(first, false).(dropped := false);
      assert forall v :: v in second.clients ==> second.clients[v].conn == Connecting;
    } else if Consensus(s, VoteNoNew) {
      var v := SomeAccepted(s);
      var o := OpenP2P(s, false).(dropped := false);
      assert v in o.clients && o.clients[v].conn == Connecting;
    }
  }

  lemma SomeAccepted(s: State) returns (v: Uuid)
    requires Inv(s) && !Consensus(s, VoteAccept)
    ensures v in s.clients && s.clients[v].phase == Accepted
  {
    hide Clients, Addresses, VotesOk, StrategiesOk, MeteredOk, Consensus;
    ConsensusIsUnanimity(s, VoteAccept);
    v :| v in s.clients && s.clients[v].phase == Accepted && s.clients[v].conn != VoteAccept;
  }

  lemma LaterBugs(s: State, g: Group, verdict: SyncVerdict)
    requires Inv(s) && CheckP2P(s).Next? ==> Inv(CheckP2P(s).state)
    ensures Inv(s) && CheckP2P(s).Next? ==>
      var c := CheckPending(CheckP2P(s).state);
      && c.Next?
      && (var d := CheckSync(c.state, g, verdict);
          && (d.Halt? ==> d.bug == SyncData)
          && (d.Next? ==> CheckSynced(d.state, g).Next?))
  {
    hide Inv, CheckP2P, CheckPending, CheckSync, CheckSynced;
    if Inv(s) && CheckP2P(s).Next? {
      var b := CheckP2P(s).state;
      CheckPendingInv(b);
      var c := CheckPending(b);
      CheckSyncInv(c.state, g, verdict);
      var d := CheckSync(c.state, g, verdict);
      if d.Next? { CheckSyncedInv(d.state, g); }
    }
  }

  lemma AfterDepartureHalts(s: State, u: Uuid, verdict: SyncVerdict, tags: seq<Tag>)
    requires Inv(s) && u in s.clients
    ensures OnDisconnect(s, u, verdict, tags) == Halt(Bug.EndP2P) <==> Departed(s, u, verdict) == Halt(Bug.EndP2P)
  {
    hide Inv, Departed, RecheckAll;
    DepartedInv(s, u, verdict);
    if Departed(s, u, verdict).Next? { RecheckAllInv(Departed(s, u, verdict).state, s.clients[u].group, tags); }
  }

  /** Over all runs, whatever is sent: a step ends the master in the check of a p2p phase exactly under the guard. */
  lemma StepEndsMasterIff(s: State, e: Event)
    requires Inv(s) && Legal(s, e)
    ensures Step(s, e) == Halt(Bug.EndP2P) <==> Exposed(s, e)
  {
    hide Inv, VotedPast, Divided, OnRegister, OnRequestP2P, OnReportP2P, OnQueryPending, OnRequestOptimize, OnReportOptimized,
         OnSyncState, OnReportSynced, OnInitiate, OnComplete, OnDisconnect;
    if e.Register? {
      RegisterInv(s, e.addr, e.local, e.group, e.id);
    } else if e.addr in s.byAddr && s.byAddr[e.addr] in s.clients {
      var u := s.byAddr[e.addr];
      match e
      case RequestP2P(_, accept) => RequestP2PInv(s, u, accept);
      case ReportP2P(_, success, fail) => ReportHaltsIff(s, u, success, fail);
      case QueryPending(_) => QueryPendingInv(s, u);
      case RequestOptimize(_) => OptimizeInv(s, u);
      case ReportBandwidth(_, _) =>
      case ReportOptimized(_) => OptimizeInv(s, u);
      case SyncState(_, legal, strategy, verdict) => SyncStateInv(s, u, legal, strategy, verdict);
      case ReportSynced(_) => ReportSyncedInv(s, u);
      case Initiate(_, tag) => InitiateInv(s, u, tag);
      case Complete(_, tag, aborted) => CompleteInv(s, u, tag, aborted);
      case Disconnect(_, verdict, tags) => DisconnectHaltsIff(s, u, verdict, tags);
    }
  }

  lemma LeaveClients(s: State, u: Uuid)
    requires u in s.clients
    ensures Leave(s, u).clients == s.clients - {u}
  {
  }

  // Such a state is reached -------------------------------------------------------------------------

  /** Four peers; the first fails to connect to one, so the phase fails; it asks to try again; another one
      leaves. */
  function Story(): seq<Event> {
    [Register(1, true, 0, 1), ReportP2P(1, true, NewRing), Register(2, true, 0, 2), Register(3, true, 0, 3),
     Register(4, true, 0, 4), RequestP2P(1, true), ReportP2P(1, false, NewRing), ReportP2P(2, true, NewRing),
     ReportP2P(3, true, NewRing), ReportP2P(4, true, NewRing), RequestP2P(1, true), Disconnect(4, NoMask, [])]
  }

  /** The first peer does not reach the second, but there is a ring on which they are not neighbours. */
  lemma DetourExists()
    ensures RingSearch.Hamiltonian([1, 3, 2, 4], [1, 2, 3, 4], map[1 := {2}])
  {
    assert multiset([1, 3, 2, 4]) == multiset([1, 2, 3, 4]);
  }

  lemma FirstStory() returns (s: State)
    ensures After(Story(), 2, s) && Shape(s, map[1 := Accepted], map[1 := Idle])
  {
    hide Goes, After, Shape;
    NoEvents(Story());
    var a := FirstJoins();
    Extends(Story(), 0, Start(), a);
    var p, c := map[1 := Accepted], map[1 := Connecting];
    s := LastReports(a, p, c, 1, false);
    Extends(Story(), 1, a, s);
    Same(s, map v | v in p :: Accepted, Ended(c, false), p, map[1 := Idle]);
  }

  lemma JoiningStory() returns (s: State, p: map<Uuid, Phase>, c: map<Uuid, Conn>)
    ensures After(Story(), 5, s) && Shape(s, p, c) && p.Keys == c.Keys == {1, 2, 3, 4}
    ensures forall u :: u in p ==> p[u] == (if u == 1 then Accepted else Registered) && c[u] == Idle
  {
    hide Goes, After, Shape;
    var b := FirstStory();
    p, c := map[1 := Accepted], map[1 := Idle];
    var d := Joins(b, p, c, 2, 1);
    Extends(Story(), 2, b, d);
    var e := Joins(d, p[2 := Registered], c[2 := Idle], 3, 1);
    Extends(Story(), 3, d, e);
    s := Joins(e, p[2 := Registered][3 := Registered], c[2 := Idle][3 := Idle], 4, 1);
    Extends(Story(), 4, e, s);
    p, c := p[2 := Registered][3 := Registered][4 := Registered], c[2 := Idle][3 := Idle][4 := Idle];
  }

  lemma OpeningStory() returns (s: State)
    ensures After(Story(), 6, s)
    ensures Shape(s, map[1 := Accepted, 2 := Registered, 3 := Registered, 4 := Registered],
                  map[1 := Connecting, 2 := Connecting, 3 := Connecting, 4 := Connecting])
  {
    hide Goes, After, Shape;
    var f, p, c := JoiningStory();
    s := LastRequest(f, p, c, 1);
    Extends(Story(), 5, f, s);
    Same(s, p, map v | v in c :: Connecting, map[1 := Accepted, 2 := Registered, 3 := Registered, 4 := Registered],
         map[1 := Connecting, 2 := Connecting, 3 := Connecting, 4 := Connecting]);
  }

  ghost predicate Raced(s: State) {
    && Inv(s) && s.clients.Keys == {1, 2, 3, 4} && 4 in s.byAddr && s.byAddr[4] == 4
    && forall u :: u in s.clients ==>
         s.clients[u].phase == Accepted && s.clients[u].conn == if u == 1 then VoteAccept else ConnectFailed
  }

  lemma FailingStory() returns (s: State, p: map<Uuid, Phase>, c: map<Uuid, Conn>)
    ensures After(Story(), 10, s) && Shape(s, p, c) && p.Keys == c.Keys == {1, 2, 3, 4}
    ensures forall u :: u in c ==> u in p && p[u] == Accepted && c[u] == ConnectFailed
  {
    hide Goes, After, Shape;
    p := map[1 := Accepted, 2 := Registered, 3 := Registered, 4 := Registered];
    c := map[1 := Connecting, 2 := Connecting, 3 := Connecting, 4 := Connecting];
    var f := OpeningStory();
    var g := Reports(f, p, c, 1, false, 4);
    Extends(Story(), 6, f, g);
    var h := Reports(g, p, c[1 := ConnectFailed], 2, true, 4);
    Extends(Story(), 7, g, h);
    var i := Reports(h, p, c[1 := ConnectFailed][2 := Waiting], 3, true, 4);
    Extends(Story(), 8, h, i);
    c := c[1 := ConnectFailed][2 := Waiting][3 := Waiting];
    assert 1 in c && c[1] == ConnectFailed;
    s := LastReports(i, p, c, 4, true);
    Extends(Story(), 9, i, s);
    p, c := map v | v in p :: Accepted, Ended(c, true);
  }

  lemma StoryRuns() returns (s: State)
    ensures After(Story(), 11, s) && Raced(s)
  {
    hide Goes, After, Shape, Raced;
    var j, p, c := FailingStory();
    s := Retries(j, p, c, 1, 2, true);
    Extends(Story(), 10, j, s);
    EndShape(s, p, c[1 := VoteAccept]);
  }

  lemma EndShape(s: State, p: map<Uuid, Phase>, c: map<Uuid, Conn>)
    requires Shape(s, p, c) && c.Keys == {1, 2, 3, 4}
    requires forall u :: u in c ==> u in p && p[u] == Accepted && c[u] == if u == 1 then VoteAccept else ConnectFailed
    ensures Raced(s)
  {
    hide Clients, VotesOk, StrategiesOk, MeteredOk, Addresses;
    Known(s, p, c, 4);
  }

  /** The concrete run: legal, made only of what clients send in the course of the protocol, and ended by the
      departure of a peer that has no part in it. */
  lemma RetryRaceEndsTheMaster()
    ensures LegalRun(Story()) && Run(Story()) == Halt(Bug.EndP2P)
  {
    hide Departed, OnDisconnect, Inv, After, RecheckAll;
    var s := StoryRuns();
    var e := Disconnect(4, NoMask, []);
    assert HoldsP2PVote(s.clients[1]) && Reported(s.clients[2].conn);
    assert VotedPast(s, 4) && Divided(s, 4, VoteAccept) && Divided(s, 4, VoteNoNew);
    DisconnectHaltsIff(s, 4, NoMask, []);
    AfterDepartureHalts(s, 4, NoMask, []);
    EndsWith(Story(), 11, s, Bug.EndP2P);
  }

  // Two peers, and four -----------------------------------------------------------------------------

  /** A second peer joins the first. */
  function PairStory(): seq<Event> {
    [Register(1, true, 0, 1), ReportP2P(1, true, NewRing), Register(2, true, 0, 2), RequestP2P(1, true),
     ReportP2P(1, true, NewRing), ReportP2P(2, true, NewRing)]
  }

  lemma OneAccepted() returns (s: State)
    ensures After(PairStory(), 2, s) && Shape(s, map[1 := Accepted], map[1 := Idle])
  {
    hide Goes, After, Shape;
    NoEvents(PairStory());
    var a := FirstJoins();
    Extends(PairStory(), 0, Start(), a);
    var p, c := map[1 := Accepted], map[1 := Connecting];
    s := LastReports(a, p, c, 1, false);
    Extends(PairStory(), 1, a, s);
    Same(s, map v | v in p :: Accepted, Ended(c, false), p, map[1 := Idle]);
  }

  lemma SecondAdmitted() returns (s: State)
    ensures After(PairStory(), 4, s) && Shape(s, map[1 := Accepted, 2 := Registered], map[1 := Connecting, 2 := Connecting])
  {
    hide Goes, After, Shape;
    var b := OneAccepted();
    var p, c := map[1 := Accepted], map[1 := Idle];
    var d := Joins(b, p, c, 2, 1);
    Extends(PairStory(), 2, b, d);
    p, c := p[2 := Registered], c[2 := Idle];
    s := LastRequest(d, p, c, 1);
    Extends(PairStory(), 3, d, s);
    Same(s, p, map v | v in c :: Connecting, map[1 := Accepted, 2 := Registered], map[1 := Connecting, 2 := Connecting]);
  }

  lemma TwoAccepted() returns (s: State)
    ensures After(PairStory(), 6, s) && Shape(s, map[1 := Accepted, 2 := Accepted], map[1 := Idle, 2 := Idle])
  {
    hide Goes, After, Shape;
    var p, c := map[1 := Accepted, 2 := Registered], map[1 := Connecting, 2 := Connecting];
    var e := SecondAdmitted();
    var f := Reports(e, p, c, 1, true, 2);
    Extends(PairStory(), 4, e, f);
    s := LastReports(f, p, c[1 := Waiting], 2, false);
    Extends(PairStory(), 5, f, s);
    Same(s, map v | v in p :: Accepted, Ended(c[1 := Waiting], false), map[1 := Accepted, 2 := Accepted], map[1 := Idle, 2 := Idle]);
  }

  /** Three peers join the first, and everybody connects. */
  function Quartet(): seq<Event> {
    Story()[..6] + [ReportP2P(1, true, NewRing), ReportP2P(2, true, NewRing), ReportP2P(3, true, NewRing), ReportP2P(4, true, NewRing)]
  }

  /** Four accepted peers, the first of which is in state `x` and the others in state `y`. */
  ghost predicate Four(s: State, x: Conn, y: Conn) {
    Shape(s, map[1 := Accepted, 2 := Accepted, 3 := Accepted, 4 := Accepted], map[1 := x, 2 := y, 3 := y, 4 := y])
  }

  lemma FourIdle() returns (s: State)
    ensures After(Quartet(), 10, s) && Four(s, Idle, Idle)
  {
    hide Goes, After, Shape;
    var p := map[1 := Accepted, 2 := Registered, 3 := Registered, 4 := Registered];
    var c := map[1 := Connecting, 2 := Connecting, 3 := Connecting, 4 := Connecting];
    var f := OpeningStory();
    SamePrefix(Story(), Quartet(), 6, f);
    var g := Reports(f, p, c, 1, true, 4);
    Extends(Quartet(), 6, f, g);
    var h := Reports(g, p, c[1 := Waiting], 2, true, 4);
    Extends(Quartet(), 7, g, h);
    var i := Reports(h, p, c[1 := Waiting][2 := Waiting], 3, true, 4);
    Extends(Quartet(), 8, h, i);
    c := c[1 := Waiting][2 := Waiting][3 := Waiting];
    s := LastReports(i, p, c, 4, false);
    Extends(Quartet(), 9, i, s);
    Same(s, map v | v in p :: Accepted, Ended(c, false), map[1 := Accepted, 2 := Accepted, 3 := Accepted, 4 := Accepted],
         map[1 := Idle, 2 := Idle, 3 := Idle, 4 := Idle]);
  }

  // Without any departure ---------------------------------------------------------------------------

  /** Four peers connect again. One fails to reach another, around whom there is a ring, and votes at once, without
      waiting for the end of the phase: the last report ends the master. */
  function HastyStory(): seq<Event> {
    Quartet()
    + [RequestP2P(1, true), RequestP2P(2, true), RequestP2P(3, true), RequestP2P(4, true), ReportP2P(1, false, NewRing),
       RequestP2P(1, true), ReportP2P(2, true, NewRing), ReportP2P(3, true, NewRing), ReportP2P(4, true, NewRing)]
  }

  lemma HastyOpens() returns (s: State)
    ensures After(HastyStory(), 14, s) && Four(s, Connecting, Connecting)
  {
    hide Goes, After, Shape;
    var p := map[1 := Accepted, 2 := Accepted, 3 := Accepted, 4 := Accepted];
    var c := map[1 := Idle, 2 := Idle, 3 := Idle, 4 := Idle];
    var f := FourIdle();
    SamePrefix(Quartet(), HastyStory(), 10, f);
    var g := Retries(f, p, c, 1, 4, true);
    Extends(HastyStory(), 10, f, g);
    var h := Retries(g, p, c[1 := VoteAccept], 2, 4, true);
    Extends(HastyStory(), 11, g, h);
    var i := Retries(h, p, c[1 := VoteAccept][2 := VoteAccept], 3, 4, true);
    Extends(HastyStory(), 12, h, i);
    c := c[1 := VoteAccept][2 := VoteAccept][3 := VoteAccept];
    s := LastRequest(i, p, c, 4);
    Extends(HastyStory(), 13, i, s);
    Same(s, p, map v | v in c :: Connecting, p, map[1 := Connecting, 2 := Connecting, 3 := Connecting, 4 := Connecting]);
  }

  lemma HastyRuns() returns (s: State, c: map<Uuid, Conn>)
    ensures After(HastyStory(), 18, s) && Shape(s, map[1 := Accepted, 2 := Accepted, 3 := Accepted, 4 := Accepted], c)
    ensures c == map[1 := VoteAccept, 2 := Waiting, 3 := Waiting, 4 := Connecting]
  {
    hide Goes, After, Shape;
    var p := map[1 := Accepted, 2 := Accepted, 3 := Accepted, 4 := Accepted];
    c := map[1 := Connecting, 2 := Connecting, 3 := Connecting, 4 := Connecting];
    var f := HastyOpens();
    var g := Reports(f, p, c, 1, false, 4);
    Extends(HastyStory(), 14, f, g);
    c := c[1 := ConnectFailed];
    var h := Retries(g, p, c, 1, 4, true);
    Extends(HastyStory(), 15, g, h);
    c := c[1 := VoteAccept];
    var i := Reports(h, p, c, 2, true, 4);
    Extends(HastyStory(), 16, h, i);
    c := c[2 := Waiting];
    s := Reports(i, p, c, 3, true, 4);
    Extends(HastyStory(), 17, i, s);
    c := c[3 := Waiting];
  }

  lemma HastyExposed(s: State, p: map<Uuid, Phase>, c: map<Uuid, Conn>)
    requires Shape(s, p, c) && p == map[1 := Accepted, 2 := Accepted, 3 := Accepted, 4 := Accepted]
    requires c == map[1 := VoteAccept, 2 := Waiting, 3 := Waiting, 4 := Connecting]
    ensures Inv(s) && 4 in s.clients && s.clients[4].conn == Connecting && VotedPast(s, 4)
  {
    hide Inv;
    assert 1 in s.clients && HoldsP2PVote(s.clients[1]);
  }

  lemma HastyVoteEndsTheMaster()
    ensures LegalRun(HastyStory()) && Run(HastyStory()) == Halt(Bug.EndP2P)
  {
    hide Inv, After, CheckP2P, OnReportP2P, Shape, VotedPast, LegalRun, Run, Step, Legal;
    var s, c := HastyRuns();
    var p := map[1 := Accepted, 2 := Accepted, 3 := Accepted, 4 := Accepted];
    Dispatched(s, p, c, 4, true);
    HastyExposed(s, p, c);
    ReportHaltsIff(s, 4, true, NewRing);
    EndsWith(HastyStory(), 18, s, Bug.EndP2P);
  }
}
