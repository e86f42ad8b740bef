/** Small steps of the master that concrete runs are put together from. */
module MasterRuns {
  import opened MasterSpec
  import opened MasterInv

  lemma StillOpen(s: State, v: Uuid, c: Conn)
    requires Inv(s) && v in s.clients && s.clients[v].phase == Accepted && s.clients[v].conn != c
    ensures !Consensus(s, c)
  {
    hide Clients, Addresses, VotesOk, StrategiesOk, MeteredOk, Consensus;
    ConsensusIsUnanimity(s, c);
  }

  /** The clients of group 0 and what each is doing; peer `u` has address `u`. */
  ghost predicate Shape(s: State, p: map<Uuid, Phase>, c: map<Uuid, Conn>) {
    && Inv(s) && !s.dropped && s.clients.Keys == p.Keys == c.Keys == s.issued
    && forall u :: u in s.clients ==>
         s.clients[u].phase == p[u] && s.clients[u].conn == c[u] && s.clients[u].addr == u && s.clients[u].local && s.clients[u].group == 0
  }

  ghost predicate Goes(s: State, e: Event, s': State) {
    Legal(s, e) && Step(s, e).Next? && Step(s, e).state == s'
  }

  lemma Known(s: State, p: map<Uuid, Phase>, c: map<Uuid, Conn>, u: Uuid)
    requires Shape(s, p, c)
    ensures u in s.byAddr <==> u in c
    ensures u in c ==> s.byAddr[u] == u && u in s.clients
  {
    hide Clients, VotesOk, StrategiesOk, MeteredOk;
    if u in s.byAddr { assert s.addrOf[s.byAddr[u]] == u; }
  }

  lemma Dispatched(s: State, p: map<Uuid, Phase>, c: map<Uuid, Conn>, u: Uuid, success: bool)
    requires Shape(s, p, c) && u in c
    ensures u in s.clients
    ensures var e := ReportP2P(u, success, NewRing); Legal(s, e) && Step(s, e) == OnReportP2P(s, u, success, NewRing)
    ensures forall accept :: var e := RequestP2P(u, accept); Legal(s, e) && Step(s, e) == OnRequestP2P(s, u, accept)
  {
    hide Inv, OnReportP2P, OnRequestP2P;
    Known(s, p, c, u);
  }

  /** Peer `v` has not voted, so nothing opens. */
  lemma NothingOpens(s: State, v: Uuid)
    requires Inv(s) && v in s.clients && s.clients[v].phase == Accepted
    requires s.clients[v].conn != VoteAccept && s.clients[v].conn != VoteNoNew
    ensures CheckEstablish(s) == Stay(s)
  {
    hide Consensus;
    StillOpen(s, v, VoteAccept);
    StillOpen(s, v, VoteNoNew);
  }

  lemma Joins(s: State, p: map<Uuid, Phase>, c: map<Uuid, Conn>, u: Uuid, v: Uuid) returns (s': State)
    requires Shape(s, p, c) && u !in c && v in c && p[v] == Accepted && c[v] == Idle
    ensures Goes(s, Register(u, true, 0, u), s') && Shape(s', p[u := Registered], c[u := Idle])
  {
    hide Inv, CheckEstablish, CastVote, Consensus, OpenP2P;
    Known(s, p, c, u);
    assert !Mixes(s, true);
    var i := Info(Registered, Idle, u, true, 0, map[], false);
    s' := Join(s, u, i);
    JoinInv(s, u, i);
    NotFirst(s, u, i);
    NothingOpens(s', v);
  }

  lemma FirstJoins() returns (s': State)
    ensures Goes(Start(), Register(1, true, 0, 1), s') && Shape(s', map[1 := Accepted], map[1 := Connecting])
  {
    hide Inv, Enroll, CheckEstablish;
    EnrollFirst(Start(), 1, true, 0, 1);
    StartInv();
    EnrollInv(Start(), 1, true, 0, 1);
    var i := Info(Registered, Idle, 1, true, 0, map[], false);
    s' := FirstState(Start(), 1, i);
    FirstShape();
  }

  lemma FirstShape()
    ensures
      var s := FirstState(Start(), 1, Info(Registered, Idle, 1, true, 0, map[], false));
      && s.clients == map[1 := Info(Accepted, Connecting, 1, true, 0, map[], false)]
      && |s.byAddr| == 1 && s.issued == {1} && !s.dropped
  {
  }

  lemma ShapeAt(s: State, p: map<Uuid, Phase>, c: map<Uuid, Conn>, u: Uuid)
    requires Shape(s, p, c) && u in c
    ensures Inv(s) && u in s.clients && u in p && s.clients[u].phase == p[u] && s.clients[u].conn == c[u] && s.clients[u].group == 0
    ensures s.clients.Keys == c.Keys
  {
    hide Inv;
  }

  lemma ShapeSet(s: State, p: map<Uuid, Phase>, c: map<Uuid, Conn>, u: Uuid, x: Conn)
    requires Shape(s, p, c) && u in c && u in s.clients && Inv(SetConn(s, u, x))
    ensures Shape(SetConn(s, u, x), p, c[u := x])
  {
    hide Inv;
  }

  lemma ReportStays(s: State, u: Uuid, success: bool, v: Uuid)
    requires Inv(s) && u in s.clients && v in s.clients && u != v && s.clients[u].conn == Connecting == s.clients[v].conn
    ensures
      var s' := SetConn(s, u, if success then Waiting else ConnectFailed);
      OnReportP2P(s, u, success, NewRing) == Stay(s') && Inv(s')
  {
    hide Inv, CanEndP2P, CloseP2P;
    var s' := SetConn(s, u, if success then Waiting else ConnectFailed);
    assert v in s'.clients && s'.clients[v].conn == Connecting;
    ReportP2PInv(s, u, success, NewRing);
  }

  /** A report while others are still connecting. */
  lemma Reports(s: State, p: map<Uuid, Phase>, c: map<Uuid, Conn>, u: Uuid, success: bool, v: Uuid) returns (s': State)
    requires Shape(s, p, c) && u in c && v in c && u != v && c[u] == Connecting == c[v]
    ensures Goes(s, ReportP2P(u, success, NewRing), s')
    ensures Shape(s', p, c[u := if success then Waiting else ConnectFailed])
  {
    hide Inv, Step, Legal, Shape, OnReportP2P, SetConn;
    ShapeAt(s, p, c, u);
    ShapeAt(s, p, c, v);
    Dispatched(s, p, c, u, success);
    ReportStays(s, u, success, v);
    s' := SetConn(s, u, if success then Waiting else ConnectFailed);
    ShapeSet(s, p, c, u, if success then Waiting else ConnectFailed);
  }

  ghost function Ended(c: map<Uuid, Conn>, failure: bool): map<Uuid, Conn> {
    map u | u in c :: if failure then ConnectFailed else Idle
  }

  /** The last report ends the phase; everybody in it is accepted, and has failed if one has. */
  lemma LastReports(s: State, p: map<Uuid, Phase>, c: map<Uuid, Conn>, u: Uuid, failure: bool) returns (s': State)
    requires Shape(s, p, c) && u in c && c[u] == Connecting
    requires forall v :: v in c && v != u ==> if failure then Reported(c[v]) else c[v] == Waiting
    requires failure <==> exists v :: v in c && c[v] == ConnectFailed
    requires forall v :: v in c && c[v] == ConnectFailed ==> p[v] == Accepted
    ensures Goes(s, ReportP2P(u, true, NewRing), s')
    ensures Shape(s', map v | v in p :: Accepted, Ended(c, failure))
  {
    hide Inv, Step, Legal, CheckP2P, CloseP2P, Shape;
    ShapeAt(s, p, c, u);
    Dispatched(s, p, c, u, true);
    var s1 := SetConn(s, u, Waiting);
    WaitingMetered(s, u);
    ShapeWaiting(s, p, c, u, failure);
    Closes(s1, failure);
    s' := CloseP2P(s1, failure);
    ReportP2PInv(s, u, true, NewRing);
    AfterClose(s1, failure);
    ShapeClosed(s, p, c, u, failure, s');
  }

  /** What the last report makes of the states of all. */
  lemma ShapeWaiting(s: State, p: map<Uuid, Phase>, c: map<Uuid, Conn>, u: Uuid, failure: bool)
    requires Shape(s, p, c) && u in c && c[u] == Connecting
    requires forall v :: v in c && v != u ==> if failure then Reported(c[v]) else c[v] == Waiting
    requires failure <==> exists v :: v in c && c[v] == ConnectFailed
    requires forall v :: v in c && c[v] == ConnectFailed ==> p[v] == Accepted
    ensures u in s.clients
    ensures
      var m := SetConn(s, u, Waiting);
      && !m.dropped && m.clients != map[]
      && (forall v :: v in m.clients ==> if failure then Reported(m.clients[v].conn) else m.clients[v].conn == Waiting)
      && (failure <==> exists v :: v in m.clients && m.clients[v].conn == ConnectFailed)
      && (forall v :: v in m.clients && m.clients[v].conn == ConnectFailed ==> m.clients[v].phase == Accepted)
  {
    hide Inv;
    var m := SetConn(s, u, Waiting);
    assert u in m.clients;
    forall v | v in m.clients
      ensures m.clients[v].conn == if v == u then Waiting else c[v]
      ensures m.clients[v].phase == p[v]
    {
    }
    if failure {
      var v :| v in c && c[v] == ConnectFailed;
      assert v in m.clients && m.clients[v].conn == ConnectFailed;
    }
  }

  lemma ShapeClosed(s: State, p: map<Uuid, Phase>, c: map<Uuid, Conn>, u: Uuid, failure: bool, s': State)
    requires Shape(s, p, c) && u in s.clients && Inv(s') && !s'.dropped && s'.issued == s.issued
    requires s'.clients.Keys == s.clients.Keys
    requires forall v :: v in s.clients ==>
      s'.clients[v] == SetConn(s, u, Waiting).clients[v].(phase := Accepted, conn := if failure then ConnectFailed else Idle)
    ensures Shape(s', map v | v in p :: Accepted, Ended(c, failure))
  {
    hide Inv;
    forall v | v in s.clients
      ensures s'.clients[v] == s.clients[v].(phase := Accepted, conn := if failure then ConnectFailed else Idle)
    {
    }
  }

  lemma WaitingMetered(s: State, u: Uuid)
    requires Inv(s) && u in s.clients
    ensures MeteredOk(SetConn(s, u, Waiting))
  {
    hide Clients, Addresses, VotesOk, StrategiesOk, MeteredOk;
    SameMetered(s, SetConn(s, u, Waiting));
  }

  lemma Closes(s: State, failure: bool)
    requires MeteredOk(s) && !s.dropped && s.clients != map[]
    requires forall v :: v in s.clients ==> if failure then Reported(s.clients[v].conn) else s.clients[v].conn == Waiting
    requires failure <==> exists v :: v in s.clients && s.clients[v].conn == ConnectFailed
    ensures CheckP2P(s).Next? && CheckP2P(s).state == CloseP2P(s, failure)
  {
    hide CloseP2P, MeteredOk, Newcomers, Participants;
    NewcomersUnmetered(s);
    var v :| v in s.clients;
    assert Reported(s.clients[v].conn);
  }

  lemma AfterClose(s: State, failure: bool)
    requires forall v :: v in s.clients ==> if failure then Reported(s.clients[v].conn) else s.clients[v].conn == Waiting
    requires forall v :: v in s.clients && s.clients[v].conn == ConnectFailed ==> s.clients[v].phase == Accepted
    ensures
      var s' := CloseP2P(s, failure);
      && s'.clients.Keys == s.clients.Keys && s'.issued == s.issued && !s'.dropped
      && forall v :: v in s.clients ==>
           s'.clients[v] == s.clients[v].(phase := Accepted, conn := if failure then ConnectFailed else Idle)
  {
  }

  function BallotFor(accept: bool): Ballot { if accept then ToAccept else ToEstablish }

  lemma Votes1(s: State, p: map<Uuid, Phase>, c: map<Uuid, Conn>, u: Uuid, accept: bool)
    requires Shape(s, p, c) && u in c && p[u] == Accepted && (c[u] == Idle || c[u] == ConnectFailed)
    ensures
      u in s.clients && var o := CastVote(s, u, BallotFor(accept));
      o.Next? && Shape(o.state, p, c[u := VoteConn(BallotFor(accept))])
  {
    hide Addresses, VotesOk, StrategiesOk, MeteredOk, PairOk, CastVote;
    assert ClientOk(s.clients[u]);
    CastVoteInv(s, u, BallotFor(accept));
    hide Inv;
    CastVoteFields(s, u, BallotFor(accept));
    BallotDropped(s, u, BallotFor(accept));
  }

  /** The last accepted peer asks to accept the others: the phase opens. */
  lemma LastRequest(s: State, p: map<Uuid, Phase>, c: map<Uuid, Conn>, u: Uuid) returns (s': State)
    requires Shape(s, p, c) && u in c && p[u] == Accepted && c[u] == Idle
    requires forall v :: v in p && v in c && v != u ==> p[v] == Registered || c[v] == VoteAccept
    ensures Goes(s, RequestP2P(u, true), s') && Shape(s', p, map v | v in c :: Connecting)
  {
    hide Inv, Step, Legal, Consensus, CastVote, OpenP2P, InConn, Shape;
    ShapeAt(s, p, c, u);
    Dispatched(s, p, c, u, true);
    Votes1(s, p, c, u, true);
    var voted := CastVote(s, u, ToAccept).state;
    AllVoted(voted, p, c[u := VoteAccept], u);
    EverybodyVoted(voted);
    s' := OpenP2P(voted, true).(dropped := false);
    OpenP2PInv(voted, true);
    AfterOpen(voted);
    ShapeOpen(voted, p, c[u := VoteAccept], c, s');
    StillOpen(s', u, VoteNoNew);
  }

  lemma AllVoted(s: State, p: map<Uuid, Phase>, c: map<Uuid, Conn>, u: Uuid)
    requires Shape(s, p, c) && u in c && c[u] == VoteAccept
    requires forall v :: v in p && v in c && v != u ==> p[v] == Registered || c[v] == VoteAccept
    ensures Inv(s) && u in s.clients && s.clients[u].phase == p[u]
    ensures forall v :: v in s.clients ==> s.clients[v].phase == Accepted ==> s.clients[v].conn == VoteAccept
  {
    hide Inv;
  }

  lemma ShapeOpen(s: State, p: map<Uuid, Phase>, c: map<Uuid, Conn>, c0: map<Uuid, Conn>, s': State)
    requires Shape(s, p, c) && Inv(s') && !s'.dropped && s'.issued == s.issued && c.Keys == c0.Keys
    requires s'.clients.Keys == s.clients.Keys
    requires forall v :: v in s.clients ==> s'.clients[v] == s.clients[v].(conn := Connecting)
    ensures Shape(s', p, map v | v in c0 :: Connecting)
  {
    hide Inv;
  }

  lemma EverybodyVoted(s: State)
    requires Inv(s) && forall v :: v in s.clients ==> s.clients[v].phase == Accepted ==> s.clients[v].conn == VoteAccept
    ensures Consensus(s, VoteAccept)
  {
    hide Clients, Addresses, VotesOk, StrategiesOk, MeteredOk, Consensus;
    ConsensusIsUnanimity(s, VoteAccept);
  }

  lemma AfterOpen(s: State)
    ensures
      var o := OpenP2P(s, true).(dropped := false);
      && o.clients.Keys == s.clients.Keys && o.issued == s.issued
      && forall v :: v in s.clients ==> o.clients[v] == s.clients[v].(conn := Connecting)
  {
  }

  /** One of several peers asks to connect again, and another one has not. */
  lemma Retries(s: State, p: map<Uuid, Phase>, c: map<Uuid, Conn>, u: Uuid, v: Uuid, accept: bool) returns (s': State)
    requires Shape(s, p, c) && u in c && v in c && u != v && p[u] == Accepted == p[v]
    requires (c[u] == ConnectFailed || c[u] == Idle) && c[v] != VoteAccept && c[v] != VoteNoNew
    ensures Goes(s, RequestP2P(u, accept), s') && Shape(s', p, c[u := VoteConn(BallotFor(accept))])
  {
    hide Inv, Step, Legal, CastVote, CheckEstablish, Consensus;
    Dispatched(s, p, c, u, true);
    Votes1(s, p, c, u, accept);
    s' := CastVote(s, u, BallotFor(accept)).state;
    BallotDropped(s, u, BallotFor(accept));
    NothingOpens(s', v);
  }

  /** The last of the accepted peers asks to connect without newcomers. */
  lemma LastReconnects(s: State, p: map<Uuid, Phase>, c: map<Uuid, Conn>, u: Uuid) returns (s': State)
    requires Shape(s, p, c) && u in c && AllAre(p) && c[u] == Idle
    requires forall v :: v in c && v != u ==> c[v] == VoteNoNew
    ensures Goes(s, RequestP2P(u, false), s') && Shape(s', p, map v | v in c :: Connecting)
  {
    hide Inv, Step, Legal, Consensus, CastVote, OpenP2P, InConn, Shape;
    ShapeAt(s, p, c, u);
    Dispatched(s, p, c, u, true);
    Votes1(s, p, c, u, false);
    var voted := CastVote(s, u, ToEstablish).state;
    ShapeAt(voted, p, c[u := VoteNoNew], u);
    StillOpen(voted, u, VoteAccept);
    AllAgree(voted, p, c[u := VoteNoNew], VoteNoNew);
    s' := OpenP2P(voted, false).(dropped := false);
    OpenP2PInv(voted, false);
    ShapeReopen(voted, p, c[u := VoteNoNew], c);
  }

  lemma ShapeReopen(s: State, p: map<Uuid, Phase>, c: map<Uuid, Conn>, c0: map<Uuid, Conn>)
    requires Shape(s, p, c) && AllAre(p) && c.Keys == c0.Keys && Inv(OpenP2P(s, false).(dropped := false))
    ensures Shape(OpenP2P(s, false).(dropped := false), p, map v | v in c0 :: Connecting)
  {
    hide Inv;
  }

  // An optimization phase of accepted peers ---------------------------------------------------------

  ghost predicate AllAre(p: map<Uuid, Phase>) { forall u :: u in p ==> p[u] == Accepted }

  function OptimizeEvent(b: Ballot, u: Uuid): Event {
    if b == ToOptimize then RequestOptimize(u) else ReportOptimized(u)
  }

  /** A vote for the beginning or the end of an optimization. */
  lemma OptimizeVote(s: State, p: map<Uuid, Phase>, c: map<Uuid, Conn>, u: Uuid, b: Ballot, to: Conn)
    requires Shape(s, p, c) && u in c && p[u] == Accepted && OptimizeMove(b, to)
    requires c[u] == if b == ToOptimize then Idle else Optimizing
    ensures
      u in s.clients && var o := CastVote(s, u, b);
      && o.Next? && Shape(o.state, p, c[u := VoteConn(b)])
      && (Consensus(o.state, VoteConn(b)) ==> Unanimous(o.state, VoteConn(b)) && Inv(SetVotes(AllTo(o.state, to), b, {})))
  {
    hide Inv, CastVote, Consensus, Unanimous, AllTo, SetVotes;
    VoteThenMove(s, u, b, to);
    CastVoteFields(s, u, b);
    BallotDropped(s, u, b);
  }

  lemma BallotDropped(s: State, u: Uuid, b: Ballot)
    requires u in s.clients && CastVote(s, u, b).Next?
    ensures CastVote(s, u, b) == Stay(CastVote(s, u, b).state) && CastVote(s, u, b).state.dropped == s.dropped
  {
  }

  lemma OptimizeDispatched(s: State, p: map<Uuid, Phase>, c: map<Uuid, Conn>, u: Uuid, b: Ballot)
    requires Shape(s, p, c) && u in c && (b == ToOptimize || b == ToEndOptimize)
    ensures u in s.clients && Legal(s, OptimizeEvent(b, u))
    ensures Step(s, OptimizeEvent(b, u)) == if b == ToOptimize then OnRequestOptimize(s, u) else OnReportOptimized(s, u)
  {
    hide Inv, OnRequestOptimize, OnReportOptimized;
    Known(s, p, c, u);
  }

  /** One of several votes, and somebody else has not voted. */
  lemma Optimizes1(s: State, p: map<Uuid, Phase>, c: map<Uuid, Conn>, u: Uuid, v: Uuid, b: Ballot, to: Conn) returns (s': State)
    requires Shape(s, p, c) && u in c && v in c && u != v && p[u] == Accepted == p[v] && OptimizeMove(b, to)
    requires c[u] == (if b == ToOptimize then Idle else Optimizing) && c[v] != VoteConn(b)
    ensures Goes(s, OptimizeEvent(b, u), s') && Shape(s', p, c[u := VoteConn(b)])
  {
    hide Inv, Step, Legal, CastVote, Consensus, Unanimous, AllTo, SetVotes, Shape;
    ShapeAt(s, p, c, u);
    OptimizeDispatched(s, p, c, u, b);
    OptimizeVote(s, p, c, u, b, to);
    BallotDropped(s, u, b);
    s' := CastVote(s, u, b).state;
    ShapeAt(s', p, c[u := VoteConn(b)], v);
    StillOpen(s', v, VoteConn(b));
  }

  /** The last vote moves everybody. */
  lemma OptimizesLast(s: State, p: map<Uuid, Phase>, c: map<Uuid, Conn>, u: Uuid, b: Ballot, to: Conn) returns (s': State)
    requires Shape(s, p, c) && u in c && AllAre(p) && OptimizeMove(b, to)
    requires c[u] == if b == ToOptimize then Idle else Optimizing
    requires forall v :: v in c && v != u ==> c[v] == VoteConn(b)
    ensures Goes(s, OptimizeEvent(b, u), s') && Shape(s', p, map v | v in c :: to)
    ensures b == ToEndOptimize ==> exists x :: x in Step(s, OptimizeEvent(b, u)).out && x.body == OptimizeEnd
  {
    hide Inv, Step, Legal, CastVote, Consensus, Unanimous, AllTo, SetVotes, Shape, Everyone;
    ShapeAt(s, p, c, u);
    OptimizeDispatched(s, p, c, u, b);
    OptimizeVote(s, p, c, u, b, to);
    BallotDropped(s, u, b);
    var voted := CastVote(s, u, b).state;
    AllAgree(voted, p, c[u := VoteConn(b)], VoteConn(b));
    s' := SetVotes(AllTo(voted, to), b, {});
    ShapeMoved(voted, p, c[u := VoteConn(b)], c, b, to);
    var end := Cast(Everyone(s), if b == ToOptimize then OptimizeStart else OptimizeEnd);
    assert Step(s, OptimizeEvent(b, u)).out == [end];
    assert end in [end];
  }

  lemma AllAgree(s: State, p: map<Uuid, Phase>, c: map<Uuid, Conn>, x: Conn)
    requires Shape(s, p, c) && forall v :: v in c ==> c[v] == x
    ensures Consensus(s, x)
  {
    hide Clients, Addresses, VotesOk, StrategiesOk, MeteredOk, Consensus;
    ConsensusIsUnanimity(s, x);
  }

  lemma ShapeMoved(s: State, p: map<Uuid, Phase>, c: map<Uuid, Conn>, c0: map<Uuid, Conn>, b: Ballot, to: Conn)
    requires Shape(s, p, c) && AllAre(p) && c.Keys == c0.Keys && Inv(SetVotes(AllTo(s, to), b, {}))
    ensures Shape(SetVotes(AllTo(s, to), b, {}), p, map v | v in c0 :: to)
  {
    hide Inv;
  }

  lemma Same(s: State, p: map<Uuid, Phase>, c: map<Uuid, Conn>, p': map<Uuid, Phase>, c': map<Uuid, Conn>)
    requires Shape(s, p, c) && p.Keys == p'.Keys && c.Keys == c'.Keys
    requires (forall u :: u in p ==> p[u] == p'[u]) && (forall u :: u in c ==> c[u] == c'[u])
    ensures Shape(s, p', c')
  {
    assert p == p' && c == c';
  }

  /** The first `n` events of a story lead to `s`. */
  ghost predicate After(story: seq<Event>, n: nat, s: State) {
    n <= |story| && LegalRun(story[..n]) && Run(story[..n]).Next? && Run(story[..n]).state == s
  }

  lemma Extends(story: seq<Event>, n: nat, s: State, s': State)
    requires n < |story| && After(story, n, s) && Goes(s, story[n], s')
    ensures After(story, n + 1, s')
  {
    hide Step, Legal;
    assert story[..n + 1][..n] == story[..n];
  }

  lemma NoEvents(story: seq<Event>)
    ensures After(story, 0, Start())
  {
  }

  lemma SamePrefix(a: seq<Event>, b: seq<Event>, n: nat, s: State)
    requires After(a, n, s) && n <= |b| && a[..n] == b[..n]
    ensures After(b, n, s)
  {
    hide LegalRun, Run;
  }

  /** A story whose last event ends the master. */
  lemma EndsWith(story: seq<Event>, n: nat, s: State, bug: Bug)
    requires |story| == n + 1 && After(story, n, s) && Legal(s, story[n]) && Step(s, story[n]) == Halt(bug)
    ensures LegalRun(story) && Run(story) == Halt(bug)
  {
    hide Step, Legal;
  }
}
