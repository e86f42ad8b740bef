/** What every run of the master keeps, whatever its clients send. */
module MasterInv {
  import opened MasterSpec

  // Classes of connection states --------------------------------------------------------------------

  /** Taking part in an open p2p establishment phase. */
  predicate InPhase(c: Conn) { c == Connecting || c == Waiting || c == ConnectFailed }

  predicate P2PState(c: Conn) { InPhase(c) || c == VoteAccept || c == VoteNoNew }

  predicate Optimizes(c: Conn) { c == Optimizing || c == VoteOptimized }

  predicate Syncs(c: Conn) { c == Distributing || c == Requesting || c == VoteSynced }

  /** Performing the operation `tag`, or done with its own share. */
  predicate Active(i: Info, tag: Tag) { tag in i.coll && i.coll[tag] != VoteInit }

  function Standing(i: Info): set<Ballot> {
    match i.conn
    case VoteAccept => {ToAccept}
    case VoteNoNew => {ToEstablish}
    case VoteOptimize => {ToOptimize}
    case VoteOptimized => {ToEndOptimize}
    case VoteSync => {ToSync(i.group)}
    case VoteSynced => {ToEndSync(i.group)}
    case _ => {}
  }

  // The invariant -----------------------------------------------------------------------------------

  ghost predicate ClientOk(i: Info) {
    && (i.phase == Registered ==> (i.conn == Idle || InPhase(i.conn)) && i.coll == map[] && !i.pending)
    && (i.conn == Running <==> i.coll != map[])
  }

  /** Phases exclude each other, operations are entered and left together, and no local peer meets a remote one. */
  ghost predicate PairOk(a: Info, b: Info) {
    && (InPhase(a.conn) && b.phase == Accepted ==> P2PState(b.conn))
    && (a.phase == Accepted && b.phase == Accepted ==> Optimizes(a.conn) == Optimizes(b.conn))
    && (a.phase == Accepted && b.phase == Accepted && a.group == b.group ==>
          && Syncs(a.conn) == Syncs(b.conn)
          && forall tag :: Active(a, tag) == Active(b, tag))
    && a.local == b.local
  }

  ghost predicate Clients(m: map<Uuid, Info>) {
    && (forall u :: u in m ==> ClientOk(m[u]))
    && (forall u, v :: u in m && v in m ==> PairOk(m[u], m[v]))
  }

  /** The address maps are inverse to each other and cover exactly the clients. */
  ghost predicate Addresses(s: State) {
    && s.clients.Keys == s.addrOf.Keys <= s.issued
    && (forall u :: u in s.clients ==> s.clients[u].addr == s.addrOf[u] && s.addrOf[u] in s.byAddr && s.byAddr[s.addrOf[u]] == u)
    && (forall a :: a in s.byAddr ==> s.byAddr[a] in s.addrOf && s.addrOf[s.byAddr[a]] == a)
  }

  /** Each vote set holds exactly the clients whose state says that they voted. */
  ghost predicate VotesOk(s: State) {
    forall b, u :: u in Votes(s, b) <==> u in s.clients && b in Standing(s.clients[u])
  }

  ghost predicate StrategiesOk(s: State) {
    forall u :: u in s.strategies <==> u in s.clients && InRound(s.clients[u].conn)
  }

  ghost predicate MeteredOk(s: State) {
    s.metered == Everyone(s)
  }

  ghost predicate Inv(s: State) {
    Clients(s.clients) && Addresses(s) && VotesOk(s) && StrategiesOk(s) && MeteredOk(s)
  }

  // Single updates ----------------------------------------------------------------------------------

  /** A change of one client that no other client has to know about. */
  ghost predicate Quiet(a: Info, b: Info) {
    && b.phase == a.phase && b.group == a.group && b.local == a.local && b.addr == a.addr
    && (InPhase(b.conn) ==> InPhase(a.conn))
    && (P2PState(a.conn) ==> P2PState(b.conn))
    && Optimizes(a.conn) == Optimizes(b.conn) && Syncs(a.conn) == Syncs(b.conn)
    && (forall tag :: Active(a, tag) == Active(b, tag))
  }

  lemma QuietPairs(a: Info, b: Info, c: Info)
    requires Quiet(a, b) && PairOk(a, c) && PairOk(c, a)
    ensures PairOk(b, c) && PairOk(c, b)
  {
  }

  lemma QuietSelf(a: Info, b: Info)
    requires Quiet(a, b) && PairOk(a, a)
    ensures PairOk(b, b)
  {
  }

  lemma QuietClients(m: map<Uuid, Info>, u: Uuid, i: Info)
    requires Clients(m) && u in m && Quiet(m[u], i) && ClientOk(i)
    ensures Clients(m[u := i])
  {
    hide PairOk, ClientOk, Quiet;
    var m' := m[u := i];
    QuietSelf(m[u], i);
    forall v | v in m && v != u
      ensures PairOk(i, m[v]) && PairOk(m[v], i)
    {
      QuietPairs(m[u], i, m[v]);
    }
  }

  lemma FewerClients(m: map<Uuid, Info>, u: Uuid)
    requires Clients(m)
    ensures Clients(m - {u})
  {
    hide PairOk, ClientOk;
  }

  /** Casting a vote keeps the vote sets exact. */
  lemma CastVoteVotes(s: State, u: Uuid, b: Ballot)
    requires VotesOk(s) && u in s.clients && Standing(s.clients[u]) == {}
    requires Standing(s.clients[u].(conn := VoteConn(b))) == {b}
    ensures CastVote(s, u, b).Next? && VotesOk(CastVote(s, u, b).state)
  {
    hide Standing, VoteConn;
    var s' := CastVote(s, u, b).state;
    forall c, v
      ensures v in Votes(s', c) <==> v in s'.clients && c in Standing(s'.clients[v])
    {
      assert v in Votes(s, c) <==> v in s.clients && c in Standing(s.clients[v]);
    }
  }

  /** Everything but the clients' pairwise agreement and the vote sets. */
  ghost predicate Registry(s: State) {
    Addresses(s) && StrategiesOk(s) && MeteredOk(s)
  }

  /** The same clients, possibly in other states. */
  ghost predicate SamePeers(s: State, s': State) {
    && s'.clients.Keys == s.clients.Keys
    && s'.addrOf == s.addrOf && s'.byAddr == s.byAddr && s'.issued == s.issued
    && forall u :: u in s.clients ==> s'.clients[u].addr == s.clients[u].addr
  }

  lemma SameAddresses(s: State, s': State)
    requires Addresses(s) && SamePeers(s, s')
    ensures Addresses(s')
  {
  }

  lemma SameMetered(s: State, s': State)
    requires MeteredOk(s) && s'.clients.Keys == s.clients.Keys && s'.metered == s.metered
    requires forall u :: u in s.clients ==> s'.clients[u].phase == s.clients[u].phase
    ensures MeteredOk(s')
  {
    assert Everyone(s') == Everyone(s);
  }

  lemma SameStrategies(s: State, s': State)
    requires StrategiesOk(s) && s'.clients.Keys == s.clients.Keys && s'.strategies == s.strategies
    requires forall u :: u in s.clients ==> InRound(s'.clients[u].conn) == InRound(s.clients[u].conn)
    ensures StrategiesOk(s')
  {
  }

  lemma SetInfoRegistry(s: State, s': State, u: Uuid, i: Info)
    requires Registry(s) && u in s.clients && s'.clients == s.clients[u := i]
    requires s'.addrOf == s.addrOf && s'.byAddr == s.byAddr && s'.issued == s.issued
    requires s'.metered == s.metered && s'.strategies == s.strategies
    requires i.addr == s.clients[u].addr && i.phase == s.clients[u].phase
    requires InRound(i.conn) == InRound(s.clients[u].conn)
    ensures Registry(s')
  {
    hide InRound, Addresses, MeteredOk, StrategiesOk;
    SameAddresses(s, s');
    SameMetered(s, s');
    SameStrategies(s, s');
  }

  lemma CastVoteInv(s: State, u: Uuid, b: Ballot)
    requires Inv(s) && u in s.clients && Standing(s.clients[u]) == {} && !b.ToSync?
    requires Standing(s.clients[u].(conn := VoteConn(b))) == {b}
    requires Quiet(s.clients[u], s.clients[u].(conn := VoteConn(b))) && ClientOk(s.clients[u].(conn := VoteConn(b)))
    requires b.ToEndSync? <==> InRound(s.clients[u].conn)
    ensures CastVote(s, u, b).Next? && Inv(CastVote(s, u, b).state)
  {
    hide Clients, Quiet, ClientOk, VotesOk, Standing, Addresses, StrategiesOk, MeteredOk;
    var i := s.clients[u].(conn := VoteConn(b));
    CastVoteVotes(s, u, b);
    QuietClients(s.clients, u, i);
    SetInfoRegistry(s, CastVote(s, u, b).state, u, i);
  }

  // Counting ----------------------------------------------------------------------------------------

  lemma {:induction false} InverseMaps<A, B>(f: map<A, B>, g: map<B, A>)
    requires forall a :: a in f ==> f[a] in g && g[f[a]] == a
    requires forall b :: b in g ==> g[b] in f && f[g[b]] == b
    ensures |f| == |g|
    decreases |f|
  {
    if f == map[] {
      assert forall b :: b in g ==> g[b] in f;
      assert g == map[];
    } else {
      var a :| a in f;
      var f', g' := f - {a}, g - {f[a]};
      assert f'.Keys == f.Keys - {a} && g'.Keys == g.Keys - {f[a]};
      InverseMaps(f', g');
    }
  }

  lemma ClientCount(s: State)
    requires Addresses(s)
    ensures |s.clients.Keys| == |s.byAddr|
  {
    InverseMaps(s.addrOf, s.byAddr);
    assert |s.addrOf| == |s.addrOf.Keys|;
  }

  lemma SubsetCount<T>(a: set<T>, b: set<T>)
    requires a <= b
    ensures |a| <= |b|
    ensures |a| == |b| ==> a == b
  {
    assert |b| == |a| + |b - a| by { assert b == a + (b - a); }
  }

  /** Counting registered peers as voters, all clients have voted exactly when all accepted ones have. */
  lemma ConsensusIsUnanimity(s: State, c: Conn)
    requires Addresses(s)
    ensures Consensus(s, c) <==> Unanimous(s, c)
  {
    hide Addresses;
    ClientCount(s);
    SubsetCount(Counted(s, c), s.clients.Keys);
    if Consensus(s, c) {
      assert forall u :: u in s.clients ==> u in Counted(s, c);
    }
    if Unanimous(s, c) {
      assert Counted(s, c) == s.clients.Keys;
    }
  }

  // Transitions of many clients ---------------------------------------------------------------------

  /** Clearing the votes of one ballot, whose voters have moved on. */
  lemma ClearVotes(s: State, s': State, b: Ballot)
    requires VotesOk(s) && s'.clients.Keys == s.clients.Keys && s'.votes == s.votes[b := {}]
    requires forall u :: u in s.clients ==> Standing(s'.clients[u]) == Standing(s.clients[u]) - {b}
    ensures VotesOk(s')
  {
    hide Standing;
    forall c, v
      ensures v in Votes(s', c) <==> v in s'.clients && c in Standing(s'.clients[v])
    {
      assert v in Votes(s, c) <==> v in s.clients && c in Standing(s.clients[v]);
    }
  }

  ghost predicate OpenTo(s: State, s': State, accept: bool) {
    && SamePeers(s, s') && s'.strategies == s.strategies && s'.metered == s.metered
    && s'.votes == s.votes[(if accept then ToAccept else ToEstablish) := {}]
    && forall u :: u in s.clients ==> s'.clients[u] == OpenedInfo(s.clients[u], accept)
  }

  function OpenedInfo(i: Info, accept: bool): Info {
    if accept || i.phase == Accepted then i.(conn := Connecting) else i
  }

  lemma OpenClient(a: Info, accept: bool)
    requires ClientOk(a) && (a.phase == Accepted ==> a.conn == if accept then VoteAccept else VoteNoNew)
    ensures
      var b := OpenedInfo(a, accept);
      && ClientOk(b) && a.coll == map[] && !InRound(a.conn) && !InRound(b.conn)
      && Standing(b) == Standing(a) - {if accept then ToAccept else ToEstablish}
  {
  }

  lemma OpenPair(a: Info, b: Info, accept: bool)
    requires PairOk(a, b) && a.coll == map[] == b.coll
    ensures PairOk(OpenedInfo(a, accept), OpenedInfo(b, accept))
  {
  }

  lemma OpenInv(s: State, s': State, accept: bool)
    requires Inv(s) && Unanimous(s, if accept then VoteAccept else VoteNoNew) && OpenTo(s, s', accept)
    ensures Inv(s')
  {
    hide ClientOk, PairOk, Addresses, VotesOk, StrategiesOk, MeteredOk, InRound, Standing;
    forall u | u in s.clients
      ensures ClientOk(s'.clients[u]) && s.clients[u].coll == map[]
      ensures !InRound(s'.clients[u].conn) && !InRound(s.clients[u].conn)
      ensures Standing(s'.clients[u]) == Standing(s.clients[u]) - {if accept then ToAccept else ToEstablish}
    {
      OpenClient(s.clients[u], accept);
    }
    forall u, v | u in s.clients && v in s.clients
      ensures PairOk(s'.clients[u], s'.clients[v])
    {
      OpenPair(s.clients[u], s.clients[v], accept);
    }
    SameAddresses(s, s');
    SameMetered(s, s');
    SameStrategies(s, s');
    ClearVotes(s, s', if accept then ToAccept else ToEstablish);
  }

  lemma Opens(s: State, accept: bool)
    ensures OpenTo(s, OpenP2P(s, accept).(dropped := false), accept)
  {
  }

  lemma OpenP2PInv(s: State, accept: bool)
    requires Inv(s) && Consensus(s, if accept then VoteAccept else VoteNoNew)
    ensures Inv(OpenP2P(s, accept).(dropped := false))
  {
    hide Clients, VotesOk, StrategiesOk, MeteredOk, Addresses, Consensus, OpenTo, OpenP2P, Unanimous;
    ConsensusIsUnanimity(s, if accept then VoteAccept else VoteNoNew);
    Opens(s, accept);
    OpenInv(s, OpenP2P(s, accept).(dropped := false), accept);
  }

  lemma CheckEstablishInv(s: State)
    requires Inv(s)
    ensures CheckEstablish(s).Next? && Inv(CheckEstablish(s).state)
  {
    hide Inv, Consensus, OpenP2P;
    var first := if AcceptConsensus(s) then OpenP2P(s, true).(dropped := false) else s;
    if AcceptConsensus(s) { OpenP2PInv(s, true); }
    if EstablishConsensus(first) { OpenP2PInv(first, false); }
  }

  lemma SameVotes(s: State, s': State)
    requires VotesOk(s) && s'.clients.Keys == s.clients.Keys && s'.votes == s.votes
    requires forall u :: u in s.clients ==> Standing(s'.clients[u]) == Standing(s.clients[u])
    ensures VotesOk(s')
  {
    hide Standing;
    forall c, v
      ensures v in Votes(s', c) <==> v in s'.clients && c in Standing(s'.clients[v])
    {
      assert v in Votes(s, c) <==> v in s.clients && c in Standing(s.clients[v]);
    }
  }

  // The end of a p2p phase --------------------------------------------------------------------------

  predicate Endable(i: Info, failure: bool) {
    LeftOut(i) || i.conn == Waiting || (failure && i.conn == ConnectFailed)
  }

  lemma EndClient(a: Info, failure: bool)
    requires ClientOk(a) && Endable(a, failure)
    ensures
      var b := EndedInfo(a, failure);
      && ClientOk(b) && a.coll == map[] && b.addr == a.addr
      && Standing(b) == Standing(a) == {} && !InRound(a.conn) && !InRound(b.conn)
  {
  }

  lemma EndPair(a: Info, b: Info, failure: bool)
    requires PairOk(a, b) && a.coll == map[] == b.coll && Endable(a, failure) && Endable(b, failure)
    ensures PairOk(EndedInfo(a, failure), EndedInfo(b, failure))
  {
  }

  ghost predicate EndTo(s: State, s': State, failure: bool) {
    && s'.clients.Keys == s.clients.Keys && s'.addrOf == s.addrOf && s'.byAddr == s.byAddr && s'.issued == s.issued
    && s'.strategies == s.strategies && s'.votes == s.votes && s'.metered == s.metered + Newcomers(s)
    && s'.aborts == s.aborts && s'.nextSeq == s.nextSeq
    && forall u :: u in s.clients ==> s'.clients[u] == EndedInfo(s.clients[u], failure)
  }

  lemma Ends(s: State, failure: bool)
    ensures EndTo(s, CloseP2P(s, failure), failure)
  {
  }

  lemma EndMetered(s: State, s': State, failure: bool)
    requires MeteredOk(s) && EndTo(s, s', failure)
    ensures MeteredOk(s')
  {
    assert Everyone(s') == Everyone(s) + Newcomers(s);
  }

  lemma EndInv(s: State, s': State, failure: bool)
    requires Inv(s) && CanEndP2P(s, failure) && EndTo(s, s', failure)
    ensures Inv(s')
  {
    hide ClientOk, PairOk, Addresses, VotesOk, StrategiesOk, MeteredOk, InRound, Standing, EndedInfo, LeftOut, Newcomers;
    forall u | u in s.clients
      ensures Endable(s.clients[u], failure)
    {
    }
    forall u | u in s.clients
      ensures ClientOk(s'.clients[u]) && s.clients[u].coll == map[] && s'.clients[u].addr == s.clients[u].addr
      ensures !InRound(s'.clients[u].conn) && !InRound(s.clients[u].conn)
      ensures Standing(s'.clients[u]) == Standing(s.clients[u])
    {
      EndClient(s.clients[u], failure);
    }
    forall u, v | u in s.clients && v in s.clients
      ensures PairOk(s'.clients[u], s'.clients[v])
    {
      EndPair(s.clients[u], s.clients[v], failure);
    }
    SameAddresses(s, s');
    EndMetered(s, s', failure);
    SameStrategies(s, s');
    SameVotes(s, s');
  }

  ghost predicate HoldsP2PVote(i: Info) { i.phase == Accepted && (i.conn == VoteAccept || i.conn == VoteNoNew) }

  /** A phase cannot be ended exactly when somebody in it has voted for the next one already. */
  lemma EndableUnlessVoted(s: State, failure: bool)
    requires Inv(s) && P2PConsensus(s)
    requires failure || forall u :: u in s.clients ==> s.clients[u].conn != ConnectFailed
    ensures CanEndP2P(s, failure) <==> forall u :: u in s.clients ==> !HoldsP2PVote(s.clients[u])
  {
    hide VotesOk, StrategiesOk, MeteredOk, Addresses;
    var r :| r in s.clients && Reported(s.clients[r].conn);
    forall u | u in s.clients
      ensures Endable(s.clients[u], failure) <==> !HoldsP2PVote(s.clients[u])
    {
      assert PairOk(s.clients[r], s.clients[u]);
      assert ClientOk(s.clients[u]);
    }
    forall u | u in s.clients
      ensures Endable(s.clients[u], failure) <==>
        (!LeftOut(s.clients[u]) ==> s.clients[u].conn == Waiting || (failure && s.clients[u].conn == ConnectFailed))
    {
    }
  }

  lemma NewcomersUnmetered(s: State)
    requires MeteredOk(s)
    ensures Newcomers(s) !! s.metered
  {
  }

  lemma CheckP2PInv(s: State)
    requires Inv(s)
    ensures CheckP2P(s).Next? ==> Inv(CheckP2P(s).state)
    ensures CheckP2P(s).Halt? ==> CheckP2P(s).bug == Bug.EndP2P
  {
    hide Clients, Addresses, VotesOk, StrategiesOk, MeteredOk, CanEndP2P, P2PConsensus, EndTo, CloseP2P;
    if P2PConsensus(s) {
      var failure := s.dropped || exists u :: u in s.clients && s.clients[u].conn == ConnectFailed;
      NewcomersUnmetered(s);
      if CanEndP2P(s, failure) {
        Ends(s, failure);
        EndInv(s, CloseP2P(s, failure), failure);
      }
    }
  }

  /** When the check that ends a p2p phase brings the master down. */
  lemma CheckP2PHalts(s: State)
    requires Inv(s)
    ensures CheckP2P(s).Halt? <==> P2PConsensus(s) && exists u :: u in s.clients && HoldsP2PVote(s.clients[u])
  {
    hide Clients, Addresses, VotesOk, StrategiesOk, MeteredOk, CanEndP2P, P2PConsensus, CloseP2P;
    if P2PConsensus(s) {
      var failure := s.dropped || exists u :: u in s.clients && s.clients[u].conn == ConnectFailed;
      NewcomersUnmetered(s);
      EndableUnlessVoted(s, failure);
    }
  }

  // Topology optimization ---------------------------------------------------------------------------

  function MovedInfo(i: Info, c: Conn): Info { if i.phase == Accepted then i.(conn := c) else i }

  ghost predicate MoveTo(s: State, s': State, b: Ballot, c: Conn) {
    && SamePeers(s, s') && s'.strategies == s.strategies && s'.metered == s.metered && s'.votes == s.votes[b := {}]
    && forall u :: u in s.clients ==> s'.clients[u] == MovedInfo(s.clients[u], c)
  }

  predicate OptimizeMove(b: Ballot, c: Conn) {
    (b == ToOptimize && c == Optimizing) || (b == ToEndOptimize && c == Idle)
  }

  lemma MoveClient(a: Info, b: Ballot, c: Conn)
    requires ClientOk(a) && OptimizeMove(b, c) && (a.phase == Accepted ==> a.conn == VoteConn(b))
    ensures
      var a' := MovedInfo(a, c);
      && ClientOk(a') && a.coll == map[] && !InRound(a.conn) && !InRound(a'.conn)
      && Standing(a') == Standing(a) - {b} && a'.phase == a.phase
  {
  }

  lemma MovePair(x: Info, y: Info, b: Ballot, c: Conn)
    requires PairOk(x, y) && x.coll == map[] == y.coll && OptimizeMove(b, c)
    requires (x.phase == Accepted ==> x.conn == VoteConn(b)) && (y.phase == Accepted ==> y.conn == VoteConn(b))
    ensures PairOk(MovedInfo(x, c), MovedInfo(y, c))
  {
  }

  lemma MoveInv(s: State, s': State, b: Ballot, c: Conn)
    requires Inv(s) && OptimizeMove(b, c) && Unanimous(s, VoteConn(b)) && MoveTo(s, s', b, c)
    ensures Inv(s')
  {
    hide ClientOk, PairOk, Addresses, VotesOk, StrategiesOk, MeteredOk, InRound, Standing, MovedInfo, OptimizeMove, VoteConn;
    forall u | u in s.clients
      ensures ClientOk(s'.clients[u]) && s.clients[u].coll == map[] && s'.clients[u].phase == s.clients[u].phase
      ensures !InRound(s'.clients[u].conn) && !InRound(s.clients[u].conn)
      ensures Standing(s'.clients[u]) == Standing(s.clients[u]) - {b}
    {
      MoveClient(s.clients[u], b, c);
    }
    forall u, v | u in s.clients && v in s.clients
      ensures PairOk(s'.clients[u], s'.clients[v])
    {
      MovePair(s.clients[u], s.clients[v], b, c);
    }
    SameAddresses(s, s');
    SameMetered(s, s');
    SameStrategies(s, s');
    ClearVotes(s, s', b);
  }

  lemma Moves(s: State, b: Ballot, c: Conn)
    ensures MoveTo(s, SetVotes(AllTo(s, c), b, {}), b, c)
  {
  }

  lemma VoteThenMove(s: State, u: Uuid, b: Ballot, c: Conn)
    requires Inv(s) && u in s.clients && OptimizeMove(b, c)
    requires s.clients[u].phase == Accepted
    requires s.clients[u].conn == Optimizing || (b == ToOptimize && (s.clients[u].conn == Idle || s.clients[u].conn == OptimizeFailed))
    requires b == ToOptimize <==> s.clients[u].conn != Optimizing
    ensures CastVote(s, u, b).Next?
    ensures
      var s' := CastVote(s, u, b).state;
      && Inv(s')
      && (Consensus(s', VoteConn(b)) ==> Unanimous(s', VoteConn(b)) && Inv(SetVotes(AllTo(s', c), b, {})))
  {
    hide VotesOk, StrategiesOk, MeteredOk, Addresses, Consensus, Unanimous, MoveTo, AllTo, PairOk, SetVotes;
    assert ClientOk(s.clients[u]);
    CastVoteInv(s, u, b);
    var s' := CastVote(s, u, b).state;
    ConsensusIsUnanimity(s', VoteConn(b));
    if Consensus(s', VoteConn(b)) {
      Moves(s', b, c);
      MoveInv(s', SetVotes(AllTo(s', c), b, {}), b, c);
    }
  }

  lemma OptimizeInv(s: State, u: Uuid)
    requires Inv(s) && u in s.clients
    ensures OnRequestOptimize(s, u).Next? && Inv(OnRequestOptimize(s, u).state)
    ensures OnReportOptimized(s, u).Next? && Inv(OnReportOptimized(s, u).state)
  {
    hide Inv, CastVote, Consensus, Unanimous, AllTo;
    var i := s.clients[u];
    if i.phase == Accepted && (i.conn == Idle || i.conn == OptimizeFailed) { VoteThenMove(s, u, ToOptimize, Optimizing); }
    if i.phase == Accepted && i.conn == Optimizing { VoteThenMove(s, u, ToEndOptimize, Idle); }
  }

  // Single votes ------------------------------------------------------------------------------------

  lemma RequestP2PInv(s: State, u: Uuid, accept: bool)
    requires Inv(s) && u in s.clients
    ensures OnRequestP2P(s, u, accept).Next? && Inv(OnRequestP2P(s, u, accept).state)
  {
    hide VotesOk, StrategiesOk, MeteredOk, Addresses, PairOk, CastVote, CheckEstablish;
    assert ClientOk(s.clients[u]);
    var i := s.clients[u];
    if i.phase == Accepted && (i.conn == Idle || i.conn == ConnectFailed) {
      var b := if accept then ToAccept else ToEstablish;
      CastVoteInv(s, u, b);
      CheckEstablishInv(CastVote(s, u, b).state);
    }
  }

  lemma QuietInv(s: State, u: Uuid, i: Info)
    requires Inv(s) && u in s.clients && Quiet(s.clients[u], i) && ClientOk(i)
    requires Standing(i) == Standing(s.clients[u]) && InRound(i.conn) == InRound(s.clients[u].conn)
    ensures Inv(SetInfo(s, u, i))
  {
    hide ClientOk, PairOk, Addresses, VotesOk, StrategiesOk, MeteredOk, Standing, InRound;
    var s' := SetInfo(s, u, i);
    QuietClients(s.clients, u, i);
    SetInfoRegistry(s, s', u, i);
    SameVotes(s, s');
  }

  lemma ReportP2PInv(s: State, u: Uuid, success: bool, fail: FailVerdict)
    requires Inv(s) && u in s.clients
    ensures OnReportP2P(s, u, success, fail).Next? ==> Inv(OnReportP2P(s, u, success, fail).state)
    ensures OnReportP2P(s, u, success, fail).Halt? ==> OnReportP2P(s, u, success, fail).bug in {EndP2P, RingOptimal}
  {
    hide VotesOk, StrategiesOk, MeteredOk, Addresses, PairOk, CheckP2P;
    assert ClientOk(s.clients[u]);
    var i := s.clients[u];
    if i.conn == Connecting {
      var c := if success then Waiting else ConnectFailed;
      QuietInv(s, u, i.(conn := c));
      CheckP2PInv(SetConn(s, u, c));
    }
  }

  // Pending peers -----------------------------------------------------------------------------------

  lemma PendingPair(a: Info, b: Info, p: bool, q: bool)
    requires PairOk(a, b)
    ensures PairOk(a.(pending := p), b.(pending := q))
  {
    assert forall tag :: Active(a.(pending := p), tag) == Active(a, tag);
    assert forall tag :: Active(b.(pending := q), tag) == Active(b, tag);
  }

  ghost predicate ResetTo(s: State, s': State) {
    && SamePeers(s, s') && s'.strategies == s.strategies && s'.metered == s.metered && s'.votes == s.votes
    && s'.aborts == s.aborts && s'.nextSeq == s.nextSeq
    && forall u :: u in s.clients ==> s'.clients[u] == ResetInfo(s.clients[u])
  }

  function ResetInfo(i: Info): Info { if i.phase == Accepted then i.(pending := false) else i }

  lemma ResetClient(a: Info)
    requires ClientOk(a)
    ensures
      var a' := ResetInfo(a);
      ClientOk(a') && a' == a.(pending := false) && InRound(a'.conn) == InRound(a.conn) && Standing(a') == Standing(a)
  {
  }

  lemma Resets(s: State)
    ensures ResetTo(s, ResetPendingAll(s))
  {
  }

  lemma ResetPendingInv(s: State)
    requires Inv(s)
    ensures Inv(ResetPendingAll(s))
  {
    hide PairOk, ClientOk, Addresses, VotesOk, StrategiesOk, MeteredOk, ResetPendingAll, ResetInfo, InRound, Standing;
    var s' := ResetPendingAll(s);
    Resets(s);
    forall u | u in s.clients
      ensures ClientOk(s'.clients[u]) && s'.clients[u] == s.clients[u].(pending := false)
      ensures InRound(s'.clients[u].conn) == InRound(s.clients[u].conn)
      ensures Standing(s'.clients[u]) == Standing(s.clients[u])
    {
      ResetClient(s.clients[u]);
    }
    forall u, v | u in s.clients && v in s.clients
      ensures PairOk(s'.clients[u], s'.clients[v])
    {
      PendingPair(s.clients[u], s.clients[v], false, false);
    }
    SameAddresses(s, s');
    SameMetered(s, s');
    SameStrategies(s, s');
    SameVotes(s, s');
  }

  lemma CheckPendingInv(s: State)
    requires Inv(s)
    ensures CheckPending(s).Next? && Inv(CheckPending(s).state)
  {
    hide Inv, ResetPendingAll;
    if PendingConsensus(s) { ResetPendingInv(s); }
  }

  lemma QueryPendingInv(s: State, u: Uuid)
    requires Inv(s) && u in s.clients
    ensures OnQueryPending(s, u).Next? && Inv(OnQueryPending(s, u).state)
  {
    hide VotesOk, StrategiesOk, MeteredOk, Addresses, PairOk, CheckPending;
    assert ClientOk(s.clients[u]);
    var i := s.clients[u];
    if i.phase == Accepted && !i.pending {
      QuietInv(s, u, i.(pending := true));
      CheckPendingInv(SetInfo(s, u, i.(pending := true)));
    }
  }

  // Shared state ------------------------------------------------------------------------------------

  lemma SyncVoters(s: State, g: Group)
    requires Inv(s)
    ensures In(s, g, VoteSync) == Votes(s, ToSync(g)) && In(s, g, VoteSync) <= Members(s, g)
    ensures In(s, g, VoteSynced) == Votes(s, ToEndSync(g)) && In(s, g, VoteSynced) <= Members(s, g)
  {
    hide PairOk, Addresses, StrategiesOk, MeteredOk;
    forall u
      ensures u in In(s, g, VoteSync) <==> u in Votes(s, ToSync(g))
      ensures u in In(s, g, VoteSynced) <==> u in Votes(s, ToEndSync(g))
    {
    }
    forall u | u in In(s, g, VoteSync) || u in In(s, g, VoteSynced)
      ensures u in Members(s, g)
    {
      assert ClientOk(s.clients[u]);
    }
  }

  /** A vote for a round of shared-state synchronization. */
  lemma SyncVoteInv(s: State, u: Uuid, strategy: Strategy)
    requires Inv(s) && u in s.clients && s.clients[u].phase == Accepted && s.clients[u].conn == Idle
    ensures CastVote(s, u, ToSync(s.clients[u].group)).Next? && u !in s.strategies
    ensures Inv(CastVote(s, u, ToSync(s.clients[u].group)).state.(strategies := s.strategies[u := strategy]))
  {
    hide Clients, Addresses, VotesOk, MeteredOk, StrategiesOk, Quiet, CastVote;
    var b := ToSync(s.clients[u].group);
    var i := s.clients[u].(conn := VoteSync);
    SyncVoteQuiet(s, u);
    CastVoteVotes(s, u, b);
    QuietClients(s.clients, u, i);
    var voted := CastVote(s, u, b).state;
    var s' := voted.(strategies := s.strategies[u := strategy]);
    CastVoteFields(s, u, b);
    SameAddresses(s, s');
    SameMetered(s, s');
    SameVotes(voted, s');
    NewStrategy(s, s', u, i, strategy);
  }

  lemma SyncVoteQuiet(s: State, u: Uuid)
    requires Clients(s.clients) && StrategiesOk(s) && u in s.clients && s.clients[u].conn == Idle
    requires s.clients[u].phase == Accepted
    ensures u !in s.strategies && ClientOk(s.clients[u].(conn := VoteSync))
    ensures Quiet(s.clients[u], s.clients[u].(conn := VoteSync))
  {
    hide PairOk;
    assert ClientOk(s.clients[u]);
  }

  lemma CastVoteFields(s: State, u: Uuid, b: Ballot)
    requires u in s.clients && CastVote(s, u, b).Next?
    ensures
      var s' := CastVote(s, u, b).state;
      && s'.clients == s.clients[u := s.clients[u].(conn := VoteConn(b))]
      && s'.addrOf == s.addrOf && s'.byAddr == s.byAddr && s'.issued == s.issued && s'.metered == s.metered
  {
  }

  lemma NewStrategy(s: State, s': State, u: Uuid, i: Info, strategy: Strategy)
    requires StrategiesOk(s) && u in s.clients && s'.clients == s.clients[u := i] && InRound(i.conn)
    requires s'.strategies == s.strategies[u := strategy]
    ensures StrategiesOk(s')
  {
  }

  function AssignedInfo(i: Info, g: Group, distributes: bool): Info {
    if i.group == g && i.conn == VoteSync then i.(conn := if distributes then Distributing else Requesting) else i
  }

  ghost predicate AssignTo(s: State, s': State, g: Group, distributors: set<Uuid>) {
    && SamePeers(s, s') && s'.strategies == s.strategies && s'.metered == s.metered
    && s'.votes == s.votes[ToSync(g) := {}]
    && forall u :: u in s.clients ==> s'.clients[u] == AssignedInfo(s.clients[u], g, u in distributors)
  }

  lemma AssignClient(a: Info, g: Group, d: bool)
    requires ClientOk(a)
    ensures
      var a' := AssignedInfo(a, g, d);
      && ClientOk(a') && a'.phase == a.phase && InRound(a'.conn) == InRound(a.conn)
      && Standing(a') == Standing(a) - {ToSync(g)}
  {
  }

  lemma AssignPair(a: Info, b: Info, g: Group, d: bool, e: bool)
    requires PairOk(a, b) && ClientOk(a) && ClientOk(b)
    requires (a.phase == Accepted && a.group == g ==> a.conn == VoteSync)
    requires (b.phase == Accepted && b.group == g ==> b.conn == VoteSync)
    ensures PairOk(AssignedInfo(a, g, d), AssignedInfo(b, g, e))
  {
    assert forall tag :: Active(AssignedInfo(a, g, d), tag) == Active(a, tag);
    assert forall tag :: Active(AssignedInfo(b, g, e), tag) == Active(b, tag);
  }

  lemma AssignInv(s: State, s': State, g: Group, distributors: set<Uuid>)
    requires Inv(s) && Members(s, g) <= In(s, g, VoteSync) && AssignTo(s, s', g, distributors)
    ensures Inv(s')
  {
    hide ClientOk, PairOk, Addresses, VotesOk, StrategiesOk, MeteredOk, InRound, Standing, AssignedInfo;
    forall u | u in s.clients
      ensures ClientOk(s'.clients[u]) && s'.clients[u].phase == s.clients[u].phase
      ensures InRound(s'.clients[u].conn) == InRound(s.clients[u].conn)
      ensures Standing(s'.clients[u]) == Standing(s.clients[u]) - {ToSync(g)}
      ensures s.clients[u].phase == Accepted && s.clients[u].group == g ==> s.clients[u].conn == VoteSync
    {
      AssignClient(s.clients[u], g, u in distributors);
      assert s.clients[u].phase == Accepted && s.clients[u].group == g ==> u in Members(s, g);
    }
    forall u, v | u in s.clients && v in s.clients
      ensures PairOk(s'.clients[u], s'.clients[v])
    {
      AssignPair(s.clients[u], s.clients[v], g, u in distributors, v in distributors);
    }
    SameAddresses(s, s');
    SameMetered(s, s');
    SameStrategies(s, s');
    ClearVotes(s, s', ToSync(g));
  }

  lemma Assigns(s: State, g: Group, distributors: set<Uuid>)
    ensures AssignTo(s, SetVotes(Assigned(s, g, distributors), ToSync(g), {}), g, distributors)
  {
  }

  lemma CheckSyncInv(s: State, g: Group, verdict: SyncVerdict)
    requires Inv(s)
    ensures CheckSync(s, g, verdict).Next? ==> Inv(CheckSync(s, g, verdict).state)
    ensures CheckSync(s, g, verdict).Halt? ==> CheckSync(s, g, verdict).bug == SyncData
  {
    hide Inv, Assigned, AssignTo, Members, In, Votes;
    SyncVoters(s, g);
    SubsetCount(In(s, g, VoteSync), Members(s, g));
    if Members(s, g) <= In(s, g, VoteSync) && verdict.Assign? {
      Assigns(s, g, verdict.distributors);
      AssignInv(s, SetVotes(Assigned(s, g, verdict.distributors), ToSync(g), {}), g, verdict.distributors);
    }
  }

  lemma SyncStateInv(s: State, u: Uuid, legal: bool, strategy: Strategy, verdict: SyncVerdict)
    requires Inv(s) && u in s.clients
    ensures OnSyncState(s, u, legal, strategy, verdict).Next? ==> Inv(OnSyncState(s, u, legal, strategy, verdict).state)
    ensures OnSyncState(s, u, legal, strategy, verdict).Halt? ==>
      OnSyncState(s, u, legal, strategy, verdict).bug == SyncData
  {
    hide Inv, CastVote, CheckSync;
    var i := s.clients[u];
    if legal && i.phase == Accepted && i.conn == Idle {
      SyncVoteInv(s, u, strategy);
      CheckSyncInv(CastVote(s, u, ToSync(i.group)).state.(strategies := s.strategies[u := strategy]), i.group, verdict);
    }
  }

  function ReleasedInfo(i: Info, g: Group): Info {
    if i.phase == Accepted && i.group == g then i.(conn := Idle) else i
  }

  ghost predicate ReleaseTo(s: State, s': State, g: Group) {
    && SamePeers(s, s') && s'.strategies == s.strategies - Members(s, g) && s'.metered == s.metered
    && s'.votes == s.votes[ToEndSync(g) := {}]
    && forall u :: u in s.clients ==> s'.clients[u] == ReleasedInfo(s.clients[u], g)
  }

  lemma ReleaseClient(a: Info, g: Group)
    requires ClientOk(a) && (a.phase == Accepted && a.group == g ==> a.conn == VoteSynced)
    ensures
      var a' := ReleasedInfo(a, g);
      && ClientOk(a') && a'.phase == a.phase
      && InRound(a'.conn) == (InRound(a.conn) && !(a.phase == Accepted && a.group == g))
      && Standing(a') == Standing(a) - {ToEndSync(g)}
  {
  }

  lemma ReleasePair(a: Info, b: Info, g: Group)
    requires PairOk(a, b) && (a.phase == Accepted && a.group == g ==> a.conn == VoteSynced)
    requires (b.phase == Accepted && b.group == g ==> b.conn == VoteSynced)
    ensures PairOk(ReleasedInfo(a, g), ReleasedInfo(b, g))
  {
    assert forall tag :: Active(ReleasedInfo(a, g), tag) == Active(a, tag);
    assert forall tag :: Active(ReleasedInfo(b, g), tag) == Active(b, tag);
  }

  lemma ReleaseStrategies(s: State, s': State, g: Group)
    requires StrategiesOk(s) && ReleaseTo(s, s', g)
    requires forall u :: u in s.clients ==>
      (InRound(s'.clients[u].conn) <==> InRound(s.clients[u].conn) && u !in Members(s, g))
    ensures StrategiesOk(s')
  {
    hide InRound, ReleasedInfo;
  }

  lemma ReleaseInv(s: State, s': State, g: Group)
    requires Inv(s) && Members(s, g) <= In(s, g, VoteSynced) && ReleaseTo(s, s', g)
    ensures Inv(s')
  {
    hide ClientOk, PairOk, Addresses, VotesOk, StrategiesOk, MeteredOk, InRound, Standing, ReleasedInfo;
    forall u | u in s.clients
      ensures ClientOk(s'.clients[u]) && s'.clients[u].phase == s.clients[u].phase
      ensures InRound(s'.clients[u].conn) <==> InRound(s.clients[u].conn) && u !in Members(s, g)
      ensures Standing(s'.clients[u]) == Standing(s.clients[u]) - {ToEndSync(g)}
      ensures s.clients[u].phase == Accepted && s.clients[u].group == g ==> s.clients[u].conn == VoteSynced
    {
      assert s.clients[u].phase == Accepted && s.clients[u].group == g <==> u in Members(s, g);
      ReleaseClient(s.clients[u], g);
    }
    forall u, v | u in s.clients && v in s.clients
      ensures PairOk(s'.clients[u], s'.clients[v])
    {
      ReleasePair(s.clients[u], s.clients[v], g);
    }
    SameAddresses(s, s');
    SameMetered(s, s');
    ReleaseStrategies(s, s', g);
    ClearVotes(s, s', ToEndSync(g));
  }

  lemma Releases(s: State, g: Group)
    ensures ReleaseTo(s, EndRound(s, g), g)
  {
  }

  lemma CheckSyncedInv(s: State, g: Group)
    requires Inv(s)
    ensures CheckSynced(s, g).Next? && Inv(CheckSynced(s, g).state)
  {
    hide Inv, EndRound, ReleaseTo, Members, In, Votes;
    SyncVoters(s, g);
    SubsetCount(In(s, g, VoteSynced), Members(s, g));
    if Members(s, g) <= In(s, g, VoteSynced) {
      Releases(s, g);
      ReleaseInv(s, EndRound(s, g), g);
    }
  }

  lemma ReportSyncedInv(s: State, u: Uuid)
    requires Inv(s) && u in s.clients
    ensures OnReportSynced(s, u).Next? && Inv(OnReportSynced(s, u).state)
  {
    hide VotesOk, StrategiesOk, MeteredOk, Addresses, PairOk, CastVote, CheckSynced;
    assert ClientOk(s.clients[u]);
    var i := s.clients[u];
    if i.phase == Accepted && (i.conn == Distributing || i.conn == Requesting) {
      CastVoteInv(s, u, ToEndSync(i.group));
      CheckSyncedInv(CastVote(s, u, ToEndSync(i.group)).state, i.group);
    }
  }

  // Collective operations ---------------------------------------------------------------------------

  /** A change that touches only the operation `tag` of the accepted peers of group `g`, and all of them alike. */
  ghost predicate CollTo(s: State, s': State, g: Group, f: Info -> Info) {
    && SamePeers(s, s') && s'.strategies == s.strategies && s'.metered == s.metered && s'.votes == s.votes
    && forall u :: u in s.clients ==> s'.clients[u] == if u in Members(s, g) then f(s.clients[u]) else s.clients[u]
  }

  /** How `f` changes one member. */
  ghost predicate CollStep(a: Info, b: Info, tag: Tag, active: bool) {
    && b == a.(conn := b.conn, coll := b.coll)
    && (b.conn == Running <==> b.coll != map[]) && (b.conn == Running || b.conn == Idle) && a.conn == Running
    && Active(b, tag) == active && forall t :: t != tag ==> Active(b, t) == Active(a, t)
  }

  lemma CollClient(a: Info, b: Info, tag: Tag, active: bool)
    requires ClientOk(a) && a.phase == Accepted && CollStep(a, b, tag, active)
    ensures ClientOk(b) && b.phase == a.phase && Standing(b) == Standing(a) && InRound(a.conn) == InRound(b.conn)
  {
  }

  lemma CollPairBoth(a: Info, a': Info, b: Info, b': Info, tag: Tag, active: bool)
    requires PairOk(a, b) && CollStep(a, a', tag, active) && CollStep(b, b', tag, active)
    ensures PairOk(a', b')
  {
  }

  lemma CollPairOne(a: Info, a': Info, b: Info, tag: Tag, active: bool)
    requires PairOk(a, b) && PairOk(b, a) && CollStep(a, a', tag, active) && (b.phase == Accepted ==> a.group != b.group)
    ensures PairOk(a', b) && PairOk(b, a')
  {
  }

  lemma CollClients(s: State, s': State, g: Group, tag: Tag, active: bool, f: Info -> Info)
    requires Clients(s.clients) && CollTo(s, s', g, f)
    requires forall u :: u in Members(s, g) ==> CollStep(s.clients[u], f(s.clients[u]), tag, active)
    ensures forall u :: u in s.clients ==>
      s'.clients[u].phase == s.clients[u].phase && Standing(s'.clients[u]) == Standing(s.clients[u])
      && InRound(s.clients[u].conn) == InRound(s'.clients[u].conn)
    ensures Clients(s'.clients)
  {
    hide ClientOk, PairOk, CollStep, InRound, Standing, SamePeers;
    assert s'.clients.Keys == s.clients.Keys by { PeersKeys(s, s'); }
    forall u | u in s.clients
      ensures ClientOk(s'.clients[u]) && s'.clients[u].phase == s.clients[u].phase
      ensures Standing(s'.clients[u]) == Standing(s.clients[u])
      ensures InRound(s.clients[u].conn) == InRound(s'.clients[u].conn)
    {
      if u in Members(s, g) { CollClient(s.clients[u], s'.clients[u], tag, active); }
    }
    forall u, v | u in s.clients && v in s.clients
      ensures PairOk(s'.clients[u], s'.clients[v])
    {
      var a, b := s.clients[u], s.clients[v];
      if u in Members(s, g) && v in Members(s, g) {
        CollPairBoth(a, s'.clients[u], b, s'.clients[v], tag, active);
      } else if u in Members(s, g) {
        CollPairOne(a, s'.clients[u], b, tag, active);
      } else if v in Members(s, g) {
        CollPairOne(b, s'.clients[v], a, tag, active);
      }
    }
  }

  lemma PeersKeys(s: State, s': State)
    requires SamePeers(s, s')
    ensures s'.clients.Keys == s.clients.Keys
  {
  }

  lemma CollInv(s: State, s': State, g: Group, tag: Tag, active: bool, f: Info -> Info)
    requires Inv(s) && CollTo(s, s', g, f)
    requires forall u :: u in Members(s, g) ==> CollStep(s.clients[u], f(s.clients[u]), tag, active)
    ensures Inv(s')
  {
    hide Clients, CollStep, InRound, Standing, Addresses, VotesOk, StrategiesOk, MeteredOk, Members;
    CollClients(s, s', g, tag, active, f);
    SameAddresses(s, s');
    SameMetered(s, s');
    SameStrategies(s, s');
    SameVotes(s, s');
  }

  function StartTag(tag: Tag): Info -> Info { (i: Info) => i.(coll := i.coll[tag := Performing]) }

  function EndTag(tag: Tag): Info -> Info { (i: Info) => WithoutTag(i, tag) }

  lemma Commences(s: State, g: Group, tag: Tag)
    ensures CollTo(s, Commenced(s, g, tag), g, StartTag(tag))
  {
    hide Members;
  }

  lemma Concludes(s: State, g: Group, tag: Tag)
    ensures CollTo(s, Concluded(s, g, tag), g, EndTag(tag))
  {
    hide Members;
    forall u | u in s.clients
      ensures WithoutTag(s.clients[u], tag).addr == s.clients[u].addr
    {
    }
  }

  lemma StartsTag(i: Info, tag: Tag)
    requires ClientOk(i) && InColl(i, tag, VoteInit)
    ensures CollStep(i, StartTag(tag)(i), tag, true)
  {
  }

  lemma EndsTag(i: Info, tag: Tag)
    requires ClientOk(i) && InColl(i, tag, VoteDone)
    ensures CollStep(i, EndTag(tag)(i), tag, false)
  {
    var rest := i.coll - {tag};
    assert forall t :: t != tag ==> (t in rest <==> t in i.coll);
  }

  /** Peers that take part in an operation are in the running state. */
  lemma MembersRun(s: State, g: Group, tag: Tag, c: Coll)
    requires Clients(s.clients) && AllInColl(s, g, tag, c)
    ensures Runners(s, g) == Members(s, g)
  {
    hide PairOk;
    forall u | u in Members(s, g)
      ensures s.clients[u].conn == Running
    {
      assert ClientOk(s.clients[u]) && tag in s.clients[u].coll;
    }
  }

  lemma CheckInitiateInv(s: State, g: Group, tag: Tag)
    requires Inv(s)
    ensures CheckInitiate(s, g, tag).Next? && Inv(CheckInitiate(s, g, tag).state)
  {
    hide ClientOk, PairOk, Addresses, VotesOk, StrategiesOk, MeteredOk, CollStep, CollTo, Runners, Commenced, InColl;
    if AllInColl(s, g, tag, VoteInit) {
      MembersRun(s, g, tag, VoteInit);
      Commences(s, g, tag);
      forall u | u in Members(s, g)
        ensures CollStep(s.clients[u], StartTag(tag)(s.clients[u]), tag, true)
      {
        StartsTag(s.clients[u], tag);
      }
      CollInv(s, Commenced(s, g, tag), g, tag, true, StartTag(tag));
    }
  }

  lemma CheckCompleteInv(s: State, g: Group, tag: Tag)
    requires Inv(s)
    ensures CheckComplete(s, g, tag).Next? && Inv(CheckComplete(s, g, tag).state)
  {
    hide ClientOk, PairOk, Addresses, VotesOk, StrategiesOk, MeteredOk, CollStep, CollTo, Runners, Concluded, InColl;
    if AllInColl(s, g, tag, VoteDone) {
      MembersRun(s, g, tag, VoteDone);
      Concludes(s, g, tag);
      forall u | u in Members(s, g)
        ensures CollStep(s.clients[u], EndTag(tag)(s.clients[u]), tag, false)
      {
        EndsTag(s.clients[u], tag);
      }
      CollInv(s, Concluded(s, g, tag), g, tag, false, EndTag(tag));
    }
  }

  lemma MarkAbortedInv(s: State, g: Group, tag: Tag)
    requires Inv(s)
    ensures MarkAborted(s, g, tag).Next? && Inv(MarkAborted(s, g, tag).state)
  {
    hide ClientOk, PairOk, Standing, Runners, InRound;
    var s' := MarkAborted(s, g, tag).state;
    assert Everyone(s') == Everyone(s);
    assert forall b :: Votes(s', b) == Votes(s, b);
  }

  lemma VoteInitQuiet(i: Info, tag: Tag)
    requires ClientOk(i) && i.phase == Accepted && (i.conn == Idle || i.conn == Running) && tag !in i.coll
    ensures
      var i' := i.(conn := Running, coll := i.coll[tag := VoteInit]);
      Quiet(i, i') && ClientOk(i') && Standing(i') == Standing(i) && InRound(i'.conn) == InRound(i.conn)
  {
  }

  lemma VoteDoneQuiet(i: Info, tag: Tag)
    requires ClientOk(i) && i.phase == Accepted && InColl(i, tag, Performing)
    ensures
      var i' := i.(coll := i.coll[tag := VoteDone]);
      Quiet(i, i') && ClientOk(i') && Standing(i') == Standing(i) && InRound(i'.conn) == InRound(i.conn)
  {
  }

  lemma EachClientOk(s: State, u: Uuid)
    requires Inv(s) && u in s.clients
    ensures ClientOk(s.clients[u])
  {
  }

  lemma InitiateInv(s: State, u: Uuid, tag: Tag)
    requires Inv(s) && u in s.clients
    ensures OnInitiate(s, u, tag).Next? && Inv(OnInitiate(s, u, tag).state)
  {
    hide Inv, ClientOk, Quiet, Standing, InRound, CheckInitiate;
    EachClientOk(s, u);
    var i := s.clients[u];
    if i.phase == Accepted && (i.conn == Idle || i.conn == Running) && tag !in i.coll {
      var i' := i.(conn := Running, coll := i.coll[tag := VoteInit]);
      VoteInitQuiet(i, tag);
      QuietInv(s, u, i');
      CheckInitiateInv(SetInfo(s, u, i'), i.group, tag);
    }
  }

  lemma CompleteInv(s: State, u: Uuid, tag: Tag, aborted: bool)
    requires Inv(s) && u in s.clients
    ensures OnComplete(s, u, tag, aborted).Next? && Inv(OnComplete(s, u, tag, aborted).state)
  {
    hide Inv, ClientOk, Quiet, Standing, InRound, CheckComplete, MarkAborted, InColl;
    EachClientOk(s, u);
    var i := s.clients[u];
    if i.phase == Accepted && InColl(i, tag, Performing) {
      var i' := i.(coll := i.coll[tag := VoteDone]);
      VoteDoneQuiet(i, tag);
      QuietInv(s, u, i');
      var voted := SetInfo(s, u, i');
      MarkAbortedInv(voted, i.group, tag);
      CheckCompleteInv(if aborted then MarkAborted(voted, i.group, tag).state else voted, i.group, tag);
    }
  }

  // Coming and going --------------------------------------------------------------------------------

  lemma JoinClients(m: map<Uuid, Info>, u: Uuid, i: Info)
    requires Clients(m) && u !in m && i.phase == Registered && i.conn == Idle && i.coll == map[] && !i.pending
    requires forall v :: v in m ==> m[v].local == i.local
    ensures Clients(m[u := i])
  {
    var m' := m[u := i];
    forall v, w | v in m' && w in m'
      ensures PairOk(m'[v], m'[w])
    {
      if v in m && w in m { assert PairOk(m[v], m[w]); }
    }
  }

  lemma JoinAddresses(s: State, u: Uuid, i: Info)
    requires Addresses(s) && u !in s.issued && i.addr !in s.byAddr
    ensures Addresses(Join(s, u, i))
  {
  }

  lemma JoinInv(s: State, u: Uuid, i: Info)
    requires Inv(s) && u !in s.issued && i.addr !in s.byAddr && !Mixes(s, i.local)
    requires i.phase == Registered && i.conn == Idle && i.coll == map[] && !i.pending
    ensures Inv(Join(s, u, i))
  {
    hide PairOk, ClientOk, Addresses, VotesOk, StrategiesOk, MeteredOk;
    IssuedClients(s, u);
    JoinClients(s.clients, u, i);
    JoinAddresses(s, u, i);
    JoinRest(s, u, i);
  }

  lemma JoinRest(s: State, u: Uuid, i: Info)
    requires VotesOk(s) && StrategiesOk(s) && MeteredOk(s) && u !in s.clients && i.phase == Registered && i.conn == Idle
    ensures VotesOk(Join(s, u, i)) && StrategiesOk(Join(s, u, i)) && MeteredOk(Join(s, u, i))
  {
    var s' := Join(s, u, i);
    assert Everyone(s') == Everyone(s);
    assert Standing(i) == {} && !InRound(i.conn);
    hide Standing, InRound;
    forall b, v
      ensures v in Votes(s', b) <==> v in s'.clients && b in Standing(s'.clients[v])
    {
      assert v in Votes(s, b) <==> v in s.clients && b in Standing(s.clients[v]);
    }
  }

  lemma IssuedClients(s: State, u: Uuid)
    requires Addresses(s) && u !in s.issued
    ensures u !in s.clients
  {
  }

  /** The first client is accepted and alone in an open p2p phase. */
  ghost predicate Alone(s: State, u: Uuid) {
    && s.clients.Keys == {u} == s.metered && s.addrOf.Keys == {u} <= s.issued
    && s.clients[u].phase == Accepted && s.clients[u].conn == Connecting && s.clients[u].coll == map[]
    && s.addrOf[u] == s.clients[u].addr && s.byAddr == map[s.clients[u].addr := u]
    && s.strategies == map[] && forall b :: Votes(s, b) == {}
  }

  lemma AloneInv(s: State, u: Uuid)
    requires Alone(s, u)
    ensures Inv(s)
  {
    assert Everyone(s) == {u};
    assert ClientOk(s.clients[u]) && PairOk(s.clients[u], s.clients[u]);
  }

  lemma EmptyState(s: State)
    requires Inv(s) && s.clients == map[]
    ensures s.byAddr == map[] == s.addrOf && s.strategies == map[] && s.metered == {} && forall b :: Votes(s, b) == {}
  {
    forall a | a in s.byAddr ensures s.byAddr[a] in s.clients { }
    assert s.byAddr == map[];
    assert s.strategies == map[];
  }

  /** The steps of registering the first client. */
  lemma FirstVotes(s: State, u: Uuid, i: Info)
    requires s.clients == map[u := i] && s.byAddr == map[i.addr := u] && i.phase == Accepted
    requires forall b :: Votes(s, b) == {}
    ensures CastVote(s, u, ToAccept).Next?
    ensures
      var s' := CastVote(s, u, ToAccept).state;
      && s' == s.(clients := map[u := i.(conn := VoteAccept)], votes := s.votes[ToAccept := {u}])
      && AcceptConsensus(s')
  {
    var s' := CastVote(s, u, ToAccept).state;
    assert Votes(s, ToAccept) + {u} == {u};
    assert s'.clients == map[u := i.(conn := VoteAccept)];
    assert Counted(s', VoteAccept) == {u};
  }

  lemma FirstOpens(s: State, u: Uuid, i: Info)
    requires s.clients == map[u := i]
    ensures OpenP2P(s, true) == s.(clients := map[u := i.(conn := Connecting)], votes := s.votes[ToAccept := {}])
  {
    assert OpenP2P(s, true).clients == map[u := i.(conn := Connecting)];
  }

  function FirstState(s: State, u: Uuid, i: Info): State {
    s.(clients := map[u := i.(phase := Accepted, conn := Connecting)], byAddr := map[i.addr := u],
       addrOf := map[u := i.addr], votes := s.votes[ToAccept := {u}][ToAccept := {}], metered := {u},
       issued := s.issued + {u})
  }

  lemma EnrollFirst(s: State, addr: Addr, local: bool, group: Group, u: Uuid)
    requires s.clients == map[] && s.byAddr == map[] && s.addrOf == map[] && s.metered == {}
    requires forall b :: Votes(s, b) == {}
    ensures Enroll(s, addr, local, group, u)
         == Stay(FirstState(s, u, Info(Registered, Idle, addr, local, group, map[], false)))
  {
    hide CastVote, OpenP2P, Consensus;
    var i := Info(Registered, Idle, addr, local, group, map[], false);
    var joined := Join(s, u, i);
    var a := i.(phase := Accepted);
    var first := SetInfo(joined, u, a).(metered := joined.metered + {u});
    assert first == joined.(clients := map[u := a], metered := {u});
    assert joined.byAddr == map[addr := u];
    assert forall b :: Votes(first, b) == Votes(s, b);
    FirstVotes(first, u, a);
    FirstOpens(CastVote(first, u, ToAccept).state, u, a.(conn := VoteAccept));
  }

  lemma FirstStateAlone(s: State, u: Uuid, i: Info)
    requires s.strategies == map[] && i.coll == map[] && forall b :: Votes(s, b) == {}
    ensures Alone(FirstState(s, u, i), u)
  {
    var s' := FirstState(s, u, i);
    forall b ensures Votes(s', b) == {} {
      assert Votes(s, b) == {};
    }
  }

  lemma EnrollInv(s: State, addr: Addr, local: bool, group: Group, u: Uuid)
    requires Inv(s) && u !in s.issued && addr !in s.byAddr && !Mixes(s, local)
    ensures Enroll(s, addr, local, group, u).Next? && Inv(Enroll(s, addr, local, group, u).state)
  {
    hide Inv, CastVote, OpenP2P, Consensus, FirstState, Alone, Mixes;
    var i := Info(Registered, Idle, addr, local, group, map[], false);
    if s.clients == map[] {
      EmptyState(s);
      EnrollFirst(s, addr, local, group, u);
      FirstStateAlone(s, u, i);
      AloneInv(FirstState(s, u, i), u);
    } else {
      JoinInv(s, u, i);
      NotFirst(s, u, i);
    }
  }

  lemma NotFirst(s: State, u: Uuid, i: Info)
    requires Inv(s) && s.clients != map[] && i.addr !in s.byAddr
    ensures |Join(s, u, i).byAddr| != 1
  {
    hide Clients, VotesOk, StrategiesOk, MeteredOk;
    var v :| v in s.clients;
    var addrs := Join(s, u, i).byAddr.Keys;
    assert {i.addr, s.addrOf[v]} <= addrs;
    SubsetCount({i.addr, s.addrOf[v]}, addrs);
  }

  lemma RegisterInv(s: State, addr: Addr, local: bool, group: Group, u: Uuid)
    requires Inv(s) && u !in s.issued
    ensures OnRegister(s, addr, local, group, u).Next? && Inv(OnRegister(s, addr, local, group, u).state)
  {
    hide Inv, Enroll, CheckEstablish, Mixes;
    if addr !in s.byAddr {
      if !Mixes(s, local) { EnrollInv(s, addr, local, group, u); }
      var joined := if Mixes(s, local) then s else Enroll(s, addr, local, group, u).state;
      CheckEstablishInv(joined);
    }
  }

  lemma LeaveVotes(s: State, u: Uuid, b: Ballot)
    requires u in s.clients && VotesOk(s)
    ensures Votes(Leave(s, u), b) == Votes(s, b) - {u}
  {
    assert u in Votes(s, b) ==> b in Standing(s.clients[u]);
  }

  lemma LeaveInv(s: State, u: Uuid)
    requires Inv(s) && u in s.clients
    ensures Inv(Leave(s, u))
  {
    hide PairOk, ClientOk, Addresses, Standing, InRound, Leave;
    var s' := Leave(s, u);
    LeaveFields(s, u);
    FewerClients(s.clients, u);
    LeaveAddresses(s, u);
    assert Everyone(s') == Everyone(s) - {u};
    forall b, v
      ensures v in Votes(s', b) <==> v in s'.clients && b in Standing(s'.clients[v])
    {
      LeaveVotes(s, u, b);
      assert v in Votes(s, b) <==> v in s.clients && b in Standing(s.clients[v]);
    }
  }

  lemma LeaveFields(s: State, u: Uuid)
    requires u in s.clients
    ensures
      var s' := Leave(s, u);
      && s'.clients == s.clients - {u} && s'.strategies == s.strategies - {u}
      && s'.metered == if s.clients[u].phase == Accepted then s.metered - {u} else s.metered
  {
  }

  lemma LeaveAddresses(s: State, u: Uuid)
    requires Addresses(s) && u in s.clients
    ensures Addresses(Leave(s, u))
  {
    var s' := Leave(s, u);
    assert s'.addrOf == s.addrOf - {u} && s'.byAddr == s.byAddr - {s.addrOf[u]};
  }

  lemma DroppedInv(s: State, d: bool)
    requires Inv(s)
    ensures Inv(s.(dropped := d))
  {
    hide PairOk, ClientOk, Standing, InRound;
    var s' := s.(dropped := d);
    assert Everyone(s') == Everyone(s);
    assert forall b :: Votes(s', b) == Votes(s, b);
  }

  lemma DepartedInv(s: State, u: Uuid, verdict: SyncVerdict)
    requires Inv(s) && u in s.clients
    ensures Departed(s, u, verdict).Next? ==> Inv(Departed(s, u, verdict).state)
    ensures Departed(s, u, verdict).Halt? ==> Departed(s, u, verdict).bug in {EndP2P, SyncData}
  {
    hide Inv, Leave, CheckEstablish, CheckP2P, CheckPending, CheckSync, CheckSynced;
    var g := s.clients[u].group;
    LeaveInv(s, u);
    CheckEstablishInv(Leave(s, u));
    var a := CheckEstablish(Leave(s, u)).state;
    DroppedInv(a, true);
    CheckP2PInv(a.(dropped := true));
    var b := CheckP2P(a.(dropped := true));
    if b.Next? {
      CheckPendingInv(b.state);
      var c := CheckPending(b.state);
      CheckSyncInv(c.state, g, verdict);
      var d := CheckSync(c.state, g, verdict);
      if d.Next? { CheckSyncedInv(d.state, g); }
    }
  }

  lemma RecheckInv(s: State, g: Group, tag: Tag)
    requires Inv(s)
    ensures Recheck(s, g, tag).Next? && Inv(Recheck(s, g, tag).state)
  {
    hide Inv, CheckInitiate, CheckComplete, MarkAborted, InProgress;
    CheckInitiateInv(s, g, tag);
    var a := CheckInitiate(s, g, tag).state;
    CheckCompleteInv(a, g, tag);
    MarkAbortedInv(CheckComplete(a, g, tag).state, g, tag);
  }

  lemma {:induction false} RecheckAllInv(s: State, g: Group, tags: seq<Tag>)
    requires Inv(s)
    ensures RecheckAll(s, g, tags).Next? && Inv(RecheckAll(s, g, tags).state)
    decreases |tags|
  {
    hide Inv, Recheck;
    if tags != [] {
      RecheckInv(s, g, tags[0]);
      RecheckAllInv(Recheck(s, g, tags[0]).state, g, tags[1..]);
    }
  }

  lemma DisconnectInv(s: State, u: Uuid, verdict: SyncVerdict, tags: seq<Tag>)
    requires Inv(s) && u in s.clients
    ensures OnDisconnect(s, u, verdict, tags).Next? ==> Inv(OnDisconnect(s, u, verdict, tags).state)
    ensures OnDisconnect(s, u, verdict, tags).Halt? ==> OnDisconnect(s, u, verdict, tags).bug in {EndP2P, SyncData}
  {
    hide Inv, Departed, RecheckAll;
    DepartedInv(s, u, verdict);
    if Departed(s, u, verdict).Next? {
      RecheckAllInv(Departed(s, u, verdict).state, s.clients[u].group, tags);
    }
  }

  // Runs --------------------------------------------------------------------------------------------

  /** The bugs a run can really end with: a p2p phase that somebody has voted past, a bandwidth report about a
      peer that is not accepted, and the ones behind the election and the ring topology. */
  predicate Possible(b: Bug) { b in {EndP2P, StoreBandwidth, RingOptimal, SyncData} }

  /** One step, with any packet of any client. */
  lemma StepInv(s: State, e: Event)
    requires Inv(s) && Legal(s, e)
    ensures Step(s, e).Next? ==> Inv(Step(s, e).state)
    ensures Step(s, e).Halt? ==> Possible(Step(s, e).bug)
  {
    hide Inv, OnRegister, OnRequestP2P, OnReportP2P, OnQueryPending, OnRequestOptimize, OnReportOptimized, OnSyncState,
         OnReportSynced, OnInitiate, OnComplete, OnDisconnect;
    if e.Register? {
      RegisterInv(s, e.addr, e.local, e.group, e.id);
    } else if e.addr in s.byAddr && s.byAddr[e.addr] in s.clients {
      var u := s.byAddr[e.addr];
      match e
      case RequestP2P(_, accept) => RequestP2PInv(s, u, accept);
      case ReportP2P(_, success, fail) => ReportP2PInv(s, u, success, fail);
      case QueryPending(_) => QueryPendingInv(s, u);
      case RequestOptimize(_) => OptimizeInv(s, u);
      case ReportBandwidth(_, _) =>
      case ReportOptimized(_) => OptimizeInv(s, u);
      case SyncState(_, legal, strategy, verdict) => SyncStateInv(s, u, legal, strategy, verdict);
      case ReportSynced(_) => ReportSyncedInv(s, u);
      case Initiate(_, tag) => InitiateInv(s, u, tag);
      case Complete(_, tag, aborted) => CompleteInv(s, u, tag, aborted);
      case Disconnect(_, verdict, tags) => DisconnectInv(s, u, verdict, tags);
    }
  }

  /** The outcome of a sequence of events, from an empty master. */
  function Run(events: seq<Event>): Outcome {
    if events == [] then Stay(Start())
    else
      var before := Run(events[..|events| - 1]);
      if before.Halt? then before else Before(Step(before.state, events[|events| - 1]), before.out)
  }

  ghost predicate LegalRun(events: seq<Event>)
    decreases |events|
  {
    events == [] ||
      (LegalRun(events[..|events| - 1]) &&
       (Run(events[..|events| - 1]).Next? ==> Legal(Run(events[..|events| - 1]).state, events[|events| - 1])))
  }

  lemma StartInv()
    ensures Inv(Start())
  {
  }

  /** Every run of the master, whatever its clients send and in whatever order, keeps the invariant; and it can
      only be ended by the bugs listed. */
  lemma {:induction false} RunInv(events: seq<Event>)
    requires LegalRun(events)
    ensures Run(events).Next? ==> Inv(Run(events).state)
    ensures Run(events).Halt? ==> Possible(Run(events).bug)
    decreases |events|
  {
    hide Inv, Step, Legal, Possible;
    if events == [] {
      StartInv();
    } else {
      var front := events[..|events| - 1];
      RunInv(front);
      if Run(front).Next? { StepInv(Run(front).state, events[|events| - 1]); }
    }
  }
}
