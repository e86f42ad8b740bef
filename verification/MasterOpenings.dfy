/** A phase is entered or left only with a standing vote of every accepted peer concerned. */
module MasterOpenings {
  import opened MasterSpec
  import opened MasterInv
  import opened MasterTheorems

  /** The ballot whose success a packet announces; shared state is voted on in group `g`. */
  predicate Announces(b: Body, g: Group, ballot: Ballot) {
    match b
    case PeersInfo(registered) => ballot == if registered then ToAccept else ToEstablish
    case OptimizeStart => ballot == ToOptimize
    case OptimizeEnd => ballot == ToEndOptimize
    case SyncStart => ballot == ToSync(g)
    case SyncEnd => ballot == ToEndSync(g)
    case _ => false
  }

  predicate Calls(b: Body) { b.PeersInfo? || b.OptimizeStart? || b.OptimizeEnd? || b.SyncStart? || b.SyncEnd? }

  /** The accepted peers whose vote counts. */
  function Concerned(s: State, ballot: Ballot): set<Uuid> {
    if ballot.ToSync? || ballot.ToEndSync? then Members(s, ballot.group) else Everyone(s)
  }

  /** Everybody concerned but `u` has voted. */
  ghost predicate Voted(s: State, ballot: Ballot, u: Uuid) {
    forall w :: w in Concerned(s, ballot) && w != u ==> w in Votes(s, ballot)
  }

  /** Only votes that stand in `s` are called, unless of `u`. */
  ghost predicate Backed(s: State, out: seq<Cast>, g: Group, u: Uuid) {
    forall c, ballot :: c in out && Announces(c.body, g, ballot) ==> Voted(s, ballot, u)
  }

  lemma BackedBoth(s: State, a: seq<Cast>, b: seq<Cast>, g: Group, u: Uuid)
    requires Backed(s, a, g, u) && Backed(s, b, g, u)
    ensures Backed(s, a + b, g, u)
  {
    hide Voted;
  }

  ghost predicate Silent(out: seq<Cast>) { forall c :: c in out ==> !Calls(c.body) }

  lemma SilentBacked(s: State, out: seq<Cast>, g: Group, u: Uuid)
    requires Silent(out)
    ensures Backed(s, out, g, u)
  {
  }

  /** How the checks may change clients before the last of them: votes on shared state stay or end. */
  ghost predicate Drift(s: State, s': State, u: Uuid) {
    forall w :: w in s.clients && w != u ==>
      && w in s'.clients && s'.clients[w].group == s.clients[w].group
      && (s.clients[w].phase == Accepted ==> s'.clients[w].phase == Accepted)
      && (s'.clients[w].conn == VoteSync || s'.clients[w].conn == VoteSynced ==> s'.clients[w].conn == s.clients[w].conn)
  }

  lemma DriftThrough(a: State, b: State, c: State, u: Uuid)
    requires Drift(a, b, u) && Drift(b, c, u)
    ensures Drift(a, c, u)
  {
  }

  lemma StateVotes(s: State, ballot: Ballot, w: Uuid)
    requires Inv(s) && w in s.clients && s.clients[w].conn == VoteConn(ballot)
    requires (ballot.ToSync? || ballot.ToEndSync?) ==> s.clients[w].group == ballot.group
    ensures w in Votes(s, ballot)
  {
    hide Clients, StrategiesOk, MeteredOk, Addresses;
    assert ballot in Standing(s.clients[w]);
  }

  // Phases of all peers -----------------------------------------------------------------------------

  /** A state of the handler that differs from `s` in `u` only, as far as accepted peers are concerned. */
  ghost predicate Beside(s: State, s1: State, u: Uuid) {
    forall w :: w in s.clients && w != u && s.clients[w].phase == Accepted ==> w in s1.clients && s1.clients[w] == s.clients[w]
  }

  lemma UnanimousVoted(s: State, s1: State, ballot: Ballot, u: Uuid)
    requires Inv(s) && Beside(s, s1, u) && Unanimous(s1, VoteConn(ballot)) && !ballot.ToSync? && !ballot.ToEndSync?
    ensures Voted(s, ballot, u)
  {
    hide Inv;
    forall w | w in Everyone(s) && w != u ensures w in Votes(s, ballot) { StateVotes(s, ballot, w); }
  }

  lemma EstablishBacked(s: State, s1: State, g: Group, u: Uuid)
    requires Inv(s) && Inv(s1) && Beside(s, s1, u)
    ensures CheckEstablish(s1).Next? && Backed(s, CheckEstablish(s1).out, g, u)
  {
    hide Inv, Consensus, Unanimous, InConn, Voted, Beside;
    if AcceptConsensus(s1) {
      UnanimityOf(s1, VoteAccept);
      UnanimousVoted(s, s1, ToAccept, u);
    }
    var first := if AcceptConsensus(s1) then OpenP2P(s1, true).(dropped := false) else s1;
    if EstablishConsensus(first) {
      if AcceptConsensus(s1) { OpenP2PInv(s1, true); }
      UnanimityOf(first, VoteNoNew);
      OnlyIfAlone(s1, first);
      UnanimousVoted(s, s1, ToEstablish, u);
    }
  }

  lemma UnanimityOf(s: State, c: Conn)
    requires Inv(s) && Consensus(s, c)
    ensures Unanimous(s, c)
  {
    hide Clients, Addresses, VotesOk, StrategiesOk, MeteredOk, Consensus, Unanimous;
    ConsensusIsUnanimity(s, c);
  }

  /** Both phases open at once only if nobody is accepted at all. */
  lemma OnlyIfAlone(s: State, first: State)
    requires first == s || first == OpenP2P(s, true).(dropped := false)
    requires Unanimous(first, VoteNoNew)
    ensures Unanimous(s, VoteNoNew)
  {
    forall w | w in s.clients && s.clients[w].phase == Accepted ensures s.clients[w].conn == VoteNoNew {
      assert w in first.clients && first.clients[w].phase == Accepted;
    }
  }

  lemma OptimizeBacked(s: State, u: Uuid, g: Group)
    requires Inv(s) && u in s.clients
    ensures OnRequestOptimize(s, u).Next? ==> Backed(s, OnRequestOptimize(s, u).out, g, u)
    ensures OnReportOptimized(s, u).Next? ==> Backed(s, OnReportOptimized(s, u).out, g, u)
  {
    hide Inv, Consensus, Unanimous, CastVote, AllTo, SetVotes, Voted;
    VoteBeside(s, u, ToOptimize);
    VoteBeside(s, u, ToEndOptimize);
    var a, b := CastVote(s, u, ToOptimize), CastVote(s, u, ToEndOptimize);
    if a.Next? && Unanimous(a.state, VoteOptimize) { UnanimousVoted(s, a.state, ToOptimize, u); }
    if b.Next? && Unanimous(b.state, VoteOptimized) { UnanimousVoted(s, b.state, ToEndOptimize, u); }
  }

  lemma VoteBeside(s: State, u: Uuid, ballot: Ballot)
    requires u in s.clients
    ensures
      var o := CastVote(s, u, ballot);
      o.Next? ==> o.out == [] && Beside(s, o.state, u) && Drift(s, o.state, u)
  {
    hide VoteConn;
  }

  // Rounds of a group -------------------------------------------------------------------------------

  lemma SyncBacked(s: State, s1: State, g: Group, verdict: SyncVerdict, u: Uuid)
    requires Inv(s) && Drift(s, s1, u)
    ensures CheckSync(s1, g, verdict).Next? ==> Backed(s, CheckSync(s1, g, verdict).out, g, u) && Drift(s, CheckSync(s1, g, verdict).state, u)
  {
    hide Inv, Voted, SetVotes, Votes, Drift;
    var o := CheckSync(s1, g, verdict);
    if o.Next? && Members(s1, g) <= In(s1, g, VoteSync) { MembersVoted(s, s1, ToSync(g), u); }
    if o.Next? && verdict.Assign? { AssignDrifts(s1, g, verdict.distributors, u); }
    if o.Next? {
      DriftSelf(s1, u);
      DriftThrough(s, s1, o.state, u);
    }
  }

  lemma DriftSelf(s: State, u: Uuid)
    ensures Drift(s, s, u)
  {
  }

  lemma AssignDrifts(s: State, g: Group, distributors: set<Uuid>, u: Uuid)
    ensures Drift(s, SetVotes(Assigned(s, g, distributors), ToSync(g), {}), u)
  {
  }

  lemma MembersVoted(s: State, s1: State, ballot: Ballot, u: Uuid)
    requires Inv(s) && Drift(s, s1, u) && (ballot.ToSync? || ballot.ToEndSync?)
    requires Members(s1, ballot.group) <= In(s1, ballot.group, VoteConn(ballot))
    ensures Voted(s, ballot, u)
  {
    hide Inv;
    forall w | w in Members(s, ballot.group) && w != u ensures w in Votes(s, ballot) {
      assert w in Members(s1, ballot.group);
      StateVotes(s, ballot, w);
    }
  }

  lemma SyncedBacked(s: State, s1: State, g: Group, u: Uuid)
    requires Inv(s) && Drift(s, s1, u)
    ensures CheckSynced(s1, g).Next? ==> Backed(s, CheckSynced(s1, g).out, g, u)
  {
    hide Inv, Voted, EndRound, Drift, Votes;
    if Members(s1, g) <= In(s1, g, VoteSynced) { MembersVoted(s, s1, ToEndSync(g), u); }
  }

  lemma RoundBacked(s: State, u: Uuid, legal: bool, strategy: Strategy, verdict: SyncVerdict)
    requires Inv(s) && u in s.clients
    ensures var o := OnSyncState(s, u, legal, strategy, verdict); o.Next? ==> Backed(s, o.out, s.clients[u].group, u)
    ensures var o := OnReportSynced(s, u); o.Next? ==> Backed(s, o.out, s.clients[u].group, u)
  {
    hide Inv, CastVote, CheckSync, CheckSynced, Voted;
    var g := s.clients[u].group;
    VoteBeside(s, u, ToSync(g));
    VoteBeside(s, u, ToEndSync(g));
    var a, b := CastVote(s, u, ToSync(g)), CastVote(s, u, ToEndSync(g));
    if a.Next? { SyncBacked(s, a.state.(strategies := s.strategies[u := strategy]), g, verdict, u); }
    if b.Next? { SyncedBacked(s, b.state, g, u); }
  }

  // Departures --------------------------------------------------------------------------------------

  lemma EstablishDrifts(s: State, u: Uuid)
    ensures CheckEstablish(s).Next? && Drift(s, CheckEstablish(s).state.(dropped := true), u)
  {
    hide Consensus, InConn;
  }

  lemma P2PDrifts(s: State, u: Uuid)
    ensures CheckP2P(s).Next? ==> Drift(s, CheckP2P(s).state, u) && Silent(CheckP2P(s).out)
  {
    hide P2PConsensus, CanEndP2P, Newcomers, Participants;
  }

  lemma PendingDrifts(s: State, u: Uuid)
    ensures CheckPending(s).Next? && Drift(s, CheckPending(s).state, u) && Silent(CheckPending(s).out)
  {
    hide PendingConsensus, Everyone;
  }

  lemma LeaveBeside(s: State, u: Uuid)
    requires u in s.clients
    ensures Beside(s, Leave(s, u), u) && Drift(s, Leave(s, u), u)
  {
  }

  lemma DepartedBacked(s: State, u: Uuid, verdict: SyncVerdict)
    requires Inv(s) && u in s.clients
    ensures Departed(s, u, verdict).Next? ==> Backed(s, Departed(s, u, verdict).out, s.clients[u].group, u)
  {
    hide Inv, Leave, CheckEstablish, CheckP2P, CheckPending, CheckSync, CheckSynced, Backed, Drift, Beside, Silent;
    var g, s0 := s.clients[u].group, Leave(s, u);
    LeaveInv(s, u);
    LeaveBeside(s, u);
    EstablishBacked(s, s0, g, u);
    EstablishDrifts(s0, u);
    var a := CheckEstablish(s0);
    var a' := a.state.(dropped := true);
    DriftThrough(s, s0, a', u);
    var b := CheckP2P(a');
    P2PDrifts(a', u);
    if b.Next? {
      DriftThrough(s, a', b.state, u);
      SilentBacked(s, b.out, g, u);
      BackedBoth(s, a.out, b.out, g, u);
      var c := CheckPending(b.state);
      PendingDrifts(b.state, u);
      DriftThrough(s, b.state, c.state, u);
      SilentBacked(s, c.out, g, u);
      BackedBoth(s, a.out + b.out, c.out, g, u);
      var d := CheckSync(c.state, g, verdict);
      SyncBacked(s, c.state, g, verdict, u);
      if d.Next? {
        BackedBoth(s, a.out + b.out + c.out, d.out, g, u);
        SyncedBacked(s, d.state, g, u);
        var e := CheckSynced(d.state, g);
        if e.Next? { BackedBoth(s, a.out + b.out + c.out + d.out, e.out, g, u); }
      }
    }
  }

  lemma CollSilent(s: State, g: Group, tag: Tag)
    ensures CheckInitiate(s, g, tag).Next? ==> Silent(CheckInitiate(s, g, tag).out)
    ensures CheckComplete(s, g, tag).Next? ==> Silent(CheckComplete(s, g, tag).out)
    ensures MarkAborted(s, g, tag).Next? && Silent(MarkAborted(s, g, tag).out)
  {
    hide AllInColl, Members, Runners, Commenced, Concluded;
  }

  lemma SilentBoth(a: seq<Cast>, b: seq<Cast>)
    requires Silent(a) && Silent(b)
    ensures Silent(a + b)
  {
  }

  lemma RecheckSilent(s: State, g: Group, tag: Tag)
    ensures Recheck(s, g, tag).Next? ==> Silent(Recheck(s, g, tag).out)
  {
    hide CheckInitiate, CheckComplete, MarkAborted, InProgress;
    var a := CheckInitiate(s, g, tag);
    CollSilent(s, g, tag);
    if a.Next? {
      var b := CheckComplete(a.state, g, tag);
      CollSilent(a.state, g, tag);
      if b.Next? { CollSilent(b.state, g, tag); }
    }
  }

  lemma {:induction false} RecheckAllSilent(s: State, g: Group, tags: seq<Tag>)
    ensures RecheckAll(s, g, tags).Next? ==> Silent(RecheckAll(s, g, tags).out)
    decreases |tags|
  {
    hide Recheck;
    if tags != [] {
      RecheckSilent(s, g, tags[0]);
      if Recheck(s, g, tags[0]).Next? { RecheckAllSilent(Recheck(s, g, tags[0]).state, g, tags[1..]); }
    }
  }

  lemma DisconnectBacked(s: State, u: Uuid, verdict: SyncVerdict, tags: seq<Tag>)
    requires Inv(s) && u in s.clients
    ensures OnDisconnect(s, u, verdict, tags).Next? ==> Backed(s, OnDisconnect(s, u, verdict, tags).out, s.clients[u].group, u)
  {
    hide Inv, Departed, RecheckAll, Backed, Silent;
    var g, a := s.clients[u].group, Departed(s, u, verdict);
    DepartedBacked(s, u, verdict);
    if a.Next? {
      var b := RecheckAll(a.state, g, tags);
      RecheckAllSilent(a.state, g, tags);
      if b.Next? {
        SilentBacked(s, b.out, g, u);
        BackedBoth(s, a.out, b.out, g, u);
      }
    }
  }

  // Registration ------------------------------------------------------------------------------------

  lemma JoinBeside(s: State, u: Uuid, i: Info)
    requires u !in s.clients
    ensures Beside(s, Join(s, u, i), u)
  {
  }

  /** A newcomer that is turned away only makes the master repeat the announcement to a lone peer. */
  lemma RegisterBacked(s: State, addr: Addr, local: bool, group: Group, u: Uuid, g: Group)
    requires Inv(s) && u !in s.issued
    ensures
      var o := OnRegister(s, addr, local, group, u);
      o.Next? && (o.state == s || Backed(s, o.out, g, u))
  {
    hide Inv, CheckEstablish, Mixes, Enroll, Backed, Beside, InConn;
    RegisterInv(s, addr, local, group, u);
    if addr !in s.byAddr {
      var hello := [Cast({u}, Response(!Mixes(s, local)))];
      SilentHello(hello, u, !Mixes(s, local));
      SilentBacked(s, hello, g, u);
      if Mixes(s, local) {
        if |s.byAddr| != 1 {
          BesideSelf(s, u);
          EstablishBacked(s, s, g, u);
          BackedBoth(s, hello, CheckEstablish(s).out, g, u);
        }
      } else {
        EnrolledBacked(s, addr, local, group, u, g, hello);
      }
    }
  }

  lemma BesideSelf(s: State, u: Uuid)
    ensures Beside(s, s, u)
  {
  }

  lemma SilentHello(hello: seq<Cast>, u: Uuid, accepted: bool)
    requires hello == [Cast({u}, Response(accepted))]
    ensures Silent(hello)
  {
  }

  lemma NobodyVoted(s: State, out: seq<Cast>, g: Group, u: Uuid)
    requires s.clients == map[]
    ensures Backed(s, out, g, u)
  {
  }

  lemma EnrolledBacked(s: State, addr: Addr, local: bool, group: Group, u: Uuid, g: Group, hello: seq<Cast>)
    requires Inv(s) && u !in s.issued && addr !in s.byAddr && !Mixes(s, local)
    requires hello == [Cast({u}, Response(true))] && Backed(s, hello, g, u)
    ensures OnRegister(s, addr, local, group, u).Next? && Backed(s, OnRegister(s, addr, local, group, u).out, g, u)
  {
    hide Inv, CheckEstablish, Mixes, Backed, Beside, InConn, Consensus, CastVote, OpenP2P;
    RegisterInv(s, addr, local, group, u);
    if s.clients == map[] {
      NobodyVoted(s, OnRegister(s, addr, local, group, u).out, g, u);
    } else {
      var i := Info(Registered, Idle, addr, local, group, map[], false);
      JoinInv(s, u, i);
      NotFirst(s, u, i);
      NewId(s, u);
      JoinBeside(s, u, i);
      EstablishBacked(s, Join(s, u, i), g, u);
      BackedBoth(s, hello, CheckEstablish(Join(s, u, i)).out, g, u);
    }
  }

  lemma NewId(s: State, u: Uuid)
    requires Inv(s) && u !in s.issued
    ensures u !in s.clients
  {
    hide Clients, VotesOk, StrategiesOk, MeteredOk;
    IssuedClients(s, u);
  }

  // Every step --------------------------------------------------------------------------------------

  /** Who acts in a step: the sender, the peer that disconnects, or the id of a newcomer. */
  function Actor(s: State, e: Event): Uuid {
    if e.Register? then e.id else if e.addr in s.byAddr then s.byAddr[e.addr] else 0
  }

  function GroupOf(s: State, u: Uuid): Group { if u in s.clients then s.clients[u].group else 0 }

  lemma StepBacked(s: State, e: Event)
    requires Inv(s) && Legal(s, e) && Step(s, e).Next?
    ensures (e.Register? && Step(s, e).state == s) || Backed(s, Step(s, e).out, GroupOf(s, Actor(s, e)), Actor(s, e))
  {
    hide Inv, Backed, OnRegister, OnRequestP2P, OnReportP2P, OnQueryPending, OnRequestOptimize, OnReportOptimized,
         OnSyncState, OnReportSynced, OnInitiate, OnComplete, OnDisconnect, Silent;
    var u, g := Actor(s, e), GroupOf(s, Actor(s, e));
    if e.Register? {
      RegisterBacked(s, e.addr, e.local, e.group, u, g);
    } else if e.addr !in s.byAddr || s.byAddr[e.addr] !in s.clients {
      StaySilent(s, u);
      SilentBacked(s, [], g, u);
    } else {
      match e
      case RequestP2P(_, accept) => RequestBacked(s, u, accept, g);
      case ReportP2P(_, success, fail) => QuietBacked(s, u, success, fail, 0, true, g);
      case QueryPending(_) => QuietBacked(s, u, true, FailVerdict.KickPeer, 0, true, g);
      case RequestOptimize(_) => OptimizeBacked(s, u, g);
      case ReportBandwidth(_, _) =>
        StaySilent(s, u);
        SilentBacked(s, [], g, u);
      case ReportOptimized(_) => OptimizeBacked(s, u, g);
      case SyncState(_, legal, strategy, verdict) => RoundBacked(s, u, legal, strategy, verdict);
      case ReportSynced(_) => RoundBacked(s, u, true, TxOnly, NoMask);
      case Initiate(_, tag) => QuietBacked(s, u, true, FailVerdict.KickPeer, tag, true, g);
      case Complete(_, tag, aborted) => QuietBacked(s, u, true, FailVerdict.KickPeer, tag, aborted, g);
      case Disconnect(_, verdict, tags) => DisconnectBacked(s, u, verdict, tags);
    }
  }

  lemma StaySilent(s: State, u: Uuid)
    ensures Silent([]) && Silent(KickOut(s, u).out)
  {
  }

  lemma RequestBacked(s: State, u: Uuid, accept: bool, g: Group)
    requires Inv(s) && u in s.clients
    ensures OnRequestP2P(s, u, accept).Next? ==> Backed(s, OnRequestP2P(s, u, accept).out, g, u)
  {
    hide Inv, CastVote, CheckEstablish, Backed, Beside, Silent;
    StaySilent(s, u);
    SilentBacked(s, KickOut(s, u).out, g, u);
    var i, b := s.clients[u], if accept then ToAccept else ToEstablish;
    if i.phase == Accepted && (i.conn == Idle || i.conn == ConnectFailed) {
      RequestVoted(s, u, b);
      VoteBeside(s, u, b);
      EstablishBacked(s, CastVote(s, u, b).state, g, u);
    }
  }

  lemma RequestVoted(s: State, u: Uuid, b: Ballot)
    requires Inv(s) && u in s.clients && s.clients[u].phase == Accepted && (b == ToAccept || b == ToEstablish)
    requires s.clients[u].conn == Idle || s.clients[u].conn == ConnectFailed
    ensures CastVote(s, u, b).Next? && Inv(CastVote(s, u, b).state)
  {
    hide Addresses, VotesOk, StrategiesOk, MeteredOk, PairOk, CastVote;
    assert ClientOk(s.clients[u]);
    CastVoteInv(s, u, b);
  }

  lemma QuietBacked(s: State, u: Uuid, success: bool, fail: FailVerdict, tag: Tag, aborted: bool, g: Group)
    requires u in s.clients
    ensures OnReportP2P(s, u, success, fail).Next? ==> Backed(s, OnReportP2P(s, u, success, fail).out, g, u)
    ensures OnQueryPending(s, u).Next? ==> Backed(s, OnQueryPending(s, u).out, g, u)
    ensures OnInitiate(s, u, tag).Next? ==> Backed(s, OnInitiate(s, u, tag).out, g, u)
    ensures OnComplete(s, u, tag, aborted).Next? ==> Backed(s, OnComplete(s, u, tag, aborted).out, g, u)
  {
    hide CheckP2P, CheckPending, CheckInitiate, CheckComplete, MarkAborted, Backed, Silent, SetInfo;
    StaySilent(s, u);
    var i := s.clients[u];
    var p := OnReportP2P(s, u, success, fail);
    P2PDrifts(SetConn(s, u, if success then Waiting else ConnectFailed), u);
    if p.Next? { assert Silent(p.out); SilentBacked(s, p.out, g, u); }
    PendingDrifts(SetInfo(s, u, i.(pending := true)), u);
    SilentBacked(s, OnQueryPending(s, u).out, g, u);
    var a := OnInitiate(s, u, tag);
    CollSilent(SetInfo(s, u, i.(conn := Running, coll := i.coll[tag := VoteInit])), i.group, tag);
    if a.Next? { SilentBacked(s, a.out, g, u); }
    CompleteSilent(s, u, tag, aborted);
    var d := OnComplete(s, u, tag, aborted);
    if d.Next? { SilentBacked(s, d.out, g, u); }
  }

  lemma CompleteSilent(s: State, u: Uuid, tag: Tag, aborted: bool)
    requires u in s.clients
    ensures OnComplete(s, u, tag, aborted).Next? ==> Silent(OnComplete(s, u, tag, aborted).out)
  {
    hide CheckComplete, MarkAborted, Silent, SetInfo;
    StaySilent(s, u);
    var i := s.clients[u];
    var voted := SetInfo(s, u, i.(coll := i.coll[tag := VoteDone]));
    CollSilent(voted, i.group, tag);
    var marked := if aborted then MarkAborted(voted, i.group, tag) else Stay(voted);
    CollSilent(marked.state, i.group, tag);
    var done := CheckComplete(marked.state, i.group, tag);
    if done.Next? { SilentBoth(marked.out, done.out); }
  }

  /** Over all runs: a step that announces a phase, its end, or a shared-state round or its end finds a standing vote
      of every accepted peer concerned but the one that acts, whose packet completes the vote or whose departure
      leaves it complete. The one announcement without a vote repeats the last one to a lone peer, when a newcomer
      is turned away. */
  lemma OpeningsAreUnanimous(s: State, events: seq<Event>, e: Event, c: Cast, ballot: Ballot, w: Uuid)
    requires Reached(s, events) && Legal(s, e) && Step(s, e).Next?
    requires c in Step(s, e).out && Announces(c.body, GroupOf(s, Actor(s, e)), ballot)
    requires w in Concerned(s, ballot) && w != Actor(s, e)
    ensures w in Votes(s, ballot) || (e.Register? && Step(s, e).state == s)
  {
    hide Inv, LegalRun, Run, Step, Legal, Announces, Concerned;
    ReachedInv(s, events);
    StepBacked(s, e);
    if !(e.Register? && Step(s, e).state == s) { assert Voted(s, ballot, Actor(s, e)); }
  }

  /** The packet that is a vote for `ballot`. */
  predicate VotesFor(e: Event, ballot: Ballot) {
    match ballot
    case ToAccept => e.RequestP2P? && e.accept
    case ToEstablish => e.RequestP2P? && !e.accept
    case ToOptimize => e.RequestOptimize?
    case ToEndOptimize => e.ReportOptimized?
    case ToSync(_) => e.SyncState?
    case ToEndSync(_) => e.ReportSynced?
  }

  /** Only announcements of `b` are made. */
  ghost predicate Only(out: seq<Cast>, g: Group, b: Ballot) {
    forall c, ballot :: c in out && Announces(c.body, g, ballot) ==> ballot == b
  }

  lemma EstablishOnly(s: State, g: Group, u: Uuid, b: Ballot)
    requires Inv(s) && u in s.clients && s.clients[u].phase == Accepted && s.clients[u].conn == VoteConn(b)
    requires b == ToAccept || b == ToEstablish
    ensures CheckEstablish(s).Next? && Only(CheckEstablish(s).out, g, b)
  {
    hide Inv, Consensus, InConn;
    if AcceptConsensus(s) { UnanimityOf(s, VoteAccept); }
    var first := if AcceptConsensus(s) then OpenP2P(s, true).(dropped := false) else s;
    if EstablishConsensus(first) {
      if AcceptConsensus(s) { OpenP2PInv(s, true); }
      UnanimityOf(first, VoteNoNew);
      OnlyIfAlone(s, first);
    }
  }

  lemma RequestOnly(s: State, u: Uuid, accept: bool, g: Group)
    requires Inv(s) && u in s.clients
    ensures OnRequestP2P(s, u, accept).Next? ==> Only(OnRequestP2P(s, u, accept).out, g, if accept then ToAccept else ToEstablish)
  {
    hide Inv, CastVote, CheckEstablish;
    var i, b := s.clients[u], if accept then ToAccept else ToEstablish;
    if i.phase == Accepted && (i.conn == Idle || i.conn == ConnectFailed) {
      RequestVoted(s, u, b);
      CastVoteFields(s, u, b);
      EstablishOnly(CastVote(s, u, b).state, g, u, b);
    }
  }

  lemma OptimizeOnly(s: State, u: Uuid, g: Group)
    requires u in s.clients
    ensures OnRequestOptimize(s, u).Next? ==> Only(OnRequestOptimize(s, u).out, g, ToOptimize)
    ensures OnReportOptimized(s, u).Next? ==> Only(OnReportOptimized(s, u).out, g, ToEndOptimize)
  {
    hide CastVote, Consensus, Unanimous, AllTo, SetVotes, Everyone;
    VoteBeside(s, u, ToOptimize);
    VoteBeside(s, u, ToEndOptimize);
  }

  lemma RoundOnly(s: State, u: Uuid, legal: bool, strategy: Strategy, verdict: SyncVerdict)
    requires u in s.clients
    ensures
      var o := OnSyncState(s, u, legal, strategy, verdict);
      o.Next? ==> Only(o.out, s.clients[u].group, ToSync(s.clients[u].group))
    ensures
      var o := OnReportSynced(s, u);
      o.Next? ==> Only(o.out, s.clients[u].group, ToEndSync(s.clients[u].group))
  {
    hide CastVote, Members, In, Votes, Assigned, EndRound, SetVotes;
  }

  /** Whoever acts in such a step, and is concerned, has cast its vote by this packet, or leaves. */
  lemma ActorVotes(s: State, events: seq<Event>, e: Event, c: Cast, ballot: Ballot)
    requires Reached(s, events) && Legal(s, e) && Step(s, e).Next?
    requires c in Step(s, e).out && Announces(c.body, GroupOf(s, Actor(s, e)), ballot) && Actor(s, e) in Concerned(s, ballot)
    ensures e.Disconnect? || VotesFor(e, ballot)
  {
    hide Inv, LegalRun, Run, Announces, OnRegister, OnRequestP2P, OnReportP2P, OnQueryPending, OnRequestOptimize,
         OnReportOptimized, OnSyncState, OnReportSynced, OnInitiate, OnComplete, OnDisconnect;
    ReachedInv(s, events);
    var u, g := Actor(s, e), GroupOf(s, Actor(s, e));
    assert u in s.clients;
    if e.Register? {
      NewId(s, u);
    } else {
      match e
      case RequestP2P(_, accept) => RequestOnly(s, u, accept, g);
      case ReportP2P(_, success, fail) => NeverAnnounces(s, u, success, fail, 0, true, c, g, ballot);
      case QueryPending(_) => NeverAnnounces(s, u, true, FailVerdict.KickPeer, 0, true, c, g, ballot);
      case RequestOptimize(_) => OptimizeOnly(s, u, g);
      case ReportBandwidth(_, _) =>
      case ReportOptimized(_) => OptimizeOnly(s, u, g);
      case SyncState(_, legal, strategy, verdict) => RoundOnly(s, u, legal, strategy, verdict);
      case ReportSynced(_) => RoundOnly(s, u, true, TxOnly, NoMask);
      case Initiate(_, tag) => NeverAnnounces(s, u, true, FailVerdict.KickPeer, tag, true, c, g, ballot);
      case Complete(_, tag, aborted) => NeverAnnounces(s, u, true, FailVerdict.KickPeer, tag, aborted, c, g, ballot);
      case Disconnect(_, _, _) =>
    }
  }

  lemma NeverAnnounces(s: State, u: Uuid, success: bool, fail: FailVerdict, tag: Tag, aborted: bool, c: Cast, g: Group, ballot: Ballot)
    requires u in s.clients
    ensures Announces(c.body, g, ballot) ==>
      && (OnReportP2P(s, u, success, fail).Next? ==> c !in OnReportP2P(s, u, success, fail).out)
      && (OnQueryPending(s, u).Next? ==> c !in OnQueryPending(s, u).out)
      && (OnInitiate(s, u, tag).Next? ==> c !in OnInitiate(s, u, tag).out)
      && (OnComplete(s, u, tag, aborted).Next? ==> c !in OnComplete(s, u, tag, aborted).out)
  {
    hide CheckP2P, CheckPending, CheckInitiate, CheckComplete, MarkAborted, SetInfo, OnComplete;
    var i := s.clients[u];
    P2PDrifts(SetConn(s, u, if success then Waiting else ConnectFailed), u);
    PendingDrifts(SetInfo(s, u, i.(pending := true)), u);
    CollSilent(SetInfo(s, u, i.(conn := Running, coll := i.coll[tag := VoteInit])), i.group, tag);
    CompleteSilent(s, u, tag, aborted);
  }
}
