/** What becomes of a vote when everybody concerned has cast it: whether it is always acted on. */
module MasterVotes {
  import opened MasterSpec
  import opened MasterInv
  import opened MasterTheorems
  import opened MasterOpenings
  import MasterWatch
  import MasterRuns
  import RetryRace

  /** Everybody concerned, and that is somebody, has voted, and nothing has come of it. */
  ghost predicate Lingers(s: State, b: Ballot) {
    Concerned(s, b) != {} && forall u :: u in Concerned(s, b) ==> s.clients[u].conn == VoteConn(b)
  }

  ghost predicate Same(s: State, s': State, b: Ballot) { Lingers(s, b) <==> Lingers(s', b) }

  /** The same peers are concerned, and the same ones of them have voted. */
  ghost predicate Steady(s: State, s': State, b: Ballot) {
    && Concerned(s', b) == Concerned(s, b)
    && forall u :: u in Concerned(s, b) ==> (s'.clients[u].conn == VoteConn(b) <==> s.clients[u].conn == VoteConn(b))
  }

  lemma SteadySame(s: State, s': State, b: Ballot)
    requires Steady(s, s', b)
    ensures Same(s, s', b)
  {
    hide Concerned, VoteConn;
  }

  /** A change of single clients that no vote notices. */
  predicate Kin(i: Info, j: Info, b: Ballot) {
    i.phase == j.phase && i.group == j.group && (i.conn == VoteConn(b) <==> j.conn == VoteConn(b))
  }

  lemma KinSame(s: State, s': State, b: Ballot)
    requires s'.clients.Keys == s.clients.Keys
    requires forall u :: u in s.clients ==> Kin(s.clients[u], s'.clients[u], b)
    ensures Same(s, s', b)
  {
    assert Concerned(s', b) == Concerned(s, b);
    SteadySame(s, s', b);
  }

  // The checks that follow a departure --------------------------------------------------------------

  lemma ResetSame(s: State, b: Ballot)
    ensures Same(s, ResetPendingAll(s), b)
  {
    hide VoteConn, Same;
    var s' := ResetPendingAll(s);
    forall u | u in s.clients ensures Kin(s.clients[u], s'.clients[u], b) { }
    KinSame(s, s', b);
  }

  lemma PendingSame(s: State, b: Ballot)
    ensures CheckPending(s).Next? && Same(s, CheckPending(s).state, b)
  {
    hide Same, ResetPendingAll, PendingConsensus;
    SelfSame(s, b);
    ResetSame(s, b);
  }

  lemma P2PSame(s: State, b: Ballot)
    requires Inv(s)
    ensures CheckP2P(s).Next? ==> Same(s, CheckP2P(s).state, b)
  {
    hide Inv, CloseP2P, CanEndP2P;
    var o := CheckP2P(s);
    if o.Next? && o.state != s {
      var failure := s.dropped || exists u :: u in s.clients && s.clients[u].conn == ConnectFailed;
      ClosedLingers(s, failure, b);
    }
  }

  lemma NoVoter(s: State, b: Ballot)
    requires forall u :: u in s.clients && s.clients[u].phase == Accepted ==> s.clients[u].conn != VoteConn(b)
    ensures !Lingers(s, b)
  {
    hide VoteConn;
    if Concerned(s, b) != {} { var u :| u in Concerned(s, b); }
  }

  lemma ClosedLingers(s: State, failure: bool, b: Ballot)
    requires CanEndP2P(s, failure)
    ensures !Lingers(s, b) && !Lingers(CloseP2P(s, failure), b)
  {
    hide Lingers;
    var s' := CloseP2P(s, failure);
    forall u | u in s.clients
      ensures s.clients[u].phase == Accepted ==> s.clients[u].conn != VoteConn(b)
      ensures u in s'.clients && (s'.clients[u].phase == Accepted ==> s'.clients[u].conn != VoteConn(b))
    {
      MasterWatch.ClosedClient(s, failure, u);
    }
    assert s'.clients.Keys == s.clients.Keys;
    hide CloseP2P, CanEndP2P, VoteConn;
    NoVoter(s, b);
    NoVoter(s', b);
  }

  /** The start of a round takes the vote for it, and no other. */
  lemma SyncSame(s: State, g: Group, verdict: SyncVerdict, b: Ballot)
    requires b != ToSync(g)
    ensures CheckSync(s, g, verdict).Next? ==> Same(s, CheckSync(s, g, verdict).state, b)
  {
    hide Votes, In, Members, Same;
    var o := CheckSync(s, g, verdict);
    if o.Next? {
      if o.state == s {
        SelfSame(s, b);
      } else {
        AssignedSame(s, g, verdict.distributors, b);
      }
    }
  }

  lemma SelfSame(s: State, b: Ballot)
    ensures Same(s, s, b)
  {
  }

  lemma AssignedSame(s: State, g: Group, distributors: set<Uuid>, b: Ballot)
    requires b != ToSync(g)
    ensures Same(s, SetVotes(Assigned(s, g, distributors), ToSync(g), {}), b)
  {
    var s' := SetVotes(Assigned(s, g, distributors), ToSync(g), {});
    assert Concerned(s', b) == Concerned(s, b);
    assert Steady(s, s', b);
    SteadySame(s, s', b);
  }

  lemma SyncedSame(s: State, g: Group, b: Ballot)
    requires b != ToEndSync(g)
    ensures CheckSynced(s, g).Next? ==> Same(s, CheckSynced(s, g).state, b)
  {
    hide Votes, In, Members, Same, EndRound;
    var o := CheckSynced(s, g);
    if o.Next? {
      if o.state == s { SelfSame(s, b); } else { EndedSame(s, g, b); }
    }
  }

  lemma EndedSame(s: State, g: Group, b: Ballot)
    requires b != ToEndSync(g) && Members(s, g) <= In(s, g, VoteSynced)
    ensures Same(s, EndRound(s, g), b)
  {
    hide SetVotes;
    var s' := EndRound(s, g);
    MasterWatch.EndFields(s, g);
    hide EndRound;
    assert Concerned(s', b) == Concerned(s, b);
    forall u | u in Concerned(s, b) ensures s'.clients[u].conn == VoteConn(b) <==> s.clients[u].conn == VoteConn(b) {
      if s.clients[u].group == g { assert u in Members(s, g) && u in In(s, g, VoteSynced); }
    }
    SteadySame(s, s', b);
  }

  lemma CollSame(s: State, g: Group, tag: Tag, b: Ballot)
    ensures CheckInitiate(s, g, tag).Next? ==> Same(s, CheckInitiate(s, g, tag).state, b)
    ensures CheckComplete(s, g, tag).Next? ==> Same(s, CheckComplete(s, g, tag).state, b)
    ensures MarkAborted(s, g, tag).Next? && Same(s, MarkAborted(s, g, tag).state, b)
  {
    hide AllInColl, Members, Runners, Commenced, Concluded, Same;
    SelfSame(s, b);
    CommencedSame(s, g, tag, b);
    if Members(s, g) <= Runners(s, g) { ConcludedSame(s, g, tag, b); }
    var s' := s.(aborts := s.aborts + {(g, tag)});
    KinSame(s, s', b);
  }

  lemma CommencedSame(s: State, g: Group, tag: Tag, b: Ballot)
    ensures Same(s, Commenced(s, g, tag), b)
  {
    hide Members, VoteConn, Same;
    var s' := Commenced(s, g, tag);
    forall u | u in s.clients ensures Kin(s.clients[u], s'.clients[u], b) { }
    KinSame(s, s', b);
  }

  lemma ConcludedSame(s: State, g: Group, tag: Tag, b: Ballot)
    requires Members(s, g) <= Runners(s, g)
    ensures Same(s, Concluded(s, g, tag), b)
  {
    hide Members, Same, WithoutTag, Kin;
    var s' := Concluded(s, g, tag);
    forall u | u in s.clients ensures Kin(s.clients[u], s'.clients[u], b) {
      if u in Members(s, g) { assert u in Runners(s, g); }
      WithoutKin(s.clients[u], tag, b);
    }
    KinSame(s, s', b);
  }

  lemma WithoutKin(i: Info, tag: Tag, b: Ballot)
    ensures Kin(i, i, b) && (i.conn == Running ==> Kin(i, WithoutTag(i, tag), b))
  {
  }

  lemma RecheckSame(s: State, g: Group, tag: Tag, b: Ballot)
    ensures Recheck(s, g, tag).Next? ==> Same(s, Recheck(s, g, tag).state, b)
  {
    hide CheckInitiate, CheckComplete, MarkAborted, InProgress, Lingers;
    CollSame(s, g, tag, b);
    var x := CheckInitiate(s, g, tag);
    if x.Next? {
      CollSame(x.state, g, tag, b);
      var y := CheckComplete(x.state, g, tag);
      if y.Next? { CollSame(y.state, g, tag, b); }
    }
  }

  lemma {:induction false} RecheckAllSame(s: State, g: Group, tags: seq<Tag>, b: Ballot)
    ensures RecheckAll(s, g, tags).Next? ==> Same(s, RecheckAll(s, g, tags).state, b)
    decreases |tags|
  {
    hide Recheck, Lingers;
    if tags != [] {
      RecheckSame(s, g, tags[0], b);
      var x := Recheck(s, g, tags[0]);
      if x.Next? { RecheckAllSame(x.state, g, tags[1..], b); }
    }
  }

  /** The check for openings takes every vote for one, and touches no other. */
  lemma EstablishTakes(s: State, b: Ballot)
    requires Inv(s)
    ensures CheckEstablish(s).Next?
    ensures b == ToAccept || b == ToEstablish ==> !Lingers(CheckEstablish(s).state, b)
    ensures b != ToAccept && b != ToEstablish ==> Same(s, CheckEstablish(s).state, b)
  {
    hide Clients, VotesOk, StrategiesOk, MeteredOk, Addresses, Consensus, OpenP2P, InConn, Unanimous, Lingers;
    ConsensusIsUnanimity(s, VoteAccept);
    ConsensusIsUnanimity(s, VoteNoNew);
    var first := if AcceptConsensus(s) then OpenP2P(s, true).(dropped := false) else s;
    NotLingering(s, b);
    if AcceptConsensus(s) {
      OpenLingers(s, true, b);
      OpenP2PInv(s, true);
      ConsensusIsUnanimity(first, VoteNoNew);
    }
    if EstablishConsensus(first) { OpenLingers(first, false, b); }
  }

  lemma NotLingering(s: State, b: Ballot)
    ensures b == ToAccept && !Unanimous(s, VoteAccept) ==> !Lingers(s, b)
    ensures b == ToEstablish && !Unanimous(s, VoteNoNew) ==> !Lingers(s, b)
  {
  }

  /** Nobody accepted is left with a vote, nor had another one before. */
  lemma OpenLingers(s: State, accept: bool, b: Ballot)
    requires Unanimous(s, if accept then VoteAccept else VoteNoNew)
    ensures !Lingers(OpenP2P(s, accept).(dropped := false), b)
    ensures b != ToAccept && b != ToEstablish ==> !Lingers(s, b)
  {
    hide Lingers;
    var s' := OpenP2P(s, accept).(dropped := false);
    forall u | u in s'.clients && s'.clients[u].phase == Accepted ensures s'.clients[u].conn == Connecting { }
    hide OpenP2P;
    NoVoter(s', b);
    if b != ToAccept && b != ToEstablish { NoVoter(s, b); }
  }

  // Votes on shared state ---------------------------------------------------------------------------

  /** The check for the end of a round takes the vote for it. */
  lemma SyncedTakes(s: State, g: Group)
    requires Inv(s)
    ensures CheckSynced(s, g).Next? && !Lingers(CheckSynced(s, g).state, ToEndSync(g))
  {
    hide Inv, EndRound, Votes;
    CheckSyncedInv(s, g);
    SyncVoters(s, g);
    var o := CheckSynced(s, g);
    if Lingers(s, ToEndSync(g)) {
      assert Members(s, g) == In(s, g, VoteSynced);
      AllIdle(s, g);
    }
    if Members(s, g) <= In(s, g, VoteSynced) { AllIdle(s, g); }
  }

  lemma AllIdle(s: State, g: Group)
    ensures !Lingers(EndRound(s, g), ToEndSync(g))
  {
    var s' := EndRound(s, g);
    if Concerned(s', ToEndSync(g)) != {} {
      var u :| u in Concerned(s', ToEndSync(g));
      MasterWatch.EndFields(s, g);
      assert s'.clients[u].conn == Idle;
    }
  }

  /** The election takes the vote for a round if it finds who distributes. */
  lemma SyncTakes(s: State, g: Group, verdict: SyncVerdict)
    requires Inv(s) && verdict.Assign?
    ensures CheckSync(s, g, verdict).Next? ==> !Lingers(CheckSync(s, g, verdict).state, ToSync(g))
  {
    hide Inv, Assigned, Votes;
    SyncVoters(s, g);
    if Lingers(s, ToSync(g)) { assert Members(s, g) == In(s, g, VoteSync); }
    if Members(s, g) <= In(s, g, VoteSync) { AllAssigned(s, g, verdict.distributors); }
  }

  lemma AllAssigned(s: State, g: Group, distributors: set<Uuid>)
    requires Members(s, g) <= In(s, g, VoteSync)
    ensures !Lingers(SetVotes(Assigned(s, g, distributors), ToSync(g), {}), ToSync(g))
  {
    var s' := SetVotes(Assigned(s, g, distributors), ToSync(g), {});
    if Concerned(s', ToSync(g)) != {} {
      var u :| u in Concerned(s', ToSync(g));
      assert u in Members(s, g) && u in In(s, g, VoteSync);
    }
  }

  // Every step --------------------------------------------------------------------------------------

  /** A vote of `u` is no matter for the other votes. */
  lemma VoteSame(s: State, u: Uuid, b0: Ballot, b: Ballot)
    requires u in s.clients && CastVote(s, u, b0).Next? && s.clients[u].phase == Accepted && b != b0
    requires forall x :: s.clients[u].conn != VoteConn(x)
    requires b0.ToSync? || b0.ToEndSync? ==> b0.group == s.clients[u].group
    ensures Same(s, CastVote(s, u, b0).state, b)
  {
    hide Same;
    var s' := CastVote(s, u, b0).state;
    CastVoteFields(s, u, b0);
    hide CastVote;
    assert Concerned(s', b) == Concerned(s, b);
    forall v | v in Concerned(s, b) ensures s'.clients[v].conn == VoteConn(b) <==> s.clients[v].conn == VoteConn(b) {
      if v == u { OtherBallot(s, u, b0, b); }
    }
    hide Concerned, VoteConn;
    SteadySame(s, s', b);
  }

  lemma OtherBallot(s: State, u: Uuid, b0: Ballot, b: Ballot)
    requires u in Concerned(s, b) && b != b0 && (b0.ToSync? || b0.ToEndSync? ==> b0.group == s.clients[u].group)
    ensures VoteConn(b0) != VoteConn(b)
  {
  }

  predicate OnOptimizing(b: Ballot) { b == ToOptimize || b == ToEndOptimize }

  /** No vote is completed and left standing; votes on the optimization are not taken either. */
  ghost predicate Fine(s: State, s': State, b: Ballot) {
    (Lingers(s', b) ==> Lingers(s, b)) && (OnOptimizing(b) && Lingers(s, b) ==> Lingers(s', b))
  }

  lemma FineThrough(s: State, s1: State, s2: State, b: Ballot)
    requires Fine(s, s1, b) && Fine(s1, s2, b)
    ensures Fine(s, s2, b)
  {
    hide Lingers;
  }

  lemma SameFine(s: State, s': State, b: Ballot)
    requires Same(s, s', b)
    ensures Fine(s, s', b)
  {
    hide Lingers;
  }

  lemma TakenFine(s: State, s': State, b: Ballot)
    requires !Lingers(s', b) && (OnOptimizing(b) ==> !Lingers(s, b))
    ensures Fine(s, s', b)
  {
    hide Lingers;
  }

  lemma EstablishFine(s: State, b: Ballot)
    requires Inv(s)
    ensures CheckEstablish(s).Next? && Fine(s, CheckEstablish(s).state, b)
  {
    hide Inv, CheckEstablish, Lingers, Same;
    EstablishTakes(s, b);
    if b == ToAccept || b == ToEstablish { TakenFine(s, CheckEstablish(s).state, b); }
    else { SameFine(s, CheckEstablish(s).state, b); }
  }

  lemma NotVoting(s: State, u: Uuid, b: Ballot)
    requires u in Concerned(s, b) && s.clients[u].conn != VoteConn(b)
    ensures !Lingers(s, b)
  {
    hide Concerned, VoteConn;
  }

  lemma RequestFine(s: State, u: Uuid, accept: bool, b: Ballot)
    requires Inv(s) && u in s.clients && !b.ToSync?
    ensures OnRequestP2P(s, u, accept).Next? && Fine(s, OnRequestP2P(s, u, accept).state, b)
  {
    hide Inv, CastVote, CheckEstablish, Lingers, Same, Fine;
    RequestP2PInv(s, u, accept);
    SelfSame(s, b);
    SameFine(s, s, b);
    var i, b0 := s.clients[u], if accept then ToAccept else ToEstablish;
    if i.phase == Accepted && (i.conn == Idle || i.conn == ConnectFailed) {
      RequestVoted(s, u, b0);
      var s1 := CastVote(s, u, b0).state;
      EstablishFine(s1, b);
      if b == b0 {
        EstablishTakes(s1, b);
        TakenFine(s, CheckEstablish(s1).state, b);
      } else {
        VoteSame(s, u, b0, b);
        SameFine(s, s1, b);
        FineThrough(s, s1, CheckEstablish(s1).state, b);
      }
    }
  }

  lemma SetFine(s: State, u: Uuid, i: Info, b: Ballot)
    requires u in s.clients && Kin(s.clients[u], i, b)
    ensures Fine(s, SetInfo(s, u, i), b)
  {
    hide VoteConn, Same, Fine;
    KinSame(s, SetInfo(s, u, i), b);
    SameFine(s, SetInfo(s, u, i), b);
  }

  lemma ReportFine(s: State, u: Uuid, success: bool, fail: FailVerdict, b: Ballot)
    requires Inv(s) && u in s.clients
    ensures
      var o := OnReportP2P(s, u, success, fail);
      o.Next? ==> Fine(s, o.state, b)
  {
    hide Inv, CheckP2P, Lingers, Same, Fine, SetInfo;
    SelfSame(s, b);
    SameFine(s, s, b);
    if s.clients[u].conn == Connecting && (success || fail == NewRing) {
      var c := if success then Waiting else ConnectFailed;
      var s1 := SetConn(s, u, c);
      SetFine(s, u, s.clients[u].(conn := c), b);
      RetryRace.ReportedInv(s, u, success);
      P2PSame(s1, b);
      if CheckP2P(s1).Next? {
        SameFine(s1, CheckP2P(s1).state, b);
        FineThrough(s, s1, CheckP2P(s1).state, b);
      }
    }
  }

  lemma QueryFine(s: State, u: Uuid, b: Ballot)
    requires u in s.clients
    ensures OnQueryPending(s, u).Next? && Fine(s, OnQueryPending(s, u).state, b)
  {
    hide CheckPending, Lingers, Same, Fine, SetInfo;
    SelfSame(s, b);
    SameFine(s, s, b);
    var s1 := SetInfo(s, u, s.clients[u].(pending := true));
    SetFine(s, u, s.clients[u].(pending := true), b);
    PendingSame(s1, b);
    SameFine(s1, CheckPending(s1).state, b);
    FineThrough(s, s1, CheckPending(s1).state, b);
  }

  /** The last vote on the optimization moves everybody on. */
  lemma MovedLingers(s: State, b0: Ballot, to: Conn, b: Ballot)
    requires Unanimous(s, VoteConn(b0)) && OnOptimizing(b0) && (forall x :: to != VoteConn(x))
    ensures !Lingers(SetVotes(AllTo(s, to), b0, {}), b) && (b != b0 ==> !Lingers(s, b))
  {
    hide Lingers;
    var s' := SetVotes(AllTo(s, to), b0, {});
    forall u | u in s'.clients && s'.clients[u].phase == Accepted ensures s'.clients[u].conn == to { }
    hide SetVotes, AllTo;
    NoVoter(s', b);
    if b != b0 { NoVoter(s, b); }
  }

  lemma OptimizeFine(s: State, u: Uuid, b0: Ballot, to: Conn, b: Ballot)
    requires Inv(s) && u in s.clients && s.clients[u].phase == Accepted && OptimizeMove(b0, to)
    requires if b0 == ToOptimize then s.clients[u].conn == Idle || s.clients[u].conn == OptimizeFailed else s.clients[u].conn == Optimizing
    ensures
      var voted := CastVote(s, u, b0);
      && voted.Next?
      && (Consensus(voted.state, VoteConn(b0)) ==> Fine(s, SetVotes(AllTo(voted.state, to), b0, {}), b))
      && (!Consensus(voted.state, VoteConn(b0)) ==> Fine(s, voted.state, b))
  {
    hide Inv, CastVote, Consensus, Unanimous, AllTo, SetVotes, Lingers, Same, Fine, Concerned;
    VoteThenMove(s, u, b0, to);
    var s1 := CastVote(s, u, b0).state;
    var s2 := SetVotes(AllTo(s1, to), b0, {});
    if b == b0 { assert u in Concerned(s, b) by { AcceptedConcerned(s, u, b); } NotVoting(s, u, b); }
    else { VoteSame(s, u, b0, b); SameFine(s, s1, b); }
    if Consensus(s1, VoteConn(b0)) {
      MovedLingers(s1, b0, to, b);
      if b != b0 { TakenFine(s1, s2, b); FineThrough(s, s1, s2, b); } else { TakenFine(s, s2, b); }
    } else if b == b0 {
      NoConsensus(s1, b0);
      TakenFine(s, s1, b);
    }
  }

  lemma AcceptedConcerned(s: State, u: Uuid, b: Ballot)
    requires u in s.clients && s.clients[u].phase == Accepted && OnOptimizing(b)
    ensures u in Concerned(s, b)
  {
  }

  lemma NoConsensus(s: State, b: Ballot)
    requires Inv(s) && !Consensus(s, VoteConn(b)) && OnOptimizing(b)
    ensures !Lingers(s, b)
  {
    hide Clients, VotesOk, StrategiesOk, MeteredOk, Addresses, Consensus;
    ConsensusIsUnanimity(s, VoteConn(b));
  }

  lemma OptimizeStepsFine(s: State, u: Uuid, b: Ballot)
    requires Inv(s) && u in s.clients
    ensures OnRequestOptimize(s, u).Next? ==> Fine(s, OnRequestOptimize(s, u).state, b)
    ensures OnReportOptimized(s, u).Next? ==> Fine(s, OnReportOptimized(s, u).state, b)
  {
    hide Inv, CastVote, Consensus, Unanimous, AllTo, SetVotes, Lingers, Same, Fine, Everyone;
    SelfSame(s, b);
    SameFine(s, s, b);
    var i := s.clients[u];
    if i.phase == Accepted && (i.conn == Idle || i.conn == OptimizeFailed) { OptimizeFine(s, u, ToOptimize, Optimizing, b); }
    if i.phase == Accepted && i.conn == Optimizing { OptimizeFine(s, u, ToEndOptimize, Idle, b); }
  }

  lemma StrategiesSame(s: State, strategies: map<Uuid, Strategy>, b: Ballot)
    ensures Same(s, s.(strategies := strategies), b)
  {
    hide VoteConn;
    KinSame(s, s.(strategies := strategies), b);
  }

  lemma SyncStateFine(s: State, u: Uuid, legal: bool, strategy: Strategy, verdict: SyncVerdict, b: Ballot)
    requires Inv(s) && u in s.clients && b != ToSync(s.clients[u].group)
    ensures
      var o := OnSyncState(s, u, legal, strategy, verdict);
      o.Next? ==> Fine(s, o.state, b)
  {
    hide Inv, CastVote, CheckSync, Lingers, Same, Fine;
    SelfSame(s, b);
    SameFine(s, s, b);
    var i := s.clients[u];
    if i.phase == Accepted && i.conn == Idle {
      SyncVoteInv(s, u, strategy);
      var s1 := CastVote(s, u, ToSync(i.group)).state;
      var s2 := s1.(strategies := s.strategies[u := strategy]);
      VoteSame(s, u, ToSync(i.group), b);
      SameFine(s, s1, b);
      StrategiesSame(s1, s.strategies[u := strategy], b);
      SameFine(s1, s2, b);
      FineThrough(s, s1, s2, b);
      SyncSame(s2, i.group, verdict, b);
      if CheckSync(s2, i.group, verdict).Next? {
        SameFine(s2, CheckSync(s2, i.group, verdict).state, b);
        FineThrough(s, s2, CheckSync(s2, i.group, verdict).state, b);
      }
    }
  }

  lemma EndVoted(s: State, u: Uuid)
    requires Inv(s) && u in s.clients && s.clients[u].phase == Accepted
    requires s.clients[u].conn == Distributing || s.clients[u].conn == Requesting
    ensures
      var o := CastVote(s, u, ToEndSync(s.clients[u].group));
      o.Next? && Inv(o.state)
  {
    hide VotesOk, StrategiesOk, MeteredOk, Addresses, PairOk, CastVote;
    assert ClientOk(s.clients[u]);
    CastVoteInv(s, u, ToEndSync(s.clients[u].group));
  }

  lemma ReportSyncedFine(s: State, u: Uuid, b: Ballot)
    requires Inv(s) && u in s.clients
    ensures OnReportSynced(s, u).Next? && Fine(s, OnReportSynced(s, u).state, b)
  {
    hide Inv, CastVote, CheckSynced, Lingers, Same, Fine;
    SelfSame(s, b);
    SameFine(s, s, b);
    var i := s.clients[u];
    if i.phase == Accepted && (i.conn == Distributing || i.conn == Requesting) {
      EndVoted(s, u);
      var b0 := ToEndSync(i.group);
      var s1 := CastVote(s, u, b0).state;
      SyncedTakes(s1, i.group);
      var s2 := CheckSynced(s1, i.group).state;
      if b == b0 {
        TakenFine(s, s2, b);
      } else {
        VoteSame(s, u, b0, b);
        SameFine(s, s1, b);
        SyncedSame(s1, i.group, b);
        SameFine(s1, s2, b);
        FineThrough(s, s1, s2, b);
      }
    }
  }

  lemma InitiateFine(s: State, u: Uuid, tag: Tag, b: Ballot)
    requires u in s.clients
    ensures OnInitiate(s, u, tag).Next? ==> Fine(s, OnInitiate(s, u, tag).state, b)
  {
    hide CheckInitiate, Lingers, Same, Fine, SetInfo;
    SelfSame(s, b);
    SameFine(s, s, b);
    var i := s.clients[u];
    if i.phase == Accepted && (i.conn == Idle || i.conn == Running) {
      var j := i.(conn := Running, coll := i.coll[tag := VoteInit]);
      SetFine(s, u, j, b);
      var s1 := SetInfo(s, u, j);
      CollSame(s1, i.group, tag, b);
      if CheckInitiate(s1, i.group, tag).Next? {
        SameFine(s1, CheckInitiate(s1, i.group, tag).state, b);
        FineThrough(s, s1, CheckInitiate(s1, i.group, tag).state, b);
      }
    }
  }

  lemma CompleteFine(s: State, u: Uuid, tag: Tag, aborted: bool, b: Ballot)
    requires u in s.clients
    ensures OnComplete(s, u, tag, aborted).Next? ==> Fine(s, OnComplete(s, u, tag, aborted).state, b)
  {
    hide CheckComplete, MarkAborted, Lingers, Same, Fine, SetInfo, InColl;
    SelfSame(s, b);
    SameFine(s, s, b);
    var i := s.clients[u];
    var j := i.(coll := i.coll[tag := VoteDone]);
    SetFine(s, u, j, b);
    var s1 := SetInfo(s, u, j);
    CollSame(s1, i.group, tag, b);
    SelfSame(s1, b);
    var s2 := if aborted then MarkAborted(s1, i.group, tag).state else s1;
    SameFine(s1, s2, b);
    FineThrough(s, s1, s2, b);
    CollSame(s2, i.group, tag, b);
    if CheckComplete(s2, i.group, tag).Next? {
      SameFine(s2, CheckComplete(s2, i.group, tag).state, b);
      FineThrough(s, s2, CheckComplete(s2, i.group, tag).state, b);
    }
  }

  lemma JoinFine(s: State, u: Uuid, i: Info, b: Ballot)
    requires u !in s.clients && i.phase == Registered
    ensures Fine(s, Join(s, u, i), b)
  {
    hide Fine;
    var s' := Join(s, u, i);
    assert Concerned(s', b) == Concerned(s, b);
    SteadySame(s, s', b);
    SameFine(s, s', b);
  }

  lemma EnrollFine(s: State, addr: Addr, local: bool, group: Group, u: Uuid, b: Ballot)
    requires Inv(s) && u !in s.issued && addr !in s.byAddr && !Mixes(s, local)
    ensures Enroll(s, addr, local, group, u).Next? && Fine(s, Enroll(s, addr, local, group, u).state, b)
  {
    hide Inv, CastVote, OpenP2P, Consensus, Mixes, Fine, FirstState;
    var i := Info(Registered, Idle, addr, local, group, map[], false);
    NewId(s, u);
    if s.clients == map[] {
      EmptyState(s);
      EnrollFirst(s, addr, local, group, u);
      FirstFine(s, u, i, b);
    } else {
      NotFirst(s, u, i);
      JoinFine(s, u, i, b);
    }
  }

  lemma FirstFine(s: State, u: Uuid, i: Info, b: Ballot)
    requires s.clients == map[]
    ensures Fine(s, FirstState(s, u, i), b)
  {
    var s' := FirstState(s, u, i);
    assert Concerned(s, b) == {};
    if Concerned(s', b) != {} {
      var v :| v in Concerned(s', b);
      assert s'.clients[v].conn == Connecting;
    }
  }

  lemma RegisterFine(s: State, addr: Addr, local: bool, group: Group, u: Uuid, b: Ballot)
    requires Inv(s) && u !in s.issued
    ensures OnRegister(s, addr, local, group, u).Next? && Fine(s, OnRegister(s, addr, local, group, u).state, b)
  {
    hide Inv, Enroll, CheckEstablish, Mixes, Fine, Same;
    SelfSame(s, b);
    SameFine(s, s, b);
    if addr !in s.byAddr {
      if !Mixes(s, local) { EnrollInv(s, addr, local, group, u); EnrollFine(s, addr, local, group, u, b); }
      var joined := if Mixes(s, local) then s else Enroll(s, addr, local, group, u).state;
      EstablishFine(joined, b);
      FineThrough(s, joined, CheckEstablish(joined).state, b);
    }
  }

  /** The vote of everybody concerned but `u` is complete. */
  ghost predicate CompleteWithout(s: State, u: Uuid, b: Ballot) {
    && (exists v :: v in Concerned(s, b) && v != u)
    && forall v :: v in Concerned(s, b) && v != u ==> s.clients[v].conn == VoteConn(b)
  }

  lemma LeaveLingers(s: State, u: Uuid, b: Ballot)
    requires u in s.clients
    ensures Lingers(Leave(s, u), b) <==> CompleteWithout(s, u, b)
  {
    hide SetVotes, Votes, VoteConn;
    RetryRace.LeaveClients(s, u);
    var s' := Leave(s, u);
    hide Leave;
    assert Concerned(s', b) == Concerned(s, b) - {u};
    forall v | v in Concerned(s', b) ensures v in Concerned(s, b) && v != u && s'.clients[v] == s.clients[v] { }
    hide Concerned;
    if CompleteWithout(s, u, b) {
      var v :| v in Concerned(s, b) && v != u;
      assert v in Concerned(s', b);
    }
    if Lingers(s', b) {
      var v :| v in Concerned(s', b);
      assert v in Concerned(s, b) && v != u;
    }
  }

  lemma DroppedSame(s: State, b: Ballot)
    ensures Same(s, s.(dropped := true), b)
  {
    hide VoteConn;
    KinSame(s, s.(dropped := true), b);
  }

  /** Votes that the check after a departure of a peer of group `g` is for. */
  predicate CheckedAgain(b: Ballot, g: Group) { b == ToAccept || b == ToEstablish || b == ToEndSync(g) }

  lemma DepartedFine(s: State, u: Uuid, verdict: SyncVerdict, b: Ballot)
    requires Inv(s) && u in s.clients && !b.ToSync? && Departed(s, u, verdict).Next?
    ensures Inv(Departed(s, u, verdict).state) && Fine(Leave(s, u), Departed(s, u, verdict).state, b)
    ensures CheckedAgain(b, s.clients[u].group) ==> !Lingers(Departed(s, u, verdict).state, b)
  {
    hide Inv, Leave, CheckEstablish, CheckP2P, CheckPending, CheckSync, CheckSynced, Lingers, Same;
    var g, s0 := s.clients[u].group, Leave(s, u);
    LeaveInv(s, u);
    DepartedInv(s, u, verdict);
    EstablishTakes(s0, b);
    EstablishFine(s0, b);
    CheckEstablishInv(s0);
    var s1 := CheckEstablish(s0).state;
    var s2 := s1.(dropped := true);
    DroppedInv(s1, true);
    DroppedSame(s1, b);
    SameFine(s1, s2, b);
    P2PSame(s2, b);
    CheckP2PInv(s2);
    var s3 := CheckP2P(s2).state;
    SameFine(s2, s3, b);
    PendingSame(s3, b);
    CheckPendingInv(s3);
    var s4 := CheckPending(s3).state;
    SameFine(s3, s4, b);
    RoundsFine(s1, s4, g, verdict, b);
  }

  lemma RoundsFine(s0: State, s: State, g: Group, verdict: SyncVerdict, b: Ballot)
    requires Fine(s0, s, b) && Inv(s) && !b.ToSync? && CheckSync(s, g, verdict).Next?
    ensures
      var o := CheckSynced(CheckSync(s, g, verdict).state, g);
      o.Next? && Fine(s0, o.state, b) && (b == ToEndSync(g) ==> !Lingers(o.state, b))
  {
    hide Inv, CheckSync, CheckSynced, Lingers, Same, Fine;
    var s1 := CheckSync(s, g, verdict).state;
    CheckSyncInv(s, g, verdict);
    SyncSame(s, g, verdict, b);
    SameFine(s, s1, b);
    FineThrough(s0, s, s1, b);
    SyncedTakes(s1, g);
    var s2 := CheckSynced(s1, g).state;
    if b == ToEndSync(g) {
      TakenFine(s0, s2, b);
    } else {
      SyncedSame(s1, g, b);
      SameFine(s1, s2, b);
      FineThrough(s0, s1, s2, b);
    }
  }

  lemma DisconnectFine(s: State, u: Uuid, verdict: SyncVerdict, tags: seq<Tag>, b: Ballot)
    requires Inv(s) && u in s.clients && !b.ToSync? && OnDisconnect(s, u, verdict, tags).Next?
    ensures Fine(Leave(s, u), OnDisconnect(s, u, verdict, tags).state, b)
    ensures CheckedAgain(b, s.clients[u].group) ==> !Lingers(OnDisconnect(s, u, verdict, tags).state, b)
  {
    hide Inv, Leave, Departed, RecheckAll, Lingers, Same;
    DepartedFine(s, u, verdict, b);
    var s1, g := Departed(s, u, verdict).state, s.clients[u].group;
    RecheckAllSame(s1, g, tags, b);
    SameFine(s1, RecheckAll(s1, g, tags).state, b);
    FineThrough(Leave(s, u), s1, RecheckAll(s1, g, tags).state, b);
  }

  // Theorems ----------------------------------------------------------------------------------------

  /** The peer that leaves in a step, if any. */
  predicate Departs(s: State, e: Event) { e.Disconnect? && e.addr in s.byAddr && s.byAddr[e.addr] in s.clients }

  lemma StepFine(s: State, e: Event, b: Ballot)
    requires Inv(s) && Legal(s, e) && Step(s, e).Next? && !b.ToSync?
    ensures Fine(if Departs(s, e) then Leave(s, s.byAddr[e.addr]) else s, Step(s, e).state, b)
  {
    hide Inv, Lingers, Same, Fine, Leave, OnRegister, OnRequestP2P, OnReportP2P, OnQueryPending, OnRequestOptimize,
         OnReportOptimized, OnSyncState, OnReportSynced, OnInitiate, OnComplete, OnDisconnect;
    SelfSame(s, b);
    SameFine(s, s, b);
    if e.Register? {
      RegisterFine(s, e.addr, e.local, e.group, e.id, b);
    } else if e.addr in s.byAddr && s.byAddr[e.addr] in s.clients {
      var u := s.byAddr[e.addr];
      match e
      case RequestP2P(_, accept) => RequestFine(s, u, accept, b);
      case ReportP2P(_, success, fail) => ReportFine(s, u, success, fail, b);
      case QueryPending(_) => QueryFine(s, u, b);
      case RequestOptimize(_) => OptimizeStepsFine(s, u, b);
      case ReportBandwidth(_, _) =>
      case ReportOptimized(_) => OptimizeStepsFine(s, u, b);
      case SyncState(_, legal, strategy, verdict) => SyncStateFine(s, u, legal, strategy, verdict, b);
      case ReportSynced(_) => ReportSyncedFine(s, u, b);
      case Initiate(_, tag) => InitiateFine(s, u, tag, b);
      case Complete(_, tag, aborted) => CompleteFine(s, u, tag, aborted, b);
      case Disconnect(_, verdict, tags) => DisconnectFine(s, u, verdict, tags, b);
    }
  }

  /** Over every run, a vote on the optimization is complete and not acted on after a step if and only if it was complete
      without the peer that leaves in this step; nothing else makes such a vote linger, and nothing ever takes it. */
  lemma OptimizationVoteLingersIff(s: State, events: seq<Event>, e: Event, b: Ballot)
    requires Reached(s, events) && Legal(s, e) && Step(s, e).Next? && OnOptimizing(b)
    ensures Lingers(Step(s, e).state, b) <==>
      if Departs(s, e) then CompleteWithout(s, s.byAddr[e.addr], b) else Lingers(s, b)
  {
    hide Inv, Step, Legal, Lingers, Leave, CompleteWithout, Run, LegalRun;
    ReachedInv(s, events);
    StepFine(s, e, b);
    if Departs(s, e) { LeaveLingers(s, s.byAddr[e.addr], b); }
  }

  /** Over every run: a vote to connect, for newcomers or without them, and a vote to end a shared-state round, is acted on
      in the step that completes it, be it the last vote or the departure of the last one that had not voted. */
  lemma {:induction false} OtherVotesAreTaken(events: seq<Event>, b: Ballot)
    requires LegalRun(events) && Run(events).Next? && (b == ToAccept || b == ToEstablish || b.ToEndSync?)
    ensures !Lingers(Run(events).state, b)
    decreases |events|
  {
    hide Inv, Step, Legal, Lingers, Possible;
    if events == [] {
      assert !Lingers(Start(), b) by { NobodyVotes(b); }
    } else {
      var front := events[..|events| - 1];
      OtherVotesAreTaken(front, b);
      RunInv(front);
      StepTakes(Run(front).state, events[|events| - 1], b);
    }
  }

  lemma NobodyVotes(b: Ballot)
    ensures !Lingers(Start(), b)
  {
    assert Concerned(Start(), b) == {};
  }

  lemma StepTakes(s: State, e: Event, b: Ballot)
    requires Inv(s) && Legal(s, e) && Step(s, e).Next? && (b == ToAccept || b == ToEstablish || b.ToEndSync?) && !Lingers(s, b)
    ensures !Lingers(Step(s, e).state, b)
  {
    hide Inv, Legal, Lingers, Leave, OnRegister, OnRequestP2P, OnReportP2P, OnQueryPending, OnRequestOptimize,
         OnReportOptimized, OnSyncState, OnReportSynced, OnInitiate, OnComplete, OnDisconnect;
    StepFine(s, e, b);
    if Departs(s, e) {
      var u := s.byAddr[e.addr];
      if CheckedAgain(b, s.clients[u].group) {
        DisconnectFine(s, u, e.verdict, e.tags, b);
      } else {
        NotConcerned(s, u, b);
      }
    }
  }

  lemma NotConcerned(s: State, u: Uuid, b: Ballot)
    requires u in s.clients && b.ToEndSync? && b.group != s.clients[u].group && !Lingers(s, b)
    ensures !Lingers(Leave(s, u), b)
  {
    hide Leave;
    LeaveLingers(s, u, b);
  }

  lemma SyncStateTakes(s: State, u: Uuid, legal: bool, strategy: Strategy, verdict: SyncVerdict)
    requires Inv(s) && u in s.clients && verdict.Assign?
    ensures
      var o := OnSyncState(s, u, legal, strategy, verdict);
      o.Next? ==> o.state == s || !Lingers(o.state, ToSync(s.clients[u].group))
  {
    hide Inv, CastVote, CheckSync, Lingers;
    var i := s.clients[u];
    if i.phase == Accepted && i.conn == Idle {
      SyncVoteInv(s, u, strategy);
      SyncTakes(CastVote(s, u, ToSync(i.group)).state.(strategies := s.strategies[u := strategy]), i.group, verdict);
    }
  }

  lemma DisconnectTakes(s: State, u: Uuid, verdict: SyncVerdict, tags: seq<Tag>)
    requires Inv(s) && u in s.clients && verdict.Assign? && OnDisconnect(s, u, verdict, tags).Next?
    ensures !Lingers(OnDisconnect(s, u, verdict, tags).state, ToSync(s.clients[u].group))
  {
    hide Inv, Leave, CheckEstablish, CheckP2P, CheckPending, CheckSync, CheckSynced, RecheckAll, Lingers;
    var g, b := s.clients[u].group, ToSync(s.clients[u].group);
    LeaveInv(s, u);
    CheckEstablishInv(Leave(s, u));
    var s1 := CheckEstablish(Leave(s, u)).state;
    DroppedInv(s1, true);
    CheckP2PInv(s1.(dropped := true));
    var s3 := CheckP2P(s1.(dropped := true)).state;
    CheckPendingInv(s3);
    var s4 := CheckPending(s3).state;
    SyncTakes(s4, g, verdict);
    SyncedSame(CheckSync(s4, g, verdict).state, g, b);
    RecheckAllSame(Departed(s, u, verdict).state, g, tags, b);
  }

  /** Over every run: so is a vote for a shared-state round, provided that the election finds who distributes. */
  lemma RoundVotesAreTaken(s: State, events: seq<Event>, e: Event, g: Group)
    requires Reached(s, events) && Legal(s, e) && Step(s, e).Next? && !e.Register? && e.addr in s.byAddr
    requires (e.SyncState? || e.Disconnect?) && e.verdict.Assign?
    ensures
      && s.byAddr[e.addr] in s.clients
      && (s.clients[s.byAddr[e.addr]].group == g && Step(s, e).state != s ==> !Lingers(Step(s, e).state, ToSync(g)))
  {
    hide Inv, Legal, Lingers, Run, LegalRun, OnSyncState, OnDisconnect;
    ReachedInv(s, events);
    MasterWatch.AddressOf(s, e.addr);
    var u := s.byAddr[e.addr];
    match e
    case SyncState(_, legal, strategy, verdict) => SyncStateTakes(s, u, legal, strategy, verdict);
    case Disconnect(_, verdict, tags) => DisconnectTakes(s, u, verdict, tags);
  }

  // A vote that lingers -----------------------------------------------------------------------------

  /** Two peers; the first asks for an optimization, and the second leaves before it does. */
  function LingeringStory(): seq<Event> { RetryRace.PairStory() + [RequestOptimize(1), Disconnect(2, NoMask, [])] }

  lemma NoMaskGoesOn(s: State, u: Uuid)
    requires Inv(s) && u in s.clients && forall w :: w in s.clients && w != u ==> !HoldsP2PVote(s.clients[w])
    ensures Departed(s, u, NoMask).Next?
  {
    hide Inv, Leave, CheckEstablish, CheckP2P, CheckPending, CheckSynced, Votes, Members, In, Consensus, P2PConsensus;
    LeaveInv(s, u);
    RetryRace.LeaveClients(s, u);
    DepartedInv(s, u, NoMask);
    RetryRace.DepartedHaltsIff(s, u, NoMask);
    CheckEstablishInv(Leave(s, u));
    var a := CheckEstablish(Leave(s, u)).state.(dropped := true);
    DroppedInv(CheckEstablish(Leave(s, u)).state, true);
    CheckP2PInv(a);
    RetryRace.LaterBugs(a, s.clients[u].group, NoMask);
  }

  lemma NothingOngoing(s: State, g: Group)
    requires Inv(s) && Lingers(s, ToOptimize)
    ensures OngoingTags(s, g) == {}
  {
    hide Inv;
    forall u | u in s.clients ensures s.clients[u].coll == map[] {
      EachClientOk(s, u);
      if s.clients[u].phase == Accepted { assert u in Concerned(s, ToOptimize); }
    }
  }

  lemma LastButOneLeaves(s: State, u: Uuid)
    requires Inv(s) && u in s.clients && s.clients[u].addr == u && CompleteWithout(s, u, ToOptimize)
    requires forall w :: w in s.clients && w != u ==> !HoldsP2PVote(s.clients[w])
    ensures
      var e := Disconnect(u, NoMask, []);
      Legal(s, e) && Step(s, e).Next? && Lingers(Step(s, e).state, ToOptimize)
  {
    hide Inv, Departed, Leave, Lingers, CompleteWithout;
    NoMaskGoesOn(s, u);
    LeaveLingers(s, u, ToOptimize);
    DepartedFine(s, u, NoMask, ToOptimize);
    NothingOngoing(Departed(s, u, NoMask).state, s.clients[u].group);
    AddressIs(s, u);
    var out := Departed(s, u, NoMask).out;
    assert out + [] == out;
  }

  lemma AddressIs(s: State, u: Uuid)
    requires Inv(s) && u in s.clients
    ensures s.clients[u].addr in s.byAddr && s.byAddr[s.clients[u].addr] == u
  {
    hide Clients, VotesOk, StrategiesOk, MeteredOk;
  }

  lemma OneHasVoted(s: State)
    requires MasterRuns.Shape(s, map[1 := Accepted, 2 := Accepted], map[1 := VoteOptimize, 2 := Idle])
    ensures Inv(s) && 2 in s.clients && s.clients[2].addr == 2 && CompleteWithout(s, 2, ToOptimize)
    ensures forall w :: w in s.clients && w != 2 ==> !HoldsP2PVote(s.clients[w])
  {
    hide Inv;
    assert 1 in Concerned(s, ToOptimize);
  }

  /** The run: the only peer that is left has voted for the optimization, and the departure that completes the vote is not
      followed by a check of it. */
  lemma OptimizationVoteLingers()
    ensures LegalRun(LingeringStory()) && Run(LingeringStory()).Next? && Lingers(Run(LingeringStory()).state, ToOptimize)
  {
    hide MasterRuns.Goes, MasterRuns.Shape, Inv, Step, Legal, Lingers, LegalRun, Run, CompleteWithout;
    var p, c := map[1 := Accepted, 2 := Accepted], map[1 := Idle, 2 := Idle];
    var a := RetryRace.TwoAccepted();
    MasterRuns.SamePrefix(RetryRace.PairStory(), LingeringStory(), 6, a);
    var s := MasterRuns.Optimizes1(a, p, c, 1, 2, ToOptimize, Optimizing);
    MasterRuns.Extends(LingeringStory(), 6, a, s);
    assert c[1 := VoteOptimize] == map[1 := VoteOptimize, 2 := Idle];
    OneHasVoted(s);
    LastButOneLeaves(s, 2);
    var s' := Step(s, Disconnect(2, NoMask, [])).state;
    assert MasterRuns.Goes(s, Disconnect(2, NoMask, []), s') by { ItGoes(s, Disconnect(2, NoMask, [])); }
    MasterRuns.Extends(LingeringStory(), 7, s, s');
    assert LingeringStory()[..8] == LingeringStory();
  }

  lemma ItGoes(s: State, e: Event)
    requires Legal(s, e) && Step(s, e).Next?
    ensures MasterRuns.Goes(s, e, Step(s, e).state)
  {
    hide Legal, Step;
  }
}
