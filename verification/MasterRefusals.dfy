/** What the master does not put up with: which packets get their sender kicked, when the election for a shared-state round is
    held and what comes of its outcome, and when a bandwidth report ends the process. */
module MasterRefusals {
  import opened MasterSpec
  import opened MasterInv
  import opened MasterTheorems
  import opened MasterOpenings
  import opened MasterVotes
  import MasterWatch
  import RetryRace

  /** The packets a client may send as it stands. */
  predicate Expected(i: Info, e: Event) {
    match e
    case RequestP2P(_, _) => i.phase == Accepted && i.conn in {Idle, ConnectFailed}
    case ReportP2P(_, success, fail) => i.conn == Connecting && (success || fail != KickPeer)
    case QueryPending(_) => i.phase == Accepted && !i.pending
    case RequestOptimize(_) => i.phase == Accepted && i.conn in {Idle, OptimizeFailed}
    case ReportOptimized(_) => i.phase == Accepted && i.conn == Optimizing
    case SyncState(_, legal, _, _) => legal && i.phase == Accepted && i.conn == Idle
    case ReportSynced(_) => i.phase == Accepted && i.conn in {Distributing, Requesting}
    case Initiate(_, tag) => i.phase == Accepted && i.conn in {Idle, Running} && tag !in i.coll
    case Complete(_, tag, _) => i.phase == Accepted && tag in i.coll && i.coll[tag] == Performing
    case _ => true
  }

  /** Nobody is kicked. */
  ghost predicate Lenient(o: Outcome) { o.Next? ==> forall c :: c in o.out ==> !c.body.Kick? }

  lemma ChecksLenient(s: State, g: Group, tag: Tag)
    ensures Lenient(CheckEstablish(s)) && Lenient(CheckP2P(s)) && Lenient(CheckPending(s)) && Lenient(CheckSynced(s, g))
    ensures Lenient(CheckInitiate(s, g, tag)) && Lenient(CheckComplete(s, g, tag)) && Lenient(MarkAborted(s, g, tag))
  {
    hide Consensus, OpenP2P, InConn, P2PConsensus, CanEndP2P, CloseP2P, Participants, Newcomers, ResetPendingAll, PendingConsensus,
         Everyone, Members, In, Votes, EndRound, AllInColl, Runners, Commenced, Concluded;
  }

  lemma LenientBoth(a: Outcome, b: Outcome)
    requires a.Next? && Lenient(a) && Lenient(b)
    ensures Lenient(Before(b, a.out))
  {
    if b.Next? { forall c | c in a.out + b.out ensures !c.body.Kick? { assert c in a.out || c in b.out; } }
  }

  lemma VoteLenient(s: State, u: Uuid, b: Ballot)
    requires u in s.clients
    ensures Lenient(CastVote(s, u, b))
  {
  }

  lemma PhasePacketsLenient(s: State, u: Uuid, e: Event)
    requires u in s.clients && Expected(s.clients[u], e)
    ensures e.RequestP2P? ==> Lenient(OnRequestP2P(s, u, e.accept))
    ensures e.ReportP2P? ==> Lenient(OnReportP2P(s, u, e.success, e.fail))
    ensures e.QueryPending? ==> Lenient(OnQueryPending(s, u))
    ensures e.RequestOptimize? ==> Lenient(OnRequestOptimize(s, u))
    ensures e.ReportOptimized? ==> Lenient(OnReportOptimized(s, u))
  {
    hide CastVote, CheckEstablish, CheckP2P, CheckPending, Consensus, Unanimous, AllTo, SetVotes, Everyone, SetInfo;
    match e
    case RequestP2P(_, accept) =>
      var b := if accept then ToAccept else ToEstablish;
      if CastVote(s, u, b).Next? { ChecksLenient(CastVote(s, u, b).state, 0, 0); }
    case ReportP2P(_, success, _) => ChecksLenient(SetConn(s, u, if success then Waiting else ConnectFailed), 0, 0);
    case QueryPending(_) => ChecksLenient(SetInfo(s, u, s.clients[u].(pending := true)), 0, 0);
    case RequestOptimize(_) => VoteLenient(s, u, ToOptimize);
    case ReportOptimized(_) => VoteLenient(s, u, ToEndOptimize);
    case _ =>
  }

  lemma OperationPacketsLenient(s: State, u: Uuid, e: Event)
    requires u in s.clients && Expected(s.clients[u], e)
    ensures e.ReportSynced? ==> Lenient(OnReportSynced(s, u))
    ensures e.Initiate? ==> Lenient(OnInitiate(s, u, e.tag))
    ensures e.Complete? ==> Lenient(OnComplete(s, u, e.tag, e.aborted))
  {
    hide CastVote, CheckSynced, CheckInitiate, CheckComplete, MarkAborted, SetInfo, Lenient;
    var i := s.clients[u];
    match e
    case ReportSynced(_) =>
      var voted := CastVote(s, u, ToEndSync(i.group));
      VoteLenient(s, u, ToEndSync(i.group));
      if voted.Next? { ChecksLenient(voted.state, i.group, 0); }
    case Initiate(_, tag) => ChecksLenient(SetInfo(s, u, i.(conn := Running, coll := i.coll[tag := VoteInit])), i.group, tag);
    case Complete(_, tag, aborted) => CompleteLenient(s, u, tag, aborted);
    case _ =>
  }

  lemma CompleteLenient(s: State, u: Uuid, tag: Tag, aborted: bool)
    requires u in s.clients && s.clients[u].phase == Accepted && InColl(s.clients[u], tag, Performing)
    ensures Lenient(OnComplete(s, u, tag, aborted))
  {
    hide CheckComplete, MarkAborted, SetInfo, Lenient;
    var i := s.clients[u];
    var voted := SetInfo(s, u, i.(coll := i.coll[tag := VoteDone]));
    ChecksLenient(voted, i.group, tag);
    MasterWatch.MarkGoesOn(voted, i.group, tag);
    assert Lenient(Stay(voted)) by { StayLenient(voted); }
    var marked := if aborted then MarkAborted(voted, i.group, tag) else Stay(voted);
    ChecksLenient(marked.state, i.group, tag);
    LenientBoth(marked, CheckComplete(marked.state, i.group, tag));
  }

  lemma StayLenient(s: State)
    ensures Lenient(Stay(s))
  {
  }

  /** A vote for a round is recorded, whatever comes of it. */
  lemma SyncVoteStays(s: State, u: Uuid, legal: bool, strategy: Strategy, verdict: SyncVerdict)
    requires Inv(s) && u in s.clients && legal && s.clients[u].phase == Accepted && s.clients[u].conn == Idle
    ensures
      var o := OnSyncState(s, u, legal, strategy, verdict);
      o.Next? ==> o.state != s
  {
    hide Inv, CastVote, CheckSync;
    SyncVoteInv(s, u, strategy);
    CastVoteFields(s, u, ToSync(s.clients[u].group));
    var s1 := CastVote(s, u, ToSync(s.clients[u].group)).state.(strategies := s.strategies[u := strategy]);
    assert s1.clients[u].conn == VoteSync;
    SyncVoterMoves(s1, s1.clients[u].group, verdict, u);
  }

  lemma SyncVoterMoves(s: State, g: Group, verdict: SyncVerdict, u: Uuid)
    requires u in s.clients && s.clients[u].conn == VoteSync
    ensures
      var o := CheckSync(s, g, verdict);
      o.Next? ==> u in o.state.clients && o.state.clients[u].conn != Idle
  {
    hide Votes, Members, In;
  }

  /** Over every run: a packet of a client gets its sender kicked, and has no other effect, if and only if the client may not
      send it as it stands. */
  lemma KickedIff(s: State, events: seq<Event>, e: Event)
    requires Reached(s, events) && Legal(s, e) && Step(s, e).Next? && !e.Register? && !e.Disconnect? && e.addr in s.byAddr
    ensures
      var u := s.byAddr[e.addr];
      u in s.clients && (Step(s, e) == Next(s, [Cast({u}, Kick)]) <==> !Expected(s.clients[u], e))
  {
    hide Inv, Run, LegalRun, Legal, Expected;
    ReachedInv(s, events);
    MasterWatch.AddressOf(s, e.addr);
    var u := s.byAddr[e.addr];
    hide OnRequestP2P, OnReportP2P, OnQueryPending, OnRequestOptimize, OnReportOptimized, OnSyncState, OnReportSynced, OnInitiate,
         OnComplete, OnDisconnect;
    if Expected(s.clients[u], e) {
      NotKicked(s, u, e);
    } else {
      Kicked(s, u, e);
    }
  }

  lemma Kicked(s: State, u: Uuid, e: Event)
    requires u in s.clients && e.addr in s.byAddr && s.byAddr[e.addr] == u && !e.Register? && !Expected(s.clients[u], e)
    ensures Step(s, e) == KickOut(s, u)
  {
    hide CastVote, CheckEstablish, CheckP2P, CheckPending, CheckSync, CheckSynced, CheckInitiate, CheckComplete, MarkAborted;
  }

  lemma NotKicked(s: State, u: Uuid, e: Event)
    requires Inv(s) && u in s.clients && e.addr in s.byAddr && s.byAddr[e.addr] == u && !e.Register? && !e.Disconnect? && Expected(s.clients[u], e)
    ensures Step(s, e) != KickOut(s, u)
  {
    hide Inv, OnRequestP2P, OnReportP2P, OnQueryPending, OnRequestOptimize, OnReportOptimized, OnSyncState, OnReportSynced, OnInitiate,
         OnComplete, OnDisconnect;
    var kick := Cast({u}, Kick);
    assert kick in [kick] && kick.body.Kick?;
    match e
    case SyncState(_, legal, strategy, verdict) => SyncVoteStays(s, u, legal, strategy, verdict);
    case ReportBandwidth(_, _) =>
    case _ =>
      PhasePacketsLenient(s, u, e);
      OperationPacketsLenient(s, u, e);
  }

  // The election ------------------------------------------------------------------------------------

  /** The check holds the election exactly if the vote for a round is complete. */
  lemma CheckSyncHolds(s: State, g: Group, verdict: SyncVerdict)
    requires Inv(s)
    ensures !Lingers(s, ToSync(g)) ==> CheckSync(s, g, verdict) == Stay(s)
    ensures Lingers(s, ToSync(g)) ==>
      match verdict
      case NoMask => CheckSync(s, g, verdict) == Stay(s)
      case Broken => CheckSync(s, g, verdict) == Halt(SyncData)
      case Mismatch(peer) => CheckSync(s, g, verdict) == Next(s, [Cast({peer}, Kick)])
      case Assign(distributors) =>
        CheckSync(s, g, verdict) == Next(SetVotes(Assigned(s, g, distributors), ToSync(g), {}), [Cast(Members(s, g), SyncStart)])
  {
    hide Inv, Assigned, SetVotes;
    SyncVoters(s, g);
    SubsetCount(In(s, g, VoteSync), Members(s, g));
    if Members(s, g) == In(s, g, VoteSync) && Members(s, g) != {} { assert Lingers(s, ToSync(g)); }
    if Lingers(s, ToSync(g)) {
      assert Members(s, g) == In(s, g, VoteSync);
      assert Members(s, g) * In(s, g, VoteSync) == Members(s, g);
    }
  }

  /** The packet, or the departure, leaves the vote of the group complete. */
  ghost predicate Held(s: State, u: Uuid, e: Event)
    requires u in s.clients
  {
    var g := s.clients[u].group;
    match e
    case SyncState(_, _, _, _) =>
      Expected(s.clients[u], e) && forall v :: v in Members(s, g) && v != u ==> s.clients[v].conn == VoteSync
    case Disconnect(_, _, _) => CompleteWithout(s, u, ToSync(g))
    case _ => false
  }

  /** What comes of an election. */
  ghost predicate Carried(o: Outcome, to: set<Uuid>, verdict: SyncVerdict) {
    match verdict
    case NoMask => o.Next? && forall c :: c in o.out ==> c.body != SyncStart
    case Broken => o == Halt(SyncData)
    case Mismatch(peer) => o.Next? && Cast({peer}, Kick) in o.out && forall c :: c in o.out ==> c.body != SyncStart
    case Assign(_) => o.Next? && Cast(to, SyncStart) in o.out
  }

  lemma VoteCompletes(s: State, u: Uuid, strategy: Strategy)
    requires Inv(s) && u in s.clients && s.clients[u].phase == Accepted && s.clients[u].conn == Idle
    ensures CastVote(s, u, ToSync(s.clients[u].group)).Next?
    ensures
      var g := s.clients[u].group;
      var s1 := CastVote(s, u, ToSync(g)).state.(strategies := s.strategies[u := strategy]);
      && Inv(s1) && Members(s1, g) == Members(s, g)
      && (Lingers(s1, ToSync(g)) <==> forall v :: v in Members(s, g) && v != u ==> s.clients[v].conn == VoteSync)
  {
    hide Inv, CastVote;
    var g := s.clients[u].group;
    SyncVoteInv(s, u, strategy);
    CastVoteFields(s, u, ToSync(g));
    var s1 := CastVote(s, u, ToSync(g)).state.(strategies := s.strategies[u := strategy]);
    assert Members(s1, g) == Members(s, g);
    assert u in Concerned(s1, ToSync(g));
  }

  lemma SyncStateHolds(s: State, u: Uuid, e: Event)
    requires Inv(s) && u in s.clients && e.SyncState? && Expected(s.clients[u], e)
    ensures
      var o := OnSyncState(s, u, e.legal, e.strategy, e.verdict);
      if Held(s, u, e) then Carried(o, Members(s, s.clients[u].group), e.verdict)
      else o.Next? && o.out == []
  {
    hide Inv, CastVote, CheckSync, Members, Lingers, Assigned, SetVotes;
    var g := s.clients[u].group;
    SyncVoteInv(s, u, e.strategy);
    VoteCompletes(s, u, e.strategy);
    var s1 := CastVote(s, u, ToSync(g)).state.(strategies := s.strategies[u := e.strategy]);
    CheckSyncHolds(s1, g, e.verdict);
  }

  /** Up to the check of the round a departure leaves the vote for it as it is. */
  lemma BeforeTheCheck(s: State, u: Uuid)
    requires Inv(s) && u in s.clients
    ensures CheckEstablish(Leave(s, u)).Next?
    ensures
      var b := CheckP2P(CheckEstablish(Leave(s, u)).state.(dropped := true));
      b.Next? ==>
        var c := CheckPending(b.state);
        && c.Next? && Inv(c.state)
        && (Lingers(c.state, ToSync(s.clients[u].group)) <==> CompleteWithout(s, u, ToSync(s.clients[u].group)))
  {
    hide Inv, Leave, CheckEstablish, CheckP2P, CheckPending, Lingers, CompleteWithout;
    var x := ToSync(s.clients[u].group);
    LeaveInv(s, u);
    LeaveLingers(s, u, x);
    CheckEstablishInv(Leave(s, u));
    EstablishTakes(Leave(s, u), x);
    var s1 := CheckEstablish(Leave(s, u)).state;
    DroppedInv(s1, true);
    DroppedSame(s1, x);
    CheckP2PInv(s1.(dropped := true));
    P2PSame(s1.(dropped := true), x);
    var b := CheckP2P(s1.(dropped := true));
    if b.Next? {
      CheckPendingInv(b.state);
      PendingSame(b.state, x);
    }
  }

  /** A vote for a round that is complete after these checks was so before, of the same peers. */
  lemma SameMembers(s: State, g: Group)
    requires Inv(s) && CheckEstablish(s).Next?
    ensures
      var b := CheckP2P(CheckEstablish(s).state.(dropped := true));
      b.Next? && CheckPending(b.state).Next? && Lingers(CheckPending(b.state).state, ToSync(g)) ==>
        Members(CheckPending(b.state).state, g) == Members(s, g)
  {
    hide Inv, CheckEstablish, CheckP2P, CheckPending, Lingers, Members;
    var x, a := ToSync(g), CheckEstablish(s).state;
    var a' := a.(dropped := true);
    var b := CheckP2P(a');
    if b.Next? {
      PendingSame(b.state, x);
      if Lingers(CheckPending(b.state).state, x) {
        CheckEstablishInv(s);
        DroppedInv(a, true);
        assert b.state == a' by { if b.state != a' { ClosesNot(a', x); } }
        DroppedSame(a, x);
        assert a == s by { if a != s { OpensNot(s, x); } }
        PendingMembers(a', g);
        DroppedMembers(s, g);
      }
    }
  }

  lemma ClosesNot(s: State, b: Ballot)
    requires CheckP2P(s).Next? && CheckP2P(s).state != s
    ensures !Lingers(CheckP2P(s).state, b)
  {
    hide CloseP2P, CanEndP2P, P2PConsensus, Newcomers, Participants, Lingers;
    ClosedLingers(s, s.dropped || exists u :: u in s.clients && s.clients[u].conn == ConnectFailed, b);
  }

  lemma OpensNot(s: State, b: Ballot)
    requires Inv(s) && CheckEstablish(s).Next? && CheckEstablish(s).state != s
    ensures !Lingers(CheckEstablish(s).state, b)
  {
    hide Clients, VotesOk, StrategiesOk, MeteredOk, Addresses, Consensus, OpenP2P, InConn, Unanimous, Lingers;
    var first := if AcceptConsensus(s) then OpenP2P(s, true).(dropped := false) else s;
    if AcceptConsensus(s) {
      ConsensusIsUnanimity(s, VoteAccept);
      OpenLingers(s, true, b);
      OpenP2PInv(s, true);
    }
    if EstablishConsensus(first) {
      ConsensusIsUnanimity(first, VoteNoNew);
      OpenLingers(first, false, b);
    }
  }

  lemma PendingMembers(s: State, g: Group)
    ensures CheckPending(s).Next? && Members(CheckPending(s).state, g) == Members(s, g)
  {
    hide PendingConsensus;
  }

  lemma DroppedMembers(s: State, g: Group)
    ensures Members(s.(dropped := true), g) == Members(s, g)
  {
  }

  /** No round begins. */
  ghost predicate NoStart(o: Outcome) { o.Next? ==> forall c :: c in o.out ==> c.body != SyncStart }

  lemma ChecksStartNothing(s: State, g: Group)
    ensures NoStart(CheckEstablish(s)) && NoStart(CheckP2P(s)) && NoStart(CheckPending(s)) && NoStart(CheckSynced(s, g))
  {
    hide Consensus, OpenP2P, InConn, P2PConsensus, CanEndP2P, CloseP2P, Participants, Newcomers, ResetPendingAll, PendingConsensus,
         Everyone, Members, In, Votes, EndRound;
  }

  lemma {:induction false} RecheckStartsNothing(s: State, g: Group, tags: seq<Tag>)
    ensures NoStart(RecheckAll(s, g, tags))
  {
    hide RecheckAll, Silent;
    RecheckAllSilent(s, g, tags);
    SilentStarts(RecheckAll(s, g, tags));
  }

  lemma SilentStarts(o: Outcome)
    requires o.Next? ==> Silent(o.out)
    ensures NoStart(o)
  {
  }

  lemma LeaveMembers(s: State, u: Uuid, g: Group)
    requires u in s.clients
    ensures Members(Leave(s, u), g) == Members(s, g) - {u}
  {
    hide SetVotes, Votes;
    RetryRace.LeaveClients(s, u);
    hide Leave;
  }

  /** The packets of the checks in the middle are among those of the whole. */
  lemma DepartedHolds(s: State, u: Uuid, verdict: SyncVerdict)
    requires Inv(s) && u in s.clients && Departed(s, u, verdict) != Halt(Bug.EndP2P)
    ensures
      var g, o := s.clients[u].group, Departed(s, u, verdict);
      if CompleteWithout(s, u, ToSync(g)) then Carried(o, Members(s, g) - {u}, verdict) else o.Next? && NoStart(o)
  {
    hide Inv, Leave, CheckEstablish, CheckP2P, CheckPending, CheckSync, CheckSynced, Lingers, CompleteWithout, Members, Assigned, SetVotes;
    var g := s.clients[u].group;
    LeaveInv(s, u);
    BeforeTheCheck(s, u);
    SameMembers(Leave(s, u), g);
    LeaveMembers(s, u, g);
    var a := CheckEstablish(Leave(s, u));
    CheckEstablishInv(Leave(s, u));
    DroppedInv(a.state, true);
    CheckP2PInv(a.state.(dropped := true));
    var b := CheckP2P(a.state.(dropped := true));
    assert b.Next?;
    var c := CheckPending(b.state);
    CheckSyncHolds(c.state, g, verdict);
    CheckSyncInv(c.state, g, verdict);
    var d := CheckSync(c.state, g, verdict);
    if d.Next? {
      CheckSyncedInv(d.state, g);
      ChecksStartNothing(Leave(s, u), g);
      ChecksStartNothing(a.state.(dropped := true), g);
      ChecksStartNothing(b.state, g);
      ChecksStartNothing(d.state, g);
      SixParts(a, b, c, d, CheckSynced(d.state, g));
    }
  }

  lemma SixParts(a: Outcome, b: Outcome, c: Outcome, d: Outcome, f: Outcome)
    requires a.Next? && b.Next? && c.Next? && d.Next? && f.Next? && NoStart(a) && NoStart(b) && NoStart(c) && NoStart(f)
    ensures
      var out := a.out + b.out + c.out + d.out + f.out;
      && (forall x :: x in d.out ==> x in out)
      && (NoStart(d) ==> forall x :: x in out ==> x.body != SyncStart)
  {
    forall x | x in a.out + b.out + c.out + d.out + f.out
      ensures x in a.out || x in b.out || x in c.out || x in d.out || x in f.out
    {
    }
  }

  lemma DisconnectHolds(s: State, u: Uuid, verdict: SyncVerdict, tags: seq<Tag>)
    requires Inv(s) && u in s.clients && OnDisconnect(s, u, verdict, tags) != Halt(Bug.EndP2P)
    ensures
      var g, o := s.clients[u].group, OnDisconnect(s, u, verdict, tags);
      if CompleteWithout(s, u, ToSync(g)) then Carried(o, Members(s, g) - {u}, verdict) else o.Next? && NoStart(o)
  {
    hide Inv, Departed, RecheckAll, CompleteWithout, Members;
    DepartedHolds(s, u, verdict);
    DepartedInv(s, u, verdict);
    var a := Departed(s, u, verdict);
    if a.Next? {
      RecheckAllInv(a.state, s.clients[u].group, tags);
      RecheckStartsNothing(a.state, s.clients[u].group, tags);
      var r := RecheckAll(a.state, s.clients[u].group, tags);
      forall x | x in a.out + r.out ensures x in a.out || x in r.out { }
    }
  }

  /** Over every run: an election is held exactly if a packet or a departure leaves the vote of its group complete. Then the
      round begins for all members, or the peer whose keys do not match is kicked, or no round begins for want of a mask, or
      the process is ended, as the outcome says; without an election no round begins and the process is not ended here. */
  lemma ElectionDecides(s: State, events: seq<Event>, e: Event)
    requires Reached(s, events) && Legal(s, e) && !e.Register? && e.addr in s.byAddr
    requires e.SyncState? || (e.Disconnect? && !RetryRace.Exposed(s, e))
    ensures
      var u := s.byAddr[e.addr];
      && u in s.clients
      && var g, o := s.clients[u].group, Step(s, e);
         if Held(s, u, e) then Carried(o, Members(s, g) - (if e.Disconnect? then {u} else {}), e.verdict) else o.Next? && NoStart(o)
  {
    hide Inv, Run, LegalRun, Legal, Members, OnSyncState, OnDisconnect, RetryRace.Exposed, CompleteWithout;
    ReachedInv(s, events);
    MasterWatch.AddressOf(s, e.addr);
    var u := s.byAddr[e.addr];
    if e.SyncState? {
      var all := Members(s, s.clients[u].group);
      assert all - {} == all;
      if Expected(s.clients[u], e) { SyncStateHolds(s, u, e); } else { Kicked(s, u, e); }
    } else {
      RetryRace.StepEndsMasterIff(s, e);
      DisconnectHolds(s, u, e.verdict, e.tags);
    }
  }

  /** Over every run: the process ends behind an election if and only if one is held and finds the peers' lists broken, unless
      the departure has ended it before. */
  lemma ElectionHaltsIff(s: State, events: seq<Event>, e: Event)
    requires Reached(s, events) && Legal(s, e)
    ensures Step(s, e) == Halt(SyncData) <==>
      && (e.SyncState? || (e.Disconnect? && !RetryRace.Exposed(s, e))) && e.verdict == Broken
      && e.addr in s.byAddr && s.byAddr[e.addr] in s.clients && Held(s, s.byAddr[e.addr], e)
  {
    hide Inv, Run, LegalRun, OnRegister, OnRequestP2P, OnReportP2P, OnQueryPending, OnRequestOptimize, OnReportOptimized,
         OnSyncState, OnReportSynced, OnInitiate, OnComplete, OnDisconnect, Held, RetryRace.Exposed, Members;
    ReachedInv(s, events);
    if e.Register? {
      RegisterInv(s, e.addr, e.local, e.group, e.id);
    } else if e.addr in s.byAddr {
      MasterWatch.AddressOf(s, e.addr);
      var u := s.byAddr[e.addr];
      match e
      case RequestP2P(_, accept) => RequestP2PInv(s, u, accept);
      case ReportP2P(_, success, fail) => ReportP2PInv(s, u, success, fail);
      case QueryPending(_) => QueryPendingInv(s, u);
      case RequestOptimize(_) => OptimizeInv(s, u);
      case ReportBandwidth(_, _) =>
      case ReportOptimized(_) => OptimizeInv(s, u);
      case SyncState(_, _, _, _) => ElectionDecides(s, events, e);
      case ReportSynced(_) => ReportSyncedInv(s, u);
      case Initiate(_, tag) => InitiateInv(s, u, tag);
      case Complete(_, tag, aborted) => CompleteInv(s, u, tag, aborted);
      case Disconnect(_, _, _) =>
        RetryRace.StepEndsMasterIff(s, e);
        if !RetryRace.Exposed(s, e) { ElectionDecides(s, events, e); }
    }
  }

  // Bandwidth reports -------------------------------------------------------------------------------

  /** Over every run: a bandwidth report ends the process if and only if it is about a client of the sender's group, and one of
      the two is not accepted; and no other packet ends it this way. */
  lemma BandwidthHaltsIff(s: State, events: seq<Event>, e: Event)
    requires Reached(s, events) && Legal(s, e)
    ensures Step(s, e) == Halt(StoreBandwidth) <==>
      && e.ReportBandwidth? && e.addr in s.byAddr && s.byAddr[e.addr] in s.clients && e.to in s.clients
      && var i, j := s.clients[s.byAddr[e.addr]], s.clients[e.to];
         i.group == j.group && (i.phase != Accepted || j.phase != Accepted)
  {
    hide Inv, Run, LegalRun, OnRegister, OnRequestP2P, OnReportP2P, OnQueryPending, OnRequestOptimize, OnReportOptimized,
         OnSyncState, OnReportSynced, OnInitiate, OnComplete, OnDisconnect, Everyone;
    ReachedInv(s, events);
    if e.Register? {
      RegisterInv(s, e.addr, e.local, e.group, e.id);
    } else if e.addr in s.byAddr && s.byAddr[e.addr] in s.clients {
      var u := s.byAddr[e.addr];
      match e
      case RequestP2P(_, accept) => RequestP2PInv(s, u, accept);
      case ReportP2P(_, success, fail) => ReportP2PInv(s, u, success, fail);
      case QueryPending(_) => QueryPendingInv(s, u);
      case RequestOptimize(_) => OptimizeInv(s, u);
      case ReportBandwidth(_, to) => MeteredAccepted(s, u); if to in s.clients { MeteredAccepted(s, to); }
      case ReportOptimized(_) => OptimizeInv(s, u);
      case SyncState(_, legal, strategy, verdict) => SyncStateInv(s, u, legal, strategy, verdict);
      case ReportSynced(_) => ReportSyncedInv(s, u);
      case Initiate(_, tag) => InitiateInv(s, u, tag);
      case Complete(_, tag, aborted) => CompleteInv(s, u, tag, aborted);
      case Disconnect(_, verdict, tags) => DisconnectInv(s, u, verdict, tags);
    }
  }

  lemma MeteredAccepted(s: State, u: Uuid)
    requires Inv(s) && u in s.clients
    ensures u in s.metered <==> s.clients[u].phase == Accepted
  {
    hide Clients, Addresses, VotesOk, StrategiesOk;
  }
}
