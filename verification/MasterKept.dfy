/** What every step of the master keeps besides its invariant: ids and groups of clients, that they are accepted, and
    the numbering of collective operations. */
module MasterKept {
  import opened MasterSpec
  import opened MasterInv

  ghost predicate Kept(s: State, s': State) {
    && s.issued <= s'.issued && s.nextSeq <= s'.nextSeq
    && forall u :: u in s'.clients ==>
         || u !in s.issued
         || (u in s.clients && s'.clients[u].group == s.clients[u].group
             && (s.clients[u].phase == Accepted ==> s'.clients[u].phase == Accepted))
  }

  /** Operations that commence are numbered upwards. */
  ghost predicate Numbered(out: seq<Cast>, lo: nat, hi: nat) {
    && (forall i :: 0 <= i < |out| && out[i].body.Commence? ==> lo <= out[i].body.nr < hi)
    && (forall i, j :: 0 <= i < j < |out| && out[i].body.Commence? && out[j].body.Commence? ==> out[i].body.nr < out[j].body.nr)
  }

  ghost predicate Sound(s: State, o: Outcome) {
    o.Next? ==> Kept(s, o.state) && Numbered(o.out, s.nextSeq, o.state.nextSeq)
  }

  lemma SoundThrough(s: State, a: Outcome, b: Outcome)
    requires Sound(s, a) && a.Next? && Sound(a.state, b)
    ensures Sound(s, Before(b, a.out))
  {
    if b.Next? {
      var out := a.out + b.out;
      forall i | 0 <= i < |out|
        ensures out[i] == if i < |a.out| then a.out[i] else b.out[i - |a.out|]
      {
      }
    }
  }

  /** A silent change before a check. */
  lemma SoundAfter(s: State, s': State, o: Outcome)
    requires Kept(s, s') && Sound(s', o)
    ensures Sound(s, o)
  {
  }

  lemma CastVoteSound(s: State, u: Uuid, b: Ballot)
    requires u in s.clients
    ensures Sound(s, CastVote(s, u, b))
  {
  }

  lemma OpenKept(s: State, accept: bool)
    ensures Kept(s, OpenP2P(s, accept)) && Kept(s, OpenP2P(s, accept).(dropped := false))
  {
  }

  lemma CheckEstablishSound(s: State)
    ensures CheckEstablish(s).Next? && Sound(s, CheckEstablish(s))
  {
    hide Consensus, OpenP2P, InConn;
    OpenKept(s, true);
    OpenKept(s, false);
    OpenKept(OpenP2P(s, true).(dropped := false), false);
  }

  lemma CloseKept(s: State, failure: bool)
    ensures Kept(s, CloseP2P(s, failure))
  {
  }

  lemma CheckP2PSound(s: State)
    ensures Sound(s, CheckP2P(s))
  {
    hide P2PConsensus, CanEndP2P, CloseP2P, Participants, Newcomers;
    CloseKept(s, true);
    CloseKept(s, false);
  }

  lemma ResetKept(s: State)
    ensures Kept(s, ResetPendingAll(s))
  {
  }

  lemma CheckPendingSound(s: State)
    ensures CheckPending(s).Next? && Sound(s, CheckPending(s))
  {
    hide PendingConsensus, ResetPendingAll, Everyone;
    ResetKept(s);
  }

  lemma AssignKept(s: State, g: Group, distributors: set<Uuid>)
    ensures Kept(s, SetVotes(Assigned(s, g, distributors), ToSync(g), {}))
  {
  }

  lemma CheckSyncSound(s: State, g: Group, verdict: SyncVerdict)
    ensures Sound(s, CheckSync(s, g, verdict))
  {
    hide Members, In, Votes, SetVotes, Assigned;
    if verdict.Assign? { AssignKept(s, g, verdict.distributors); }
  }

  lemma EndRoundKept(s: State, g: Group)
    ensures Kept(s, EndRound(s, g))
  {
  }

  lemma CheckSyncedSound(s: State, g: Group)
    ensures Sound(s, CheckSynced(s, g))
  {
    hide Members, In, Votes, EndRound;
    EndRoundKept(s, g);
  }

  lemma CommencedKept(s: State, g: Group, tag: Tag)
    ensures Kept(s, Commenced(s, g, tag)) && Commenced(s, g, tag).nextSeq == s.nextSeq + 1
  {
  }

  lemma CheckInitiateSound(s: State, g: Group, tag: Tag)
    ensures Sound(s, CheckInitiate(s, g, tag))
  {
    hide AllInColl, Members, Runners, Commenced;
    CommencedKept(s, g, tag);
  }

  lemma ConcludedKept(s: State, g: Group, tag: Tag)
    ensures Kept(s, Concluded(s, g, tag))
  {
  }

  lemma CheckCompleteSound(s: State, g: Group, tag: Tag)
    ensures Sound(s, CheckComplete(s, g, tag))
  {
    hide AllInColl, Members, Runners, Concluded;
    ConcludedKept(s, g, tag);
  }

  lemma MarkSound(s: State, g: Group, tag: Tag)
    ensures MarkAborted(s, g, tag).Next? && Sound(s, MarkAborted(s, g, tag))
  {
    hide Runners;
  }

  lemma SetInfoKept(s: State, u: Uuid, i: Info)
    requires u in s.clients && i.group == s.clients[u].group && i.phase == s.clients[u].phase
    ensures Kept(s, SetInfo(s, u, i))
  {
  }

  lemma AllToKept(s: State, b: Ballot, c: Conn)
    ensures Kept(s, SetVotes(AllTo(s, c), b, {}))
  {
  }

  lemma P2PSound(s: State, u: Uuid, accept: bool, success: bool, fail: FailVerdict)
    requires u in s.clients
    ensures Sound(s, OnRequestP2P(s, u, accept)) && Sound(s, OnReportP2P(s, u, success, fail))
  {
    hide CastVote, CheckEstablish, CheckP2P, SetInfo, Kept;
    var b := if accept then ToAccept else ToEstablish;
    var voted := CastVote(s, u, b);
    CastVoteSound(s, u, b);
    if voted.Next? {
      CheckEstablishSound(voted.state);
      SoundAfter(s, voted.state, CheckEstablish(voted.state));
    }
    StaySound(s, u);
    var c := if success then Waiting else ConnectFailed;
    SetInfoKept(s, u, s.clients[u].(conn := c));
    CheckP2PSound(SetConn(s, u, c));
    SoundAfter(s, SetConn(s, u, c), CheckP2P(SetConn(s, u, c)));
  }

  lemma StaySound(s: State, u: Uuid)
    ensures Sound(s, Stay(s)) && Sound(s, KickOut(s, u))
  {
  }

  lemma QuerySound(s: State, u: Uuid)
    requires u in s.clients
    ensures Sound(s, OnQueryPending(s, u))
  {
    hide CheckPending, SetInfo, Kept;
    StaySound(s, u);
    var s1 := SetInfo(s, u, s.clients[u].(pending := true));
    SetInfoKept(s, u, s.clients[u].(pending := true));
    CheckPendingSound(s1);
    SoundAfter(s, s1, CheckPending(s1));
  }

  lemma OptimizeSound(s: State, u: Uuid)
    requires u in s.clients
    ensures Sound(s, OnRequestOptimize(s, u)) && Sound(s, OnReportOptimized(s, u))
  {
    hide CastVote, Consensus, Unanimous, AllTo, SetVotes;
    CastVoteSound(s, u, ToOptimize);
    CastVoteSound(s, u, ToEndOptimize);
    var a, b := CastVote(s, u, ToOptimize), CastVote(s, u, ToEndOptimize);
    if a.Next? { AllToKept(a.state, ToOptimize, Optimizing); }
    if b.Next? { AllToKept(b.state, ToEndOptimize, Idle); }
  }

  lemma SyncSound(s: State, u: Uuid, legal: bool, strategy: Strategy, verdict: SyncVerdict)
    requires u in s.clients
    ensures Sound(s, OnSyncState(s, u, legal, strategy, verdict)) && Sound(s, OnReportSynced(s, u))
  {
    hide CastVote, CheckSync, CheckSynced, Numbered;
    var g := s.clients[u].group;
    StaySound(s, u);
    CastVoteSound(s, u, ToSync(g));
    CastVoteSound(s, u, ToEndSync(g));
    var a, b := CastVote(s, u, ToSync(g)), CastVote(s, u, ToEndSync(g));
    if a.Next? {
      var s1 := a.state.(strategies := s.strategies[u := strategy]);
      CheckSyncSound(s1, g, verdict);
      SoundAfter(s, s1, CheckSync(s1, g, verdict));
    }
    if b.Next? {
      CheckSyncedSound(b.state, g);
      SoundAfter(s, b.state, CheckSynced(b.state, g));
    }
  }

  lemma CollSound(s: State, u: Uuid, tag: Tag, aborted: bool)
    requires u in s.clients
    ensures Sound(s, OnInitiate(s, u, tag)) && Sound(s, OnComplete(s, u, tag, aborted))
  {
    hide CheckInitiate, CheckComplete, MarkAborted, SetInfo, Kept, Numbered;
    StaySound(s, u);
    var i := s.clients[u];
    var a, b := i.(conn := Running, coll := i.coll[tag := VoteInit]), i.(coll := i.coll[tag := VoteDone]);
    SetInfoKept(s, u, a);
    SetInfoKept(s, u, b);
    CheckInitiateSound(SetInfo(s, u, a), i.group, tag);
    SoundAfter(s, SetInfo(s, u, a), CheckInitiate(SetInfo(s, u, a), i.group, tag));
    var voted := SetInfo(s, u, b);
    MarkSound(voted, i.group, tag);
    StaySound(voted, u);
    var marked := if aborted then MarkAborted(voted, i.group, tag) else Stay(voted);
    CheckCompleteSound(marked.state, i.group, tag);
    var done := CheckComplete(marked.state, i.group, tag);
    SoundThrough(voted, marked, done);
    SoundAfter(s, voted, Before(done, marked.out));
  }

  lemma RecheckSound(s: State, g: Group, tag: Tag)
    ensures Sound(s, Recheck(s, g, tag))
  {
    hide CheckInitiate, CheckComplete, MarkAborted, InProgress, Kept, Numbered;
    var a := CheckInitiate(s, g, tag);
    CheckInitiateSound(s, g, tag);
    if a.Next? {
      var b := CheckComplete(a.state, g, tag);
      CheckCompleteSound(a.state, g, tag);
      if b.Next? {
        SoundThrough(s, a, b);
        MarkSound(b.state, g, tag);
        StaySound(b.state, 0);
        var c := if InProgress(b.state, g, tag) then MarkAborted(b.state, g, tag) else Stay(b.state);
        SoundThrough(s, Before(b, a.out), c);
      }
    }
  }

  lemma {:induction false} RecheckAllSound(s: State, g: Group, tags: seq<Tag>)
    ensures Sound(s, RecheckAll(s, g, tags))
    decreases |tags|
  {
    hide Recheck, Kept, Numbered;
    StaySound(s, 0);
    if tags != [] {
      var a := Recheck(s, g, tags[0]);
      RecheckSound(s, g, tags[0]);
      if a.Next? {
        RecheckAllSound(a.state, g, tags[1..]);
        SoundThrough(s, a, RecheckAll(a.state, g, tags[1..]));
      }
    }
  }

  lemma LeaveKept(s: State, u: Uuid)
    requires u in s.clients
    ensures Kept(s, Leave(s, u))
  {
  }

  lemma DropKept(s: State)
    ensures Sound(s, Stay(s.(dropped := true)))
  {
  }

  lemma DepartedSound(s: State, u: Uuid, verdict: SyncVerdict)
    requires u in s.clients
    ensures Sound(s, Departed(s, u, verdict))
  {
    hide Leave, CheckEstablish, CheckP2P, CheckPending, CheckSync, CheckSynced, Kept, Numbered;
    var g, s0 := s.clients[u].group, Leave(s, u);
    LeaveKept(s, u);
    CheckEstablishSound(s0);
    var a := CheckEstablish(s0);
    DropKept(a.state);
    var a' := a.state.(dropped := true);
    SoundThrough(s0, a, Stay(a'));
    var b := CheckP2P(a');
    CheckP2PSound(a');
    if b.Next? {
      SoundThrough(s0, Next(a', a.out), b);
      var c := CheckPending(b.state);
      CheckPendingSound(b.state);
      SoundThrough(s0, Next(b.state, a.out + b.out), c);
      var d := CheckSync(c.state, g, verdict);
      CheckSyncSound(c.state, g, verdict);
      if d.Next? {
        SoundThrough(s0, Next(c.state, a.out + b.out + c.out), d);
        CheckSyncedSound(d.state, g);
        SoundThrough(s0, Next(d.state, a.out + b.out + c.out + d.out), CheckSynced(d.state, g));
      }
    }
    SoundAfter(s, s0, Departed(s, u, verdict));
  }

  lemma DisconnectSound(s: State, u: Uuid, verdict: SyncVerdict, tags: seq<Tag>)
    requires u in s.clients
    ensures Sound(s, OnDisconnect(s, u, verdict, tags))
  {
    hide Departed, RecheckAll, Kept, Numbered;
    var a := Departed(s, u, verdict);
    DepartedSound(s, u, verdict);
    if a.Next? {
      RecheckAllSound(a.state, s.clients[u].group, tags);
      SoundThrough(s, a, RecheckAll(a.state, s.clients[u].group, tags));
    }
  }

  function FirstOf(s: State, u: Uuid, i: Info): State {
    var joined := Join(s, u, i);
    SetInfo(joined, u, i.(phase := Accepted)).(metered := joined.metered + {u})
  }

  lemma JoinKept(s: State, u: Uuid, i: Info)
    requires u !in s.issued
    ensures Kept(s, Join(s, u, i)) && Kept(s, FirstOf(s, u, i))
  {
  }

  lemma EnrollKept(s: State, addr: Addr, local: bool, group: Group, u: Uuid)
    requires u !in s.issued
    ensures Enroll(s, addr, local, group, u).Next? ==> Kept(s, Enroll(s, addr, local, group, u).state)
  {
    hide Consensus, CastVote, OpenP2P, Join;
    var i := Info(Registered, Idle, addr, local, group, map[], false);
    JoinKept(s, u, i);
    var first := FirstOf(s, u, i);
    var voted := CastVote(first, u, ToAccept);
    CastVoteSound(first, u, ToAccept);
    if voted.Next? { OpenKept(voted.state, true); }
  }

  lemma RegisterSound(s: State, addr: Addr, local: bool, group: Group, u: Uuid)
    requires u !in s.issued
    ensures Sound(s, OnRegister(s, addr, local, group, u))
  {
    hide Enroll, CheckEstablish, Mixes, Kept;
    if addr in s.byAddr {
      StaySound(s, s.byAddr[addr]);
    } else {
      EnrollKept(s, addr, local, group, u);
      StaySound(s, 0);
      var joined := if Mixes(s, local) then Stay(s) else Enroll(s, addr, local, group, u);
      if joined.Next? {
        var s1 := joined.state;
        var hello := Next(s1, [Cast({u}, Response(!Mixes(s, local)))]);
        StaySound(s1, 0);
        CheckEstablishSound(s1);
        var o := if |s1.byAddr| == 1 then Next(s1, [Cast(InConn(s1, Connecting), PeersInfo(true))]) else CheckEstablish(s1);
        SoundThrough(s1, hello, o);
        SoundAfter(s, s1, Before(o, hello.out));
      }
    }
  }

  /** Every step, whatever is sent. */
  lemma StepSound(s: State, e: Event)
    requires Legal(s, e)
    ensures Sound(s, Step(s, e))
  {
    hide OnRegister, OnRequestP2P, OnReportP2P, OnQueryPending, OnRequestOptimize, OnReportOptimized, OnSyncState,
         OnReportSynced, OnInitiate, OnComplete, OnDisconnect, Kept, Numbered;
    StaySound(s, 0);
    if e.Register? {
      RegisterSound(s, e.addr, e.local, e.group, e.id);
    } else if e.addr in s.byAddr && s.byAddr[e.addr] in s.clients {
      var u := s.byAddr[e.addr];
      match e
      case RequestP2P(_, accept) => P2PSound(s, u, accept, true, MasterSpec.KickPeer);
      case ReportP2P(_, success, fail) => P2PSound(s, u, true, success, fail);
      case QueryPending(_) => QuerySound(s, u);
      case RequestOptimize(_) => OptimizeSound(s, u);
      case ReportBandwidth(_, _) =>
      case ReportOptimized(_) => OptimizeSound(s, u);
      case SyncState(_, legal, strategy, verdict) => SyncSound(s, u, legal, strategy, verdict);
      case ReportSynced(_) => SyncSound(s, u, true, TxOnly, NoMask);
      case Initiate(_, tag) => CollSound(s, u, tag, true);
      case Complete(_, tag, aborted) => CollSound(s, u, tag, aborted);
      case Disconnect(_, verdict, tags) => DisconnectSound(s, u, verdict, tags);
    }
  }

  /** In every run the operations that commence, for whichever groups and tags, carry strictly growing numbers: no
      number is ever used twice. */
  lemma {:induction false} RunNumbered(events: seq<Event>)
    requires LegalRun(events)
    ensures Sound(Start(), Run(events))
    decreases |events|
  {
    hide Kept, Numbered, Step, Legal;
    if events == [] {
      StaySound(Start(), 0);
    } else {
      var front := events[..|events| - 1];
      RunNumbered(front);
      if Run(front).Next? {
        var e := events[|events| - 1];
        StepSound(Run(front).state, e);
        SoundThrough(Start(), Run(front), Step(Run(front).state, e));
      }
    }
  }
}
