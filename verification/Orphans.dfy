/** Abort marks nobody takes back: how the mark of an operation outlives the operation, and what it does to the
    peers that come later. */
module Orphans {
  import opened MasterSpec
  import opened MasterInv
  import opened MasterTags
  import opened MasterRuns
  import RetryRace

  // Where a mark without an operation comes from ----------------------------------------------------

  predicate Ongoing(p: Part) { p == Some(Performing) || p == Some(VoteDone) }

  /** A mark belongs to an operation that is going on, with all members of the group in it. */
  predicate Owned(v: View) {
    v.flag ==> v.parts != map[] && forall u :: u in v.parts ==> Ongoing(v.parts[u])
  }

  /** The last accepted peer of the group leaves while the operation is marked. */
  predicate Orphaning(s: State, e: Event, g: Group, tag: Tag) {
    e.Disconnect? && e.addr in s.byAddr && (g, tag) in s.aborts && Members(s, g) == {s.byAddr[e.addr]}
  }

  /** Either nobody is in the operation or everybody is. */
  predicate Together(v: View) {
    forall u, w :: u in v.parts && w in v.parts && Ongoing(v.parts[u]) ==> Ongoing(v.parts[w])
  }

  lemma MembersTogether(s: State, g: Group, tag: Tag)
    requires Inv(s)
    ensures Together(ViewOf(s, g, tag))
  {
    hide VotesOk, StrategiesOk, MeteredOk, Addresses;
    var v := ViewOf(s, g, tag);
    forall u, w | u in v.parts && w in v.parts && Ongoing(v.parts[u])
      ensures Ongoing(v.parts[w])
    {
      assert u in Members(s, g) && w in Members(s, g);
      assert PairOk(s.clients[u], s.clients[w]);
      assert Active(s.clients[u], tag) == Active(s.clients[w], tag);
    }
  }

  lemma WidenedOwned(v: View, w: View)
    requires Widened(v, w)
    ensures Owned(v) <==> Owned(w)
  {
    if v.parts.Keys == w.parts.Keys {
      assert v.parts == w.parts;
    } else {
      var u :| u in w.parts && u !in v.parts;
      assert w.parts[u] == None;
      if v.parts != map[] {
        var x :| x in v.parts;
        assert v.parts[x] == None;
      }
    }
  }

  lemma InitiateOwned(v: View, u: Uuid, tag: Tag, n: nat)
    requires Owned(v) && u in v.parts && v.parts[u] == None
    ensures Owned(AfterInitiate(v, u, tag, n).view)
  {
  }

  lemma CompleteOwned(v: View, u: Uuid, tag: Tag, aborted: bool)
    requires Owned(v) && Together(v) && u in v.parts && v.parts[u] == Some(Performing)
    ensures Owned(AfterComplete(v, u, tag, aborted).view)
  {
    var voted := v.(parts := v.parts[u := Some(VoteDone)]);
    assert u in voted.parts;
    forall w | w in voted.parts ensures Ongoing(voted.parts[w]) { }
  }

  lemma RecheckOwned(v: View, tag: Tag, n: nat)
    requires Owned(v) && Together(v) && v.parts != map[]
    ensures Owned(AfterRecheck(v, tag, n).view)
  {
    var x :| x in v.parts;
    var a := Begin(v, tag, n).view;
    assert x in a.parts && Together(a) && Owned(a);
    var b := Finish(a, tag).view;
    assert Owned(b);
    if Any(b, Some(Performing)) {
      assert b == a;
      var u :| u in b.parts && b.parts[u] == Some(Performing);
      forall w | w in b.parts ensures Ongoing(b.parts[w]) { }
    }
  }

  lemma LeaveOwned(v: View, u: Uuid, tag: Tag, n: nat)
    requires Owned(v) && Together(v)
    ensures Owned(AfterLeave(v, u, tag, n).view) <==> !(v.flag && v.parts.Keys == {u})
  {
    hide AfterRecheck;
    var rest := v.(parts := v.parts - {u});
    assert Together(rest);
    if rest.parts == map[] {
      forall w | w in v.parts ensures w == u { assert w == u || w in rest.parts; }
    } else {
      var x :| x in rest.parts;
      assert x in v.parts && x != u;
      assert Owned(rest);
      RecheckOwned(rest, tag, n);
    }
  }

  /** One step, whatever it is: the mark loses its operation exactly if the last member leaves it behind. */
  lemma StepOwned(s: State, e: Event, g: Group, tag: Tag)
    requires Inv(s) && MasterSpec.Legal(s, e) && Step(s, e).Next? && Owned(ViewOf(s, g, tag))
    ensures Owned(ViewOf(Step(s, e).state, g, tag)) <==> !Orphaning(s, e, g, tag)
  {
    hide Inv, Step, MasterSpec.Legal, Owned, Together, AfterInitiate, AfterComplete, AfterLeave;
    var n := StepFollows(s, e, g, tag);
    var c := Meaning(s, e, g, tag, n);
    WidenedOwned(c.view, ViewOf(Step(s, e).state, g, tag));
    MeaningOwned(s, e, g, tag, n);
  }

  lemma MeaningOwned(s: State, e: Event, g: Group, tag: Tag, n: nat)
    requires Inv(s) && Owned(ViewOf(s, g, tag))
    ensures Owned(Meaning(s, e, g, tag, n).view) <==> !Orphaning(s, e, g, tag)
  {
    hide Inv, Owned, Together, AfterInitiate, AfterComplete, AfterLeave;
    var v := ViewOf(s, g, tag);
    MembersTogether(s, g, tag);
    MembersKeys(s, g, tag);
    if !e.Register? && e.addr in s.byAddr && s.byAddr[e.addr] in s.clients {
      var u := s.byAddr[e.addr];
      if e.Initiate? && e.tag == tag && u in Members(s, g) && MayInitiate(s.clients[u], tag) {
        InitiateOwned(v, u, tag, n);
      } else if e.Complete? && e.tag == tag && u in Members(s, g) && InColl(s.clients[u], tag, Performing) {
        CompleteOwned(v, u, tag, e.aborted);
      } else if e.Disconnect? && s.clients[u].group == g {
        LeaveOwned(v, u, tag, n);
      } else if e.Disconnect? {
        assert Without(v, u).parts == v.parts;
      }
    } else if e.Disconnect? && e.addr in s.byAddr {
      assert s.byAddr[e.addr] !in Members(s, g);
    }
  }

  /** Over every run: a mark whose operation is not going on was left behind by a last member. */
  lemma {:induction false} StaleMarksAreOrphans(events: seq<Event>, g: Group, tag: Tag)
    requires LegalRun(events) && Run(events).Next? && !Owned(ViewOf(Run(events).state, g, tag))
    ensures exists k :: 0 <= k < |events| && Run(events[..k]).Next? && Orphaning(Run(events[..k]).state, events[k], g, tag)
    decreases |events|
  {
    hide Inv, Step, MasterSpec.Legal, Owned, Orphaning, Possible;
    assert Owned(ViewOf(Start(), g, tag)) by { StartOwned(g, tag); }
    var k := |events| - 1;
    var front := events[..k];
    RunInv(front);
    var s := Run(front).state;
    if Owned(ViewOf(s, g, tag)) {
      StepOwned(s, events[k], g, tag);
    } else {
      StaleMarksAreOrphans(front, g, tag);
      var j :| 0 <= j < |front| && Run(front[..j]).Next? && Orphaning(Run(front[..j]).state, front[j], g, tag);
      assert front[..j] == events[..j];
    }
  }

  lemma StartOwned(g: Group, tag: Tag)
    ensures Owned(ViewOf(Start(), g, tag))
  {
  }

  // Such a mark is reached, and starves the next peer -----------------------------------------------

  /** Two peers start an operation and one reports that it failed; both leave. A third one, alone with the master,
      performs the operation of the same tag. */
  function OrphanStory(): seq<Event> {
    RetryRace.PairStory()
    + [Initiate(1, 0), Initiate(2, 0), Complete(1, 0, true), Disconnect(1, NoMask, [0]), Disconnect(2, NoMask, []),
       Register(3, true, 0, 3), ReportP2P(3, true, NewRing), RequestP2P(3, true), ReportP2P(3, true, NewRing),
       Initiate(3, 0), Complete(3, 0, false)]
  }

  /** An accepted peer of group 0 with address `u` that has the share `p` in operation 0 and is in no other. */
  ghost predicate Guest(i: Info, u: Uuid, p: Part) {
    && i.phase == Accepted && i.group == 0 && i.addr == u && i.conn == (if p == None then Idle else Running)
    && i.coll == if p == None then map[] else map[0 := p.c]
  }

  ghost predicate Party(s: State, m: map<Uuid, Part>) {
    Inv(s) && s.clients.Keys == m.Keys && forall u :: u in m ==> Guest(s.clients[u], u, m[u])
  }

  lemma PartyKnown(s: State, m: map<Uuid, Part>, u: Uuid)
    requires Party(s, m) && u in m
    ensures Inv(s) && u in s.byAddr && s.byAddr[u] == u && u in s.clients && Guest(s.clients[u], u, m[u])
  {
    hide Clients, VotesOk, StrategiesOk, MeteredOk;
  }

  lemma PartyView(s: State, m: map<Uuid, Part>)
    requires Party(s, m)
    ensures ViewOf(s, 0, 0).parts == m && Members(s, 0) == m.Keys
  {
    hide Inv;
    assert Members(s, 0) == m.Keys;
    forall u | u in m ensures PartOf(s.clients[u], 0) == m[u] { }
  }

  lemma PartyAll(s: State, m: map<Uuid, Part>, c: Coll)
    requires Party(s, m)
    ensures AllInColl(s, 0, 0, c) <==> forall u :: u in m ==> m[u] == Some(c)
  {
    hide Inv, Guest;
    PartyView(s, m);
    MembersPart(s, 0, 0, c);
  }

  ghost function Set(m: map<Uuid, Part>, p: Part): map<Uuid, Part> { map u | u in m :: p }

  lemma Takes(s: State, m: map<Uuid, Part>, u: Uuid, i: Info, p: Part)
    requires Party(s, m) && u in m && Guest(i, u, p) && Inv(SetInfo(s, u, i))
    ensures Party(SetInfo(s, u, i), m[u := p])
  {
    hide Inv, Guest;
  }

  lemma Commencing(s: State, m: map<Uuid, Part>, u: Uuid)
    requires Party(s, m) && u in m && forall v :: v in m ==> m[v] == Some(VoteInit)
    ensures
      var o := CheckInitiate(s, 0, 0);
      && o.Next? && o.state.aborts == s.aborts && o.state.issued == s.issued && Party(o.state, Set(m, Some(Performing)))
      && Hears(o.out, u, 0) == [Commence(0, s.nextSeq)]
  {
    hide Inv, Guest, Hears, Runners, AllInColl;
    PartyAll(s, m, VoteInit);
    PartyView(s, m);
    CheckInitiateInv(s, 0, 0);
    HearsOne(Cast(Members(s, 0), Commence(0, s.nextSeq)), u, 0);
    var s' := Commenced(s, 0, 0);
    forall v | v in m ensures Guest(s'.clients[v], v, Some(Performing)) { Performs(s.clients[v], v); }
  }

  lemma Performs(i: Info, u: Uuid)
    requires Guest(i, u, Some(VoteInit))
    ensures Guest(i.(coll := i.coll[0 := Performing]), u, Some(Performing))
  {
  }

  lemma VotesToStart(i: Info, u: Uuid)
    requires Guest(i, u, None)
    ensures Guest(i.(conn := Running, coll := i.coll[0 := VoteInit]), u, Some(VoteInit))
  {
  }

  lemma Initiates(s: State, m: map<Uuid, Part>, u: Uuid, last: bool) returns (s': State)
    requires Party(s, m) && u in m && m[u] == None
    requires last <==> forall v :: v in m && v != u ==> m[v] == Some(VoteInit)
    ensures Goes(s, Initiate(u, 0), s') && s'.aborts == s.aborts && s'.issued == s.issued
    ensures Party(s', if last then Set(m, Some(Performing)) else m[u := Some(VoteInit)])
    ensures Hears(Step(s, Initiate(u, 0)).out, u, 0) == if last then [Commence(0, s.nextSeq)] else []
  {
    hide Inv, CheckInitiate, Party, Hears, Set;
    PartyKnown(s, m, u);
    var i := s.clients[u];
    var i' := i.(conn := Running, coll := i.coll[0 := VoteInit]);
    var s1 := SetInfo(s, u, i');
    VotedInv(s, u);
    VotesToStart(i, u);
    Takes(s, m, u, i', Some(VoteInit));
    CheckInitiateInv(s1, 0, 0);
    s' := CheckInitiate(s1, 0, 0).state;
    HearsNone(u, 0);
    if last {
      Commencing(s1, m[u := Some(VoteInit)], u);
      assert Set(m[u := Some(VoteInit)], Some(Performing)) == Set(m, Some(Performing)) by { SetSame(m, u, Some(VoteInit), Some(Performing)); }
    } else {
      var v :| v in m && v != u && m[v] != Some(VoteInit);
      assert m[u := Some(VoteInit)][v] == m[v];
      PartyAll(s1, m[u := Some(VoteInit)], VoteInit);
      NotStarting(s1);
    }
  }

  lemma SetSame(m: map<Uuid, Part>, u: Uuid, p: Part, q: Part)
    requires u in m
    ensures Set(m[u := p], q) == Set(m, q)
  {
  }

  lemma NotStarting(s: State)
    ensures !AllInColl(s, 0, 0, VoteInit) ==> CheckInitiate(s, 0, 0) == Stay(s)
  {
    hide AllInColl;
  }

  lemma VotedInv(s: State, u: Uuid)
    requires Inv(s) && u in s.clients && Guest(s.clients[u], u, None)
    ensures var i := s.clients[u]; Inv(SetInfo(s, u, i.(conn := Running, coll := i.coll[0 := VoteInit])))
  {
    hide Inv;
    EachClientOk(s, u);
    VoteInitQuiet(s.clients[u], 0);
    QuietInv(s, u, s.clients[u].(conn := Running, coll := s.clients[u].coll[0 := VoteInit]));
  }

  lemma Finishes(i: Info, u: Uuid)
    requires Guest(i, u, Some(Performing))
    ensures Guest(i.(coll := i.coll[0 := VoteDone]), u, Some(VoteDone)) && InColl(i, 0, Performing)
  {
  }

  lemma DoneInv(s: State, u: Uuid)
    requires Inv(s) && u in s.clients && Guest(s.clients[u], u, Some(Performing))
    ensures var i := s.clients[u]; Inv(SetInfo(s, u, i.(coll := i.coll[0 := VoteDone])))
  {
    hide Inv;
    EachClientOk(s, u);
    VoteDoneQuiet(s.clients[u], 0);
    QuietInv(s, u, s.clients[u].(coll := s.clients[u].coll[0 := VoteDone]));
  }

  lemma NotEnding(s: State)
    ensures !AllInColl(s, 0, 0, VoteDone) ==> CheckComplete(s, 0, 0) == Stay(s)
  {
    hide AllInColl;
  }

  /** Marking changes nothing else. */
  lemma Marks(s: State, m: map<Uuid, Part>)
    requires Party(s, m)
    ensures
      var o := MarkAborted(s, 0, 0);
      o.Next? && Party(o.state, m) && (0, 0) in o.state.aborts && o.state.issued == s.issued
  {
    hide Inv, Guest, Runners;
    MarkAbortedInv(s, 0, 0);
  }

  /** A peer reports failure while another one is still performing. */
  lemma Fails(s: State, m: map<Uuid, Part>, u: Uuid, v: Uuid) returns (s': State)
    requires Party(s, m) && u in m && v in m && u != v && m[u] == Some(Performing) == m[v]
    ensures Goes(s, Complete(u, 0, true), s') && Party(s', m[u := Some(VoteDone)])
    ensures (0, 0) in s'.aborts && s'.issued == s.issued
  {
    hide Inv, CheckComplete, MarkAborted, Party;
    PartyKnown(s, m, u);
    var i := s.clients[u];
    DoneInv(s, u);
    Finishes(i, u);
    var m' := m[u := Some(VoteDone)];
    var s1 := SetInfo(s, u, i.(coll := i.coll[0 := VoteDone]));
    Takes(s, m, u, i.(coll := i.coll[0 := VoteDone]), Some(VoteDone));
    Marks(s1, m');
    s' := MarkAborted(s1, 0, 0).state;
    PartyAll(s', m', VoteDone);
    assert m'[v] == m[v];
    NotEnding(s');
  }

  /** The only peer completes an operation that is marked: it is told that the operation is over, and nothing else. */
  lemma Starves(s: State, u: Uuid)
    requires Party(s, map[u := Some(Performing)]) && (0, 0) in s.aborts
    ensures var e := Complete(u, 0, false);
      MasterSpec.Legal(s, e) && Step(s, e).Next? && Hears(Step(s, e).out, u, 0) == [Completed(0)]
  {
    hide Inv, CheckComplete, Party, Hears, Step, Guest, MasterSpec.Legal;
    var m := map[u := Some(Performing)];
    PartyKnown(s, m, u);
    Completes(s, u);
    var i := s.clients[u];
    DoneInv(s, u);
    Finishes(i, u);
    var s1 := SetInfo(s, u, i.(coll := i.coll[0 := VoteDone]));
    Takes(s, m, u, i.(coll := i.coll[0 := VoteDone]), Some(VoteDone));
    EndsMarked(s1, u, m[u := Some(VoteDone)]);
  }

  lemma Completes(s: State, u: Uuid)
    requires u in s.byAddr && s.byAddr[u] == u && u in s.clients && Guest(s.clients[u], u, Some(Performing))
    ensures MasterSpec.Legal(s, Complete(u, 0, false))
    ensures
      var i := s.clients[u];
      Step(s, Complete(u, 0, false)) == CheckComplete(SetInfo(s, u, i.(coll := i.coll[0 := VoteDone])), 0, 0)
  {
    hide CheckComplete, SetInfo;
    var i := s.clients[u];
    var o := CheckComplete(SetInfo(s, u, i.(coll := i.coll[0 := VoteDone])), 0, 0);
    if o.Next? { assert [] + o.out == o.out; }
  }

  lemma EndsMarked(s: State, u: Uuid, m: map<Uuid, Part>)
    requires Party(s, m) && u in m && (forall v :: v in m ==> m[v] == Some(VoteDone)) && (0, 0) in s.aborts
    ensures CheckComplete(s, 0, 0).Next? && Hears(CheckComplete(s, 0, 0).out, u, 0) == [Completed(0)]
  {
    hide Inv, Guest, Hears, AllInColl, Runners, Concluded;
    PartyAll(s, m, VoteDone);
    PartyView(s, m);
    CheckCompleteInv(s, 0, 0);
    MembersRunning(s, 0, 0, VoteDone);
    HearsEnd(s, 0, 0, u, true);
  }

  // The two departures ------------------------------------------------------------------------------

  /** While somebody performs, a departure opens no phase, ends none and touches no other round. */
  lemma NothingElse(s: State, v: Uuid)
    requires Inv(s) && v in s.clients && Guest(s.clients[v], v, Some(Performing))
    ensures CheckEstablish(s) == Stay(s) && !P2PConsensus(s.(dropped := true))
  {
    hide CheckEstablish, VotesOk, StrategiesOk, MeteredOk, Addresses;
    assert s.clients[v].conn == Running;
    NothingOpens(s, v);
    forall r | r in s.clients ensures !Reported(s.clients[r].conn) { assert PairOk(s.clients[r], s.clients[v]); }
  }

  lemma Resting(s: State, v: Uuid)
    requires Inv(s) && v in s.clients && Guest(s.clients[v], v, Some(Performing))
    ensures CheckSync(s, 0, NoMask) == Stay(s) && CheckSynced(s, 0) == Stay(s)
  {
    hide Inv, Votes;
    CheckSyncInv(s, 0, NoMask);
    CheckSyncedInv(s, 0);
    assert v in Members(s, 0) && v !in In(s, 0, VoteSynced);
  }

  lemma Forgets(s: State, m: map<Uuid, Part>)
    requires Party(s, m)
    ensures
      var o := CheckPending(s);
      o.Next? && Party(o.state, m) && o.state.aborts == s.aborts && o.state.issued == s.issued
  {
    hide Inv, PendingConsensus, Everyone, Guest, ResetPendingAll;
    CheckPendingInv(s);
    Resets(s);
    ResetFields(s);
    var s' := ResetPendingAll(s);
    forall u | u in m ensures Guest(s'.clients[u], u, m[u]) { StillGuest(s.clients[u], s'.clients[u], u, m[u]); }
  }

  lemma ResetFields(s: State)
    ensures ResetPendingAll(s).aborts == s.aborts && ResetPendingAll(s).issued == s.issued
  {
  }

  lemma StillGuest(i: Info, j: Info, u: Uuid, p: Part)
    requires Guest(i, u, p) && j == i.(pending := j.pending)
    ensures Guest(j, u, p)
  {
  }

  lemma LeaveIssued(s: State, u: Uuid)
    requires u in s.clients
    ensures Leave(s, u).clients == s.clients - {u} && Leave(s, u).aborts == s.aborts && Leave(s, u).issued == s.issued
  {
    hide Votes;
  }

  lemma Departs(s: State, m: map<Uuid, Part>, u: Uuid, v: Uuid)
    requires Party(s, m) && u in m && v in m && u != v && m[v] == Some(Performing)
    ensures
      u in s.clients && var o := Departed(s, u, NoMask);
      o.Next? && Party(o.state, m - {u}) && o.state.aborts == s.aborts && o.state.issued == s.issued
  {
    hide Inv, Leave, CheckEstablish, CheckPending, CheckSync, CheckSynced, P2PConsensus, Guest;
    GuestGroup(s.clients[u], u, m[u]);
    LeaveInv(s, u);
    LeaveIssued(s, u);
    var s1 := Leave(s, u);
    NothingElse(s1, v);
    var s2 := s1.(dropped := true);
    DroppedInv(s1, true);
    Forgets(s2, m - {u});
    Resting(CheckPending(s2).state, v);
  }

  lemma Unmoved(s: State, m: map<Uuid, Part>, v: Uuid)
    requires Party(s, m) && v in m && m[v] == Some(Performing) && (0, 0) in s.aborts
    ensures Recheck(s, 0, 0) == Stay(s)
  {
    hide Inv, Guest, CheckInitiate, CheckComplete;
    PartyAll(s, m, VoteInit);
    PartyAll(s, m, VoteDone);
    NotStarting(s);
    NotEnding(s);
  }

  /** The first one leaves a marked operation that another one performs. */
  lemma FirstLeaves(s: State, m: map<Uuid, Part>, u: Uuid, v: Uuid) returns (s': State)
    requires Party(s, m) && m.Keys == {u, v} && u != v && m[v] == Some(Performing) && (0, 0) in s.aborts
    ensures Goes(s, Disconnect(u, NoMask, [0]), s') && Party(s', m - {u}) && (0, 0) in s'.aborts && s'.issued == s.issued
  {
    hide Inv, Departed, Recheck, Party, Guest;
    PartyKnown(s, m, u);
    Departs(s, m, u, v);
    s' := Departed(s, u, NoMask).state;
    Unmoved(s', m - {u}, v);
    OneTag(s', m - {u}, v);
    assert s.clients[u].group == 0 by { GuestGroup(s.clients[u], u, m[u]); }
    RecheckOne(s');
  }

  lemma GuestGroup(i: Info, u: Uuid, p: Part)
    requires Guest(i, u, p)
    ensures i.group == 0
  {
  }

  lemma RecheckOne(s: State)
    requires Recheck(s, 0, 0) == Stay(s)
    ensures RecheckAll(s, 0, [0]) == Stay(s)
  {
    hide Recheck;
    assert [0][1..] == [];
  }

  lemma OneTag(s: State, m: map<Uuid, Part>, v: Uuid)
    requires Party(s, m) && m.Keys == {v} && m[v] == Some(Performing)
    ensures (set t: Tag | t in [0]) == OngoingTags(s, 0)
  {
    hide Inv;
    assert s.clients[v].coll == map[0 := Performing] && s.clients[v].group == 0;
    assert 0 in s.clients[v].coll;
    forall t | t in OngoingTags(s, 0) ensures t == 0 { }
  }

  lemma OpensNobody(s: State)
    requires s.clients == map[]
    ensures
      var o := CheckEstablish(s);
      o.Next? && o.state.clients == map[] && o.state.aborts == s.aborts && o.state.issued == s.issued
  {
    hide Consensus, OpenP2P;
    OpenEmpty(s, true);
    OpenEmpty(OpenP2P(s, true).(dropped := false), false);
    OpenEmpty(s, false);
  }

  lemma OpenEmpty(s: State, accept: bool)
    ensures s.clients == map[] ==> OpenP2P(s, accept).clients == map[]
    ensures OpenP2P(s, accept).aborts == s.aborts && OpenP2P(s, accept).issued == s.issued
  {
  }

  lemma NobodyWaits(s: State)
    requires s.clients == map[] && Inv(s)
    ensures
      var o := CheckSynced(s, 0);
      && CheckP2P(s) == Stay(s) && CheckPending(s) == Stay(s) && CheckSync(s, 0, NoMask) == Stay(s)
      && o.Next? && o.state.clients == map[] && o.state.aborts == s.aborts && o.state.issued == s.issued
      && o.state.dropped == s.dropped
  {
    hide Inv, Votes;
    CheckSyncedInv(s, 0);
  }

  lemma LastDeparts(s: State, m: map<Uuid, Part>, u: Uuid)
    requires Party(s, m) && m.Keys == {u}
    ensures
      u in s.clients && var o := Departed(s, u, NoMask);
      && o.Next? && o.state.clients == map[] && o.state.aborts == s.aborts && o.state.issued == s.issued && o.state.dropped
      && Inv(o.state)
  {
    hide Inv, Leave, CheckEstablish, CheckP2P, CheckPending, CheckSync, CheckSynced, Guest;
    GuestGroup(s.clients[u], u, m[u]);
    LeaveInv(s, u);
    LeaveIssued(s, u);
    var s1 := Leave(s, u);
    assert s1.clients == map[];
    OpensNobody(s1);
    CheckEstablishInv(s1);
    DroppedInv(CheckEstablish(s1).state, true);
    NobodyWaits(CheckEstablish(s1).state.(dropped := true));
    DepartedInv(s, u, NoMask);
  }

  lemma LastLeaves(s: State, m: map<Uuid, Part>, u: Uuid) returns (s': State)
    requires Party(s, m) && m.Keys == {u}
    ensures Goes(s, Disconnect(u, NoMask, []), s') && Inv(s') && s'.clients == map[]
    ensures s'.aborts == s.aborts && s'.issued == s.issued && s'.dropped
    ensures (0, 0) in s.aborts ==> Orphaning(s, Disconnect(u, NoMask, []), 0, 0)
  {
    hide Inv, Departed, Guest, Party;
    PartyKnown(s, m, u);
    PartyView(s, m);
    LastDeparts(s, m, u);
    s' := Departed(s, u, NoMask).state;
    assert OngoingTags(s', s.clients[u].group) == {};
    assert Departed(s, u, NoMask).out + [] == Departed(s, u, NoMask).out;
  }

  // The newcomer ------------------------------------------------------------------------------------

  /** A peer that is alone with the master, in the phase that establishes its connections or just out of it. */
  ghost predicate Solo(s: State, u: Uuid, c: Conn) {
    && Inv(s) && s.clients.Keys == {u} && s.clients[u].phase == Accepted && s.clients[u].group == 0
    && s.clients[u].addr == u && s.clients[u].conn == c && s.clients[u].coll == map[]
  }

  lemma SoloKnown(s: State, u: Uuid, c: Conn)
    requires Solo(s, u, c)
    ensures u in s.byAddr && s.byAddr[u] == u && u in s.clients
    ensures c == Idle ==> Party(s, map[u := None])
  {
    hide Clients, VotesOk, StrategiesOk, MeteredOk;
  }

  lemma ComesFirst(s: State, u: Uuid) returns (s': State)
    requires Inv(s) && s.clients == map[] && u !in s.issued
    ensures Goes(s, Register(u, true, 0, u), s') && Solo(s', u, Connecting) && s'.aborts == s.aborts
    ensures s'.dropped == s.dropped && s'.issued == s.issued + {u}
  {
    hide Inv, Enroll, CheckEstablish;
    EmptyState(s);
    EnrollFirst(s, u, true, 0, u);
    EnrollInv(s, u, true, 0, u);
    s' := FirstState(s, u, Info(Registered, Idle, u, true, 0, map[], false));
    assert |s'.byAddr| == 1;
  }

  lemma SoloCloses(s: State, u: Uuid)
    requires Solo(s, u, Waiting)
    ensures
      var o := CheckP2P(s);
      && o.Next? && o.state.aborts == s.aborts && o.state.issued == s.issued
      && Solo(o.state, u, if s.dropped then ConnectFailed else Idle)
      && o.out == [Cast({u}, Established(!s.dropped))]
  {
    hide Inv;
    CheckP2PInv(s);
    CheckP2PHalts(s);
    if CheckP2P(s).Next? { assert Participants(CheckP2P(s).state) == {u}; }
  }

  lemma SoloReports(s: State, u: Uuid) returns (s': State)
    requires Solo(s, u, Connecting)
    ensures Goes(s, ReportP2P(u, true, NewRing), s') && s'.aborts == s.aborts && s'.issued == s.issued
    ensures Solo(s', u, if s.dropped then ConnectFailed else Idle)
    ensures Step(s, ReportP2P(u, true, NewRing)).out == [Cast({u}, Established(!s.dropped))]
  {
    hide Inv, CheckP2P;
    SoloKnown(s, u, Connecting);
    RetryRace.ReportedInv(s, u, true);
    var s1 := SetConn(s, u, Waiting);
    SoloCloses(s1, u);
    s' := CheckP2P(s1).state;
  }

  /** Alone, a request opens the phase at once, and forgets that somebody left. */
  lemma SoloRequests(s: State, u: Uuid, c: Conn) returns (s': State)
    requires Solo(s, u, c) && (c == Idle || c == ConnectFailed)
    ensures Goes(s, RequestP2P(u, true), s') && s'.aborts == s.aborts && !s'.dropped && Solo(s', u, Connecting)
  {
    hide Inv, CastVote, CheckEstablish;
    SoloKnown(s, u, c);
    SoloVotes(s, u, c);
    var voted := CastVote(s, u, ToAccept).state;
    SoloOpens(voted, u);
    s' := CheckEstablish(voted).state;
  }

  lemma SoloVotes(s: State, u: Uuid, c: Conn)
    requires Solo(s, u, c) && (c == Idle || c == ConnectFailed)
    ensures
      var o := CastVote(s, u, ToAccept);
      o.Next? && o.state.aborts == s.aborts && Solo(o.state, u, VoteAccept)
  {
    hide Addresses, VotesOk, StrategiesOk, MeteredOk, PairOk;
    assert ClientOk(s.clients[u]);
    CastVoteInv(s, u, ToAccept);
    hide Inv;
  }

  lemma SoloOpens(s: State, u: Uuid)
    requires Solo(s, u, VoteAccept)
    ensures
      var o := CheckEstablish(s);
      o.Next? && o.state.aborts == s.aborts && !o.state.dropped && Solo(o.state, u, Connecting)
  {
    hide Inv, Consensus, InConn;
    EverybodyVoted(s);
    OpenP2PInv(s, true);
    var o := OpenP2P(s, true).(dropped := false);
    assert Solo(o, u, Connecting);
    StillOpen(o, u, VoteNoNew);
  }

  // The run -----------------------------------------------------------------------------------------

  lemma PartyStarts() returns (s: State)
    ensures After(OrphanStory(), 6, s) && Party(s, map[1 := None, 2 := None]) && s.issued == {1, 2}
  {
    hide After, Inv;
    s := RetryRace.TwoAccepted();
    SamePrefix(RetryRace.PairStory(), OrphanStory(), 6, s);
    assert s.issued == {1, 2};
    forall u | u in s.clients ensures Guest(s.clients[u], u, None) { EachClientOk(s, u); }
  }

  lemma BothPerform() returns (s: State)
    ensures After(OrphanStory(), 8, s) && Party(s, map[1 := Some(Performing), 2 := Some(Performing)]) && s.issued == {1, 2}
  {
    hide After, Goes, Party, Inv, Set, Step, Hears;
    var a := PartyStarts();
    var m := map[1 := None, 2 := None];
    assert 2 in m && m[2] == None;
    var b := Initiates(a, m, 1, false);
    Extends(OrphanStory(), 6, a, b);
    s := Initiates(b, m[1 := Some(VoteInit)], 2, true);
    Extends(OrphanStory(), 7, b, s);
    SetTwo();
  }

  lemma SetTwo()
    ensures Set(map[1 := None, 2 := None][1 := Some(VoteInit)], Some(Performing)) == map[1 := Some(Performing), 2 := Some(Performing)]
  {
  }

  lemma OneLeft() returns (s: State)
    ensures After(OrphanStory(), 10, s) && Party(s, map[2 := Some(Performing)]) && (0, 0) in s.aborts && s.issued == {1, 2}
  {
    hide After, Goes, Party, Inv;
    var c := BothPerform();
    var m := map[1 := Some(Performing), 2 := Some(Performing)];
    var d := Fails(c, m, 1, 2);
    Extends(OrphanStory(), 8, c, d);
    m := m[1 := Some(VoteDone)];
    s := FirstLeaves(d, m, 1, 2);
    Extends(OrphanStory(), 9, d, s);
    assert m - {1} == map[2 := Some(Performing)];
  }

  lemma MarkLeftBehind() returns (s: State, s': State)
    ensures After(OrphanStory(), 10, s) && Orphaning(s, OrphanStory()[10], 0, 0)
    ensures After(OrphanStory(), 11, s') && Inv(s') && s'.clients == map[] && (0, 0) in s'.aborts && s'.issued == {1, 2}
  {
    hide After, Goes, Party, Inv, Orphaning;
    s := OneLeft();
    s' := LastLeaves(s, map[2 := Some(Performing)], 2);
    Extends(OrphanStory(), 10, s, s');
  }

  lemma NewcomerReady() returns (s: State)
    ensures After(OrphanStory(), 15, s) && Party(s, map[3 := None]) && (0, 0) in s.aborts
  {
    hide After, Goes, Party, Inv, Solo, Orphaning;
    var x, a := MarkLeftBehind();
    var b := ComesFirst(a, 3);
    Extends(OrphanStory(), 11, a, b);
    var c := SoloReports(b, 3);
    Extends(OrphanStory(), 12, b, c);
    var d := SoloRequests(c, 3, if b.dropped then ConnectFailed else Idle);
    Extends(OrphanStory(), 13, c, d);
    s := SoloReports(d, 3);
    Extends(OrphanStory(), 14, d, s);
    SoloKnown(s, 3, Idle);
  }

  /** What `u` is told about operation 0 in a step. */
  ghost predicate Tells(s: State, e: Event, u: Uuid, heard: seq<Body>) {
    Step(s, e).Next? && Hears(Step(s, e).out, u, 0) == heard
  }

  /** The run: the mark that the first two peers leave behind makes the third one's operation commence and complete
      without the abort packet that the client waits for. */
  lemma OrphanStarves() returns (s: State, s': State, n: nat)
    ensures LegalRun(OrphanStory()) && Run(OrphanStory()).Next?
    ensures After(OrphanStory(), 15, s) && Tells(s, OrphanStory()[15], 3, [Commence(0, n)])
    ensures After(OrphanStory(), 16, s') && Tells(s', OrphanStory()[16], 3, [Completed(0)])
  {
    hide Goes, Party, Inv, Hears, Step, MasterSpec.Legal, LegalRun, Run, After, Set;
    s := NewcomerReady();
    var m := map[3 := None];
    s' := Initiates(s, m, 3, true);
    Extends(OrphanStory(), 15, s, s');
    n := s.nextSeq;
    assert Set(m, Some(Performing)) == map[3 := Some(Performing)] by { SetOne(); }
    GoesNext(s, OrphanStory()[15], s');
    Starves(s', 3);
    WholeStory(s');
  }

  lemma SetOne()
    ensures Set(map[3 := None], Some(Performing)) == map[3 := Some(Performing)]
  {
  }

  lemma GoesNext(s: State, e: Event, s': State)
    requires Goes(s, e, s')
    ensures Step(s, e).Next?
  {
  }

  lemma WholeStory(s: State)
    requires After(OrphanStory(), 16, s) && MasterSpec.Legal(s, OrphanStory()[16]) && Step(s, OrphanStory()[16]).Next?
    ensures LegalRun(OrphanStory()) && Run(OrphanStory()).Next?
  {
    hide Step, MasterSpec.Legal;
    var story := OrphanStory();
    assert |story| == 17 && story[..|story| - 1] == story[..16];
  }
}
