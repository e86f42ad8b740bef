/** What the invariant of the master means, for every run and every client behaviour. */
module MasterTheorems {
  import opened MasterSpec
  import opened MasterInv
  import opened MasterTags

  ghost predicate Reached(s: State, events: seq<Event>) {
    LegalRun(events) && Run(events).Next? && Run(events).state == s
  }

  lemma ReachedInv(s: State, events: seq<Event>)
    requires Reached(s, events)
    ensures Inv(s)
  {
    hide Inv, Possible;
    RunInv(events);
  }

  /** Phases of all accepted peers, or of all accepted peers of a group, exclude each other. */
  lemma PhaseExclusion(s: State, events: seq<Event>, u: Uuid, v: Uuid)
    requires Reached(s, events) && u in s.clients && v in s.clients && s.clients[v].phase == Accepted
    ensures InPhase(s.clients[u].conn) ==> P2PState(s.clients[v].conn)
    ensures s.clients[u].phase == Accepted && Optimizes(s.clients[u].conn) ==> Optimizes(s.clients[v].conn)
    ensures s.clients[u].phase == Accepted && s.clients[u].group == s.clients[v].group && Syncs(s.clients[u].conn) ==>
      Syncs(s.clients[v].conn)
  {
    hide LegalRun, Run, VotesOk, StrategiesOk, MeteredOk, Addresses;
    ReachedInv(s, events);
    assert PairOk(s.clients[u], s.clients[v]);
  }

  /** For each group and tag the accepted peers are either all outside the operation or all in it, and a peer is
      in the running state exactly when it has some operation. */
  lemma TagCoherence(s: State, events: seq<Event>, u: Uuid, v: Uuid, tag: Tag)
    requires Reached(s, events) && u in s.clients && v in s.clients && s.clients[u].group == s.clients[v].group
    requires s.clients[u].phase == Accepted && s.clients[v].phase == Accepted
    ensures PartOf(s.clients[u], tag) in {None, Some(VoteInit)} <==> PartOf(s.clients[v], tag) in {None, Some(VoteInit)}
    ensures s.clients[u].conn == Running <==> s.clients[u].coll != map[]
  {
    hide LegalRun, Run, VotesOk, StrategiesOk, MeteredOk, Addresses;
    ReachedInv(s, events);
    assert PairOk(s.clients[u], s.clients[v]) && ClientOk(s.clients[u]);
    assert Active(s.clients[u], tag) == Active(s.clients[v], tag);
  }

  /** The vote sets, the strategies, the address maps and the bandwidth store's peers mirror the clients. */
  lemma Bookkeeping(s: State, events: seq<Event>)
    requires Reached(s, events)
    ensures forall b :: Votes(s, b) == (set u | u in s.clients && b in Standing(s.clients[u]))
    ensures s.strategies.Keys == (set u | u in s.clients && InRound(s.clients[u].conn))
    ensures forall a :: a in s.byAddr ==> s.byAddr[a] in s.clients && s.clients[s.byAddr[a]].addr == a
    ensures forall u :: u in s.clients ==> s.clients[u].addr in s.byAddr && s.byAddr[s.clients[u].addr] == u
    ensures s.metered == (set u | u in s.clients && s.clients[u].phase == Accepted)
    ensures forall u, v :: u in s.clients && v in s.clients ==> s.clients[u].local == s.clients[v].local
  {
    hide LegalRun, Run;
    ReachedInv(s, events);
    forall b
      ensures Votes(s, b) == (set u | u in s.clients && b in Standing(s.clients[u]))
    {
      forall u ensures u in Votes(s, b) <==> u in s.clients && b in Standing(s.clients[u]) { }
    }
    forall u, v | u in s.clients && v in s.clients
      ensures s.clients[u].local == s.clients[v].local
    {
      assert PairOk(s.clients[u], s.clients[v]);
    }
  }

  lemma VotersAre(s: State, b: Ballot)
    requires Inv(s) && (b == ToAccept || b == ToEstablish || b == ToOptimize || b == ToEndOptimize)
    ensures Votes(s, b) == Everyone(s) <==> Unanimous(s, VoteConn(b))
  {
    hide PairOk, StrategiesOk, MeteredOk, Addresses;
    forall u
      ensures u in Votes(s, b) <==> u in s.clients && s.clients[u].conn == VoteConn(b)
    {
      assert u in Votes(s, b) <==> u in s.clients && b in Standing(s.clients[u]);
    }
    forall u | u in s.clients && s.clients[u].conn == VoteConn(b)
      ensures u in Everyone(s)
    {
      assert ClientOk(s.clients[u]);
    }
  }

  /** The test of the master, which only compares numbers of clients, is whether every accepted peer has a standing
      vote. */
  lemma ConsensusIsEverybodysVote(s: State, events: seq<Event>, b: Ballot)
    requires Reached(s, events) && (b == ToAccept || b == ToEstablish || b == ToOptimize || b == ToEndOptimize)
    ensures Consensus(s, VoteConn(b)) <==> Votes(s, b) == Everyone(s)
  {
    hide LegalRun, Run, Clients, VotesOk, StrategiesOk, MeteredOk, Addresses, Consensus, Unanimous;
    ReachedInv(s, events);
    ConsensusIsUnanimity(s, VoteConn(b));
    VotersAre(s, b);
  }

  /** The same for the shared-state rounds of a group, whose counters always fit the vote sets. */
  lemma RoundCounters(s: State, events: seq<Event>, g: Group)
    requires Reached(s, events)
    ensures |In(s, g, VoteSync)| == |Members(s, g)| <==> Votes(s, ToSync(g)) == Members(s, g)
    ensures |In(s, g, VoteSynced)| == |Members(s, g)| <==> Votes(s, ToEndSync(g)) == Members(s, g)
    ensures |In(s, g, VoteSync)| == |Votes(s, ToSync(g))| && |In(s, g, VoteSynced)| == |Votes(s, ToEndSync(g))|
  {
    hide LegalRun, Run, Inv, In, Members, Votes;
    ReachedInv(s, events);
    SyncVoters(s, g);
    SubsetCount(In(s, g, VoteSync), Members(s, g));
    SubsetCount(In(s, g, VoteSynced), Members(s, g));
  }

  // Collective operations ---------------------------------------------------------------------------

  predicate Sent(s: State, e: Event, w: Uuid) {
    !e.Register? && e.addr in s.byAddr && s.byAddr[e.addr] == w
  }

  /** An operation commences for all accepted peers of the group at once, each of which has voted for it: before,
      or with the packet that completes the vote. Its number was never used before. */
  lemma CommenceTogether(s: State, events: seq<Event>, e: Event, g: Group, tag: Tag, u: Uuid, n: nat)
    requires Reached(s, events) && MasterSpec.Legal(s, e) && Step(s, e).Next?
    requires u in Members(Step(s, e).state, g) && Commence(tag, n) in Hears(Step(s, e).out, u, tag)
    ensures s.nextSeq <= n < Step(s, e).state.nextSeq
    ensures forall w :: w in Members(Step(s, e).state, g) ==>
      && Hears(Step(s, e).out, w, tag) == Hears(Step(s, e).out, u, tag)
      && PartOf(Step(s, e).state.clients[w], tag) == Some(Performing)
      && w in s.clients && (Sent(s, e, w) || PartOf(s.clients[w], tag) == Some(VoteInit))
  {
    hide LegalRun, Run, Inv, Step, MasterSpec.Legal, Hears, AfterInitiate, AfterComplete, AfterLeave, MayInitiate;
    ReachedInv(s, events);
    var m := StepFollows(s, e, g, tag);
    var c := Meaning(s, e, g, tag, m);
    var s' := Step(s, e).state;
    assert Commence(tag, n) in c.heard;
    CommenceMeans(s, e, g, tag, m, n);
    MembersKeys(s', g, tag);
    MembersKeys(s, g, tag);
    forall w | w in Members(s', g)
      ensures PartOf(s'.clients[w], tag) == Some(Performing)
      ensures w in s.clients && (Sent(s, e, w) || PartOf(s.clients[w], tag) == Some(VoteInit))
    {
      assert w in c.view.parts;
      assert ViewOf(s', g, tag).parts[w] == c.view.parts[w];
    }
  }

  lemma CommenceMeans(s: State, e: Event, g: Group, tag: Tag, m: nat, n: nat)
    requires Commence(tag, n) in Meaning(s, e, g, tag, m).heard
    ensures
      var c := Meaning(s, e, g, tag, m);
      var v := ViewOf(s, g, tag);
      && n == m && Commence(tag, m) in c.heard && All(c.view, Some(Performing))
      && forall w :: w in c.view.parts ==> w in Members(s, g) && (Sent(s, e, w) || v.parts[w] == Some(VoteInit))
  {
    hide AfterInitiate, AfterComplete, AfterLeave, MayInitiate, ViewOf, Members, All, InColl;
    var v := ViewOf(s, g, tag);
    MembersKeys(s, g, tag);
    if !e.Register? && e.addr in s.byAddr {
      var u := s.byAddr[e.addr];
      if e.Complete? { CompleteSilentStart(v, u, tag, e.aborted, n); }
      if e.Initiate? { InitiateMeans(v, u, tag, m, n); }
      if e.Disconnect? { LeaveMeans(v, u, tag, m, n); }
    }
  }

  lemma CompleteSilentStart(v: View, u: Uuid, tag: Tag, aborted: bool, n: nat)
    ensures Commence(tag, n) !in AfterComplete(v, u, tag, aborted).heard
  {
  }

  lemma InitiateMeans(v: View, u: Uuid, tag: Tag, m: nat, n: nat)
    requires Commence(tag, n) in AfterInitiate(v, u, tag, m).heard
    ensures
      var c := AfterInitiate(v, u, tag, m);
      && n == m && Commence(tag, m) in c.heard && All(c.view, Some(Performing))
      && forall w :: w in c.view.parts ==> w == u || (w in v.parts && v.parts[w] == Some(VoteInit))
  {
  }

  lemma LeaveMeans(v: View, u: Uuid, tag: Tag, m: nat, n: nat)
    requires Commence(tag, n) in AfterLeave(v, u, tag, m).heard
    ensures
      var c := AfterLeave(v, u, tag, m);
      && n == m && Commence(tag, m) in c.heard && All(c.view, Some(Performing))
      && forall w :: w in c.view.parts ==> w in v.parts && v.parts[w] == Some(VoteInit)
  {
    var rest := Without(v, u);
    assert AfterRecheck(rest, tag, m) == AfterLeave(v, u, tag, m);
    assert Begin(rest, tag, m).heard == [Commence(tag, m)];
    assert AfterRecheck(rest, tag, m).heard[0] == Commence(tag, m);
  }

  /** An operation ends for all members at once, and only after each of them has voted it complete. */
  lemma CompletedTogether(s: State, events: seq<Event>, e: Event, g: Group, tag: Tag, u: Uuid)
    requires Reached(s, events) && MasterSpec.Legal(s, e) && Step(s, e).Next?
    requires u in Members(Step(s, e).state, g) && Completed(tag) in Hears(Step(s, e).out, u, tag)
    ensures forall w :: w in Members(Step(s, e).state, g) ==>
      && Hears(Step(s, e).out, w, tag) == Hears(Step(s, e).out, u, tag)
      && PartOf(Step(s, e).state.clients[w], tag) == None
      && w in s.clients && (Sent(s, e, w) || PartOf(s.clients[w], tag) == Some(VoteDone))
  {
    hide LegalRun, Run, Inv, Step, MasterSpec.Legal, Hears, AfterInitiate, AfterComplete, AfterLeave, MayInitiate;
    ReachedInv(s, events);
    var m := StepFollows(s, e, g, tag);
    var c := Meaning(s, e, g, tag, m);
    var s' := Step(s, e).state;
    assert Completed(tag) in c.heard;
    CompletedMeans(s, e, g, tag, m);
    MembersKeys(s', g, tag);
    MembersKeys(s, g, tag);
    forall w | w in Members(s', g)
      ensures PartOf(s'.clients[w], tag) == None
      ensures w in s.clients && (Sent(s, e, w) || PartOf(s.clients[w], tag) == Some(VoteDone))
    {
      assert w in c.view.parts;
      assert ViewOf(s', g, tag).parts[w] == c.view.parts[w];
    }
  }

  lemma CompletedMeans(s: State, e: Event, g: Group, tag: Tag, m: nat)
    requires Completed(tag) in Meaning(s, e, g, tag, m).heard
    ensures
      var c := Meaning(s, e, g, tag, m);
      var v := ViewOf(s, g, tag);
      && All(c.view, None)
      && forall w :: w in c.view.parts ==> w in Members(s, g) && (Sent(s, e, w) || v.parts[w] == Some(VoteDone))
  {
    hide AfterInitiate, AfterComplete, AfterLeave, MayInitiate, ViewOf, Members, All, InColl;
    var v := ViewOf(s, g, tag);
    MembersKeys(s, g, tag);
    if !e.Register? && e.addr in s.byAddr {
      var u := s.byAddr[e.addr];
      if e.Initiate? { InitiateEndsNothing(v, u, tag, m); }
      if e.Complete? { CompleteEnds(v, u, tag, e.aborted); }
      if e.Disconnect? { LeaveEnds(v, u, tag, m); }
    }
  }

  lemma InitiateEndsNothing(v: View, u: Uuid, tag: Tag, m: nat)
    ensures Completed(tag) !in AfterInitiate(v, u, tag, m).heard
  {
  }

  lemma CompleteEnds(v: View, u: Uuid, tag: Tag, aborted: bool)
    requires Completed(tag) in AfterComplete(v, u, tag, aborted).heard
    ensures
      var c := AfterComplete(v, u, tag, aborted);
      All(c.view, None) && forall w :: w in c.view.parts ==> w == u || (w in v.parts && v.parts[w] == Some(VoteDone))
  {
  }

  lemma LeaveEnds(v: View, u: Uuid, tag: Tag, m: nat)
    requires Completed(tag) in AfterLeave(v, u, tag, m).heard
    ensures
      var c := AfterLeave(v, u, tag, m);
      All(c.view, None) && forall w :: w in c.view.parts ==> w in v.parts && v.parts[w] == Some(VoteDone)
  {
    var rest := Without(v, u);
    var w :| w in rest.parts && rest.parts[w] != None;
    assert Begin(rest, tag, m).view.parts[w] == Some(VoteDone);
  }

  /** A member that was in an operation is out of it only after the completion packet: so the next operation with
      the same tag cannot commence before every survivor voted the previous one complete. */
  lemma OutOnlyByCompletion(s: State, events: seq<Event>, e: Event, g: Group, tag: Tag, u: Uuid)
    requires Reached(s, events) && MasterSpec.Legal(s, e) && Step(s, e).Next?
    requires u in Members(s, g) && u in Members(Step(s, e).state, g)
    requires Active(s.clients[u], tag) && !Active(Step(s, e).state.clients[u], tag)
    ensures Completed(tag) in Hears(Step(s, e).out, u, tag)
  {
    hide LegalRun, Run, Inv, Step, MasterSpec.Legal, Hears, Meaning;
    ReachedInv(s, events);
    var m := StepFollows(s, e, g, tag);
    var c := Meaning(s, e, g, tag, m);
    MembersKeys(s, g, tag);
    assert u in c.view.parts;
    assert ViewOf(Step(s, e).state, g, tag).parts[u] == c.view.parts[u];
    StaysActive(s, e, g, tag, m, u);
  }

  lemma StaysActive(s: State, e: Event, g: Group, tag: Tag, m: nat, u: Uuid)
    requires u in Members(s, g) && Active(s.clients[u], tag)
    ensures
      var c := Meaning(s, e, g, tag, m);
      u in c.view.parts && Completed(tag) !in c.heard ==> c.view.parts[u] == Some(Performing) || c.view.parts[u] == Some(VoteDone)
  {
    var v := ViewOf(s, g, tag);
    assert u in v.parts && v.parts[u] != Some(VoteInit);
  }
}
