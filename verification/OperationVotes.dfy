/** Collective operations: no vote of all members is left standing, and no operation goes on as if nothing had happened when a
    member leaves. */
module OperationVotes {
  import opened MasterSpec
  import opened MasterInv
  import opened MasterTags
  import opened MasterTheorems

  /** Not all members wait for the operation to start, nor for it to end. */
  ghost predicate AtRest(v: View) { v.parts != map[] ==> !All(v, Some(VoteInit)) && !All(v, Some(VoteDone)) }

  lemma WidenedRests(v: View, w: View)
    requires AtRest(v) && Widened(v, w)
    ensures AtRest(w)
  {
    if w.parts != map[] && v.parts.Keys == w.parts.Keys {
      assert v.parts == w.parts;
    }
    if w.parts != map[] { var u :| u in w.parts.Keys; }
  }

  lemma BeginRests(v: View, tag: Tag, n: nat)
    ensures var c := Begin(v, tag, n).view; c.parts != map[] ==> !All(c, Some(VoteInit))
  {
    var c := Begin(v, tag, n).view;
    if c.parts != map[] { var u :| u in c.parts.Keys; }
  }

  lemma FinishRests(v: View, tag: Tag)
    requires v.parts != map[] ==> !All(v, Some(VoteInit))
    ensures AtRest(Finish(v, tag).view)
  {
    var c := Finish(v, tag).view;
    if c.parts != map[] { var u :| u in c.parts.Keys; }
  }

  lemma InitiateRests(v: View, u: Uuid, tag: Tag, n: nat)
    ensures AtRest(AfterInitiate(v, u, tag, n).view)
  {
    var voted := v.(parts := v.parts[u := Some(VoteInit)]);
    BeginRests(voted, tag, n);
    assert u in voted.parts && voted.parts[u] == Some(VoteInit);
    var c := Begin(voted, tag, n).view;
    assert u in c.parts && c.parts[u] != Some(VoteDone);
  }

  lemma CompleteRests(v: View, u: Uuid, tag: Tag, aborted: bool)
    ensures AtRest(AfterComplete(v, u, tag, aborted).view)
  {
    hide Finish;
    var voted := v.(parts := v.parts[u := Some(VoteDone)]);
    var marked := if aborted then Mark(voted, tag) else Change(voted, []);
    assert marked.view.parts == voted.parts && marked.view.parts[u] == Some(VoteDone);
    FinishRests(marked.view, tag);
  }

  lemma LeaveRests(v: View, u: Uuid, tag: Tag, n: nat)
    ensures AtRest(AfterLeave(v, u, tag, n).view)
  {
    hide Begin, Finish;
    var rest := v.(parts := v.parts - {u});
    if All(rest, None) {
      if rest.parts != map[] { var w :| w in rest.parts.Keys; }
    } else {
      BeginRests(rest, tag, n);
      FinishRests(Begin(rest, tag, n).view, tag);
    }
  }

  lemma StepRests(s: State, e: Event, g: Group, tag: Tag)
    requires Inv(s) && MasterSpec.Legal(s, e) && Step(s, e).Next? && AtRest(ViewOf(s, g, tag))
    ensures AtRest(ViewOf(Step(s, e).state, g, tag))
  {
    hide Inv, Step, MasterSpec.Legal, AtRest, AfterInitiate, AfterComplete, AfterLeave, MayInitiate, InColl, ViewOf, Told;
    var n := StepFollows(s, e, g, tag);
    var v, c := ViewOf(s, g, tag), Meaning(s, e, g, tag, n);
    MembersKeys(s, g, tag);
    if !e.Register? && e.addr in s.byAddr && s.byAddr[e.addr] in s.clients {
      var u := s.byAddr[e.addr];
      if e.Initiate? { InitiateRests(v, u, tag, n); }
      if e.Complete? { CompleteRests(v, u, tag, e.aborted); }
      if e.Disconnect? {
        LeaveRests(v, u, tag, n);
        if s.clients[u].group != g { assert Without(v, u) == v by { NotThere(v, u); } }
      }
    }
    WidenedRests(c.view, ViewOf(Step(s, e).state, g, tag));
  }

  lemma NotThere(v: View, u: Uuid)
    requires u !in v.parts
    ensures Without(v, u) == v
  {
    assert v.parts - {u} == v.parts;
  }

  /** Over every run, for every group and tag: the step in which the last member votes for the start or the end of an
      operation, or the last one that has not voted leaves, acts on the vote. */
  lemma {:induction false} OperationVotesAreTaken(events: seq<Event>, g: Group, tag: Tag)
    requires LegalRun(events) && Run(events).Next?
    ensures
      var s := Run(events).state;
      Members(s, g) != {} ==> !AllInColl(s, g, tag, VoteInit) && !AllInColl(s, g, tag, VoteDone)
  {
    hide LegalRun, Run, AtRest;
    RunRests(events, g, tag);
    var s := Run(events).state;
    MembersPart(s, g, tag, VoteInit);
    MembersPart(s, g, tag, VoteDone);
    MembersKeys(s, g, tag);
    if Members(s, g) != {} { RestMeans(ViewOf(s, g, tag)); }
  }

  lemma RestMeans(v: View)
    requires AtRest(v) && v.parts.Keys != {}
    ensures !All(v, Some(VoteInit)) && !All(v, Some(VoteDone))
  {
  }

  lemma {:induction false} RunRests(events: seq<Event>, g: Group, tag: Tag)
    requires LegalRun(events) && Run(events).Next?
    ensures AtRest(ViewOf(Run(events).state, g, tag))
    decreases |events|
  {
    hide Inv, Step, MasterSpec.Legal, AtRest, ViewOf, Possible;
    if events == [] {
      StartRests(g, tag);
    } else {
      var front := events[..|events| - 1];
      RunRests(front, g, tag);
      RunInv(front);
      StepRests(Run(front).state, events[|events| - 1], g, tag);
    }
  }

  lemma StartRests(g: Group, tag: Tag)
    ensures AtRest(ViewOf(Start(), g, tag))
  {
    assert Members(Start(), g) == {};
    assert ViewOf(Start(), g, tag).parts == map[];
  }

  // Departures --------------------------------------------------------------------------------------

  lemma LeaveAborts(v: View, u: Uuid, tag: Tag, n: nat, w: Uuid)
    requires w in v.parts && w != u && v.parts[w] == Some(Performing)
    ensures
      var c := AfterLeave(v, u, tag, n);
      c.view.flag && c.heard == if v.flag then [] else [Abort(tag, true)]
  {
    var rest := v.(parts := v.parts - {u});
    assert w in rest.parts && rest.parts[w] == Some(Performing);
    assert Begin(rest, tag, n) == Change(rest, []) && Finish(rest, tag) == Change(rest, []);
    assert Any(rest, Some(Performing));
  }

  /** Over every run: when a member leaves while another one performs the operation, the operation is marked as aborted, and
      all members that stay are told so unless they have been. */
  lemma DepartureAborts(s: State, events: seq<Event>, e: Event, tag: Tag, w: Uuid)
    requires Reached(s, events) && MasterSpec.Legal(s, e) && Step(s, e).Next? && e.Disconnect? && e.addr in s.byAddr
    ensures s.byAddr[e.addr] in s.clients
    ensures
      var u := s.byAddr[e.addr];
      var g, s' := s.clients[u].group, Step(s, e).state;
      w in Members(s, g) && w != u && PartOf(s.clients[w], tag) == Some(Performing) ==>
        && (g, tag) in s'.aborts
        && forall x :: x in Members(s', g) ==> Hears(Step(s, e).out, x, tag) == if (g, tag) in s.aborts then [] else [Abort(tag, true)]
  {
    hide Inv, Run, LegalRun, Step, MasterSpec.Legal, AfterLeave, Hears;
    ReachedInv(s, events);
    assert s.byAddr[e.addr] in s.clients by { AddressKnown(s, e.addr); }
    var u := s.byAddr[e.addr];
    var g := s.clients[u].group;
    var n := StepFollows(s, e, g, tag);
    if w in Members(s, g) && w != u && PartOf(s.clients[w], tag) == Some(Performing) {
      LeaveAborts(ViewOf(s, g, tag), u, tag, n, w);
      assert Meaning(s, e, g, tag, n) == AfterLeave(ViewOf(s, g, tag), u, tag, n);
    }
  }

  lemma AddressKnown(s: State, a: Addr)
    requires Inv(s) && a in s.byAddr
    ensures s.byAddr[a] in s.clients
  {
    hide Clients, VotesOk, StrategiesOk, MeteredOk;
  }
}
