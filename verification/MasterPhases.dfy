/** The establishment phases of a whole run, told from the packets alone: whom the end of a phase is announced to, and when
    it is announced as a success. */
module MasterPhases {
  import opened MasterSpec
  import opened MasterInv
  import opened MasterWatch
  import MasterRuns
  import MasterTags
  import Orphans

  // Observed runs -----------------------------------------------------------------------------------

  /** The packets that are sent out in step `k` of a run. */
  function OutAt(events: seq<Event>, k: nat): seq<Cast>
    requires k < |events|
  {
    var before := Run(events[..k]);
    if before.Halt? || Step(before.state, events[k]).Halt? then [] else Step(before.state, events[k]).out
  }

  /** The observer of a run. */
  function WatchOf(events: seq<Event>): Watch
    decreases |events|
  {
    if events == [] then Nobody()
    else
      var n := |events| - 1;
      Watched(WatchOf(events[..n]), events[n], OutAt(events, n))
  }

  lemma StartRight()
    ensures Right(Nobody(), Start())
  {
    assert Everyone(Start()) == {} == Querying(Start()) && forall c :: InConn(Start(), c) == {};
  }

  /** Over every run, whatever the clients send, an observer who never looks into the master knows who is a client, who is
      accepted, and how every peer stands in the establishment phase. */
  lemma {:induction false} RunWatched(events: seq<Event>)
    requires LegalRun(events) && Run(events).Next?
    ensures Right(WatchOf(events), Run(events).state) && Inv(Run(events).state)
    decreases |events|
  {
    hide Inv, Right, Step, Legal, Told, Anew, HeardAll;
    RunInv(events);
    if events == [] {
      StartRight();
    } else {
      var n := |events| - 1;
      RunWatched(events[..n]);
      var w, s, e := WatchOf(events[..n]), Run(events[..n]).state, events[n];
      StepSeen(w, s, e);
      SeenRight(Told(w, e, Step(s, e).out), Step(s, e), Anew(Told(w, e, Step(s, e).out), e));
    }
  }

  /** Over every run: what the master tells its clients is what the observer knows when it is sent. */
  lemma PacketsAreTrue(events: seq<Event>, k: nat)
    requires LegalRun(events) && Run(events).Next? && events != []
    ensures
      var n := |events| - 1;
      var out, w := OutAt(events, n), Told(WatchOf(events[..n]), events[n], OutAt(events, n));
      k < |out| ==> True(HeardAll(w, out[..k], Anew(w, events[n])), out[k], Anew(w, events[n]))
  {
    hide Inv, Right, Step, Legal, Told, Anew, HeardAll, True;
    var n := |events| - 1;
    RunWatched(events[..n]);
    var s, e := Run(events[..n]).state, events[n];
    var out, w := Step(s, e).out, Told(WatchOf(events[..n]), e, Step(s, e).out);
    StepSeen(WatchOf(events[..n]), s, e);
    if k < |out| { TrueAt(w, out, Anew(w, e), k); }
  }

  lemma {:induction false} TrueAt(w: Watch, out: seq<Cast>, anew: bool, k: nat)
    requires AllTrue(w, out, anew) && k < |out|
    ensures True(HeardAll(w, out[..k], anew), out[k], anew)
    decreases k
  {
    hide True, Heard;
    if k > 0 {
      TrueAt(Heard(w, out[0], anew), out[1..], anew, k - 1);
      assert out[..k][1..] == out[1..][..k - 1];
    }
  }

  lemma {:induction false} PrefixRuns(events: seq<Event>, n: nat)
    requires LegalRun(events) && Run(events).Next? && n <= |events|
    ensures LegalRun(events[..n]) && Run(events[..n]).Next?
    decreases |events|
  {
    hide Step, Legal;
    if n == |events| {
      assert events[..n] == events;
    } else {
      PrefixRuns(events[..|events| - 1], n);
      assert events[..|events| - 1][..n] == events[..n];
    }
  }

  // Within one phase --------------------------------------------------------------------------------

  /** No phase begins or ends. */
  predicate Within(out: seq<Cast>) { forall c :: c in out ==> !c.body.PeersInfo? && !c.body.Established? }

  /** The peers of the phase. */
  function Partners(w: Watch): set<Uuid> { w.asked + w.done + w.failed }

  /** What a phase does not survive: a partner reports that it could not connect, or somebody leaves. */
  predicate Spoils(w: Watch, e: Event) {
    && !e.Register? && e.addr in w.names
    && (e.Disconnect? || (e.ReportP2P? && !e.success && e.fail == NewRing && w.names[e.addr] in w.asked))
  }

  function Leaver(w: Watch, e: Event): set<Uuid> { if e.Disconnect? && e.addr in w.names then {w.names[e.addr]} else {} }

  /** Those who left from step `n` on. */
  function Gone(events: seq<Event>, n: nat): set<Uuid>
    requires n <= |events|
    decreases |events|
  {
    if n == |events| then {}
    else
      var front := events[..|events| - 1];
      Gone(front, n) + Leaver(WatchOf(front), events[|events| - 1])
  }

  predicate Spoiled(events: seq<Event>, n: nat) {
    exists k :: n <= k < |events| && Spoils(WatchOf(events[..k]), events[k])
  }

  /** Nothing but registrations is learned from the packets of such a step. */
  lemma {:induction false} WithinHeard(w: Watch, out: seq<Cast>, anew: bool)
    requires Within(out)
    ensures
      var w' := HeardAll(w, out, anew);
      && w'.asked == w.asked && w'.done == w.done && w'.failed == w.failed && w'.left == w.left
      && w.accepted <= w'.accepted
    decreases |out|
  {
    if out != [] {
      assert out[0] in out;
      WithinHeard(Heard(w, out[0], anew), out[1..], anew);
    }
  }

  ghost predicate Apart(w: Watch) { w.asked !! w.done !! w.failed && Partners(w) <= w.known && w.accepted <= w.known }

  lemma RightApart(w: Watch, s: State)
    requires Right(w, s)
    ensures Apart(w)
  {
  }

  /** Somebody failed, or left; a peer that failed may have asked for the next phase already. */
  ghost predicate Doomed(w: Watch) {
    w.left || exists u :: u in w.failed || (u in w.accepted && u !in w.asked + w.done)
  }

  /** How a phase stands, observed as `w0` at some point, after some steps: whether it is spoiled, and who left. */
  ghost predicate Progress(w0: Watch, w: Watch, spoiled: bool, gone: set<Uuid>) {
    && (w0.failed == {} && !w0.left && !spoiled ==> w.failed == {} && !w.left)
    && (w0.failed != {} || w0.left || spoiled ==> Doomed(w))
    && Partners(w) <= Partners(w0) - gone <= Partners(w) + w.accepted
  }

  lemma PartnersTold(w: Watch, e: Event, out: seq<Cast>)
    requires Apart(w)
    ensures
      var w' := Told(w, e, out);
      && Partners(w') <= Partners(w) && Partners(w') !! Leaver(w, e)
      && (forall u :: u in Partners(w) + w.accepted && u !in Leaver(w, e) ==> u in Partners(w') + w'.accepted)
  {
  }

  /** One packet, or one departure, as far as a phase is concerned. */
  lemma ToldProgress(w0: Watch, w: Watch, e: Event, out: seq<Cast>, spoiled: bool, gone: set<Uuid>)
    requires Progress(w0, w, spoiled, gone) && Apart(w)
    ensures Progress(w0, Told(w, e, out), spoiled || Spoils(w, e), gone + Leaver(w, e))
  {
    var w' := Told(w, e, out);
    PartnersTold(w, e, out);
    if Doomed(w) && !w.left {
      var u :| u in w.failed || (u in w.accepted && u !in w.asked + w.done);
      assert w'.left || u in w'.failed || (u in w'.accepted && u !in w'.asked + w'.done);
    }
    if Spoils(w, e) && !e.Disconnect? { assert w.names[e.addr] in w'.failed; }
  }

  lemma MoreProgress(w0: Watch, w: Watch, w': Watch, spoiled: bool, gone: set<Uuid>)
    requires Progress(w0, w, spoiled, gone) && w.accepted <= w'.accepted
    requires w'.asked == w.asked && w'.done == w.done && w'.failed == w.failed && w'.left == w.left
    ensures Progress(w0, w', spoiled, gone)
  {
    if Doomed(w) && !w.left {
      var u :| u in w.failed || (u in w.accepted && u !in w.asked + w.done);
      assert u in w'.failed || (u in w'.accepted && u !in w'.asked + w'.done);
    }
  }

  lemma NoProgress(w: Watch)
    ensures Progress(w, w, false, {})
  {
    if w.failed != {} { var u :| u in w.failed; }
  }

  lemma SpoiledSoFar(events: seq<Event>, n: nat)
    requires n < |events|
    ensures
      var front := events[..|events| - 1];
      Spoiled(events, n) <==> Spoiled(front, n) || Spoils(WatchOf(front), events[|events| - 1])
  {
    hide Spoils, WatchOf;
    var m := |events| - 1;
    var front := events[..m];
    forall k | n <= k < m ensures events[..k] == front[..k] && events[k] == front[k] { }
    if Spoiled(front, n) {
      var k :| n <= k < |front| && Spoils(WatchOf(front[..k]), front[k]);
      assert Spoils(WatchOf(events[..k]), events[k]);
    }
  }

  /** Up to the step before last nothing begins or ends. */
  ghost predicate AllWithin(events: seq<Event>, n: nat) {
    forall k :: n <= k < |events| ==> Within(OutAt(events, k))
  }

  lemma {:induction false} SpanProgress(events: seq<Event>, n: nat)
    requires LegalRun(events) && Run(events).Next? && n <= |events| && AllWithin(events, n)
    ensures Progress(WatchOf(events[..n]), WatchOf(events), Spoiled(events, n), Gone(events, n))
    decreases |events|
  {
    hide Progress, Spoils, Leaver, Told, Anew, Within, Right, Inv, Step, Legal, Apart, HeardAll;
    if n == |events| {
      assert events[..n] == events;
      NoProgress(WatchOf(events));
    } else {
      var m := |events| - 1;
      var front, e := events[..m], events[m];
      forall k | n <= k < m ensures Within(OutAt(front, k)) {
        assert front[..k] == events[..k] && Within(OutAt(events, k));
      }
      assert front[..n] == events[..n];
      SpanProgress(front, n);
      RunWatched(front);
      RightApart(WatchOf(front), Run(front).state);
      SpoiledSoFar(events, n);
      assert Within(OutAt(events, m));
      StepProgress(WatchOf(events[..n]), WatchOf(front), e, OutAt(events, m), Spoiled(front, n), Gone(front, n));
    }
  }

  lemma StepProgress(w0: Watch, w: Watch, e: Event, out: seq<Cast>, spoiled: bool, gone: set<Uuid>)
    requires Progress(w0, w, spoiled, gone) && Apart(w) && Within(out)
    ensures Progress(w0, Watched(w, e, out), spoiled || Spoils(w, e), gone + Leaver(w, e))
  {
    hide Progress, Spoils, Leaver, Told, Anew, Within, Apart, HeardAll;
    ToldProgress(w0, w, e, out, spoiled, gone);
    WithinHeard(Told(w, e, out), out, Anew(Told(w, e, out), e));
    MoreProgress(w0, Told(w, e, out), Watched(w, e, out), spoiled || Spoils(w, e),
                 gone + Leaver(w, e));
  }

  /** The last step of a run ends a phase by the packet `c`, and opens none before. */
  ghost predicate Ends(events: seq<Event>, c: Cast) {
    && events != [] && c.body.Established?
    && var out := OutAt(events, |events| - 1);
       exists k :: 0 <= k < |out| && out[k] == c && Within(out[..k])
  }

  /** Over every run. From a point `n` of a phase on, no phase begins or ends until the last step, whose packet `c` ends it.
      It goes to exactly the peers of the phase that are still there, and it says success if and only if up to `n` nobody
      failed and nobody left, and from `n` on every report was one of success and nobody left. */
  lemma PhaseVerdict(events: seq<Event>, n: nat, c: Cast)
    requires LegalRun(events) && Run(events).Next? && n < |events|
    requires AllWithin(events[..|events| - 1], n) && Ends(events, c)
    ensures
      var w := WatchOf(events[..n]);
      && c.to == Partners(w) - Gone(events, n)
      && (c.body.success <==> w.failed == {} && !w.left && !Spoiled(events, n))
  {
    hide Spoils, Leaver, Told, Anew, Within, Right, Inv, Step, Legal, Apart, HeardAll, Progress, True;
    var m := |events| - 1;
    var front, e, out := events[..m], events[m], OutAt(events, m);
    var k :| 0 <= k < |out| && out[k] == c && Within(out[..k]);
    assert front[..n] == events[..n];
    SpanProgress(front, n);
    RunWatched(front);
    RightApart(WatchOf(front), Run(front).state);
    SpoiledSoFar(events, n);
    PacketsAreTrue(events, k);
    var w0, w1 := WatchOf(events[..n]), Told(WatchOf(front), e, out);
    ToldProgress(w0, WatchOf(front), e, out, Spoiled(front, n), Gone(front, n));
    WithinHeard(w1, out[..k], Anew(w1, e));
    var w2 := HeardAll(w1, out[..k], Anew(w1, e));
    MoreProgress(w0, w1, w2, Spoiled(events, n), Gone(events, n));
    VerdictOf(w0, w2, c, Anew(w1, e), Spoiled(events, n), Gone(events, n));
  }

  lemma VerdictOf(w0: Watch, w: Watch, c: Cast, anew: bool, spoiled: bool, gone: set<Uuid>)
    requires Progress(w0, w, spoiled, gone) && True(w, c, anew) && c.body.Established?
    ensures c.to == Partners(w0) - gone && (c.body.success <==> w0.failed == {} && !w0.left && !spoiled)
  {
    assert Partners(w) == c.to;
    assert Doomed(w) ==> w.left || w.failed != {};
  }

  // Openings ----------------------------------------------------------------------------------------

  /** The last step of a run opens a phase by the packet `p`, with a clean slate. */
  ghost predicate Opens(events: seq<Event>, p: Cast) {
    && events != [] && p.body.PeersInfo?
    && var n := |events| - 1;
       var out := OutAt(events, n);
       && (exists j :: 0 <= j < |out| && out[j] == p && Within(out[j + 1..]))
       && Anew(Told(WatchOf(events[..n]), events[n], out), events[n])
  }

  ghost predicate Inside(w: Watch) { Partners(w) <= w.known && w.accepted <= w.known }

  lemma ToldInside(w: Watch, e: Event, out: seq<Cast>)
    requires Apart(w)
    ensures Inside(Told(w, e, out))
  {
  }

  lemma {:induction false} HeardInside(w: Watch, out: seq<Cast>, anew: bool)
    requires AllTrue(w, out, anew) && Inside(w)
    ensures Inside(HeardAll(w, out, anew))
    decreases |out|
  {
    if out != [] {
      assert Inside(Heard(w, out[0], anew));
      HeardInside(Heard(w, out[0], anew), out[1..], anew);
    }
  }

  lemma CleanSlate(w: Watch, c: Cast)
    requires True(w, c, true) && Inside(w) && c.body.PeersInfo?
    ensures
      var w' := Heard(w, c, true);
      && w'.asked == c.to && w'.done == w.done - c.to && w'.failed == w.failed - c.to && !w'.left
      && (c.body.registered ==> c.to == w.known && w'.done == {} && w'.failed == {})
  {
  }

  /** A phase that is opened for newcomers too begins with everybody asked, nobody failed, and nobody gone; one that is opened
      for the accepted peers only keeps what newcomers have reported before. */
  lemma OpeningIs(events: seq<Event>, p: Cast)
    requires LegalRun(events) && Run(events).Next? && Opens(events, p)
    ensures
      var w := WatchOf(events);
      w.asked == p.to && !w.left && w.failed !! p.to && (p.body.registered ==> w.done == {} && w.failed == {})
  {
    hide Right, Inv, Step, Legal, Told, Anew, Within, True, Apart, Inside, Heard;
    var n := |events| - 1;
    var front, e, out := events[..n], events[n], OutAt(events, n);
    RunWatched(front);
    RightApart(WatchOf(front), Run(front).state);
    var w1 := Told(WatchOf(front), e, out);
    ToldInside(WatchOf(front), e, out);
    StepSeen(WatchOf(front), Run(front).state, e);
    var j :| 0 <= j < |out| && out[j] == p && Within(out[j + 1..]);
    OpeningAt(w1, out, j);
  }

  lemma OpeningAt(w: Watch, out: seq<Cast>, j: nat)
    requires AllTrue(w, out, true) && Inside(w) && j < |out| && out[j].body.PeersInfo? && Within(out[j + 1..])
    ensures
      var w', c := HeardAll(w, out, true), out[j];
      && w'.asked == c.to && !w'.left && w'.failed !! c.to && (c.body.registered ==> w'.done == {} && w'.failed == {})
  {
    hide Within, True, Inside, Heard, AllTrue;
    assert out == out[..j] + out[j..];
    TrueConcat(w, out[..j], out[j..], true);
    HeardConcat(w, out[..j], out[j..], true);
    var w1 := HeardAll(w, out[..j], true);
    HeardInside(w, out[..j], true);
    assert out[j..][0] == out[j] && out[j..][1..] == out[j + 1..];
    assert True(w1, out[j], true) by { TrueAt(w1, out[j..], true, 0); }
    CleanSlate(w1, out[j]);
    WithinHeard(Heard(w1, out[j], true), out[j + 1..], true);
  }

  /** Over every run. A phase is opened by the packet `p` of step `n - 1`, for newcomers too and by nobody's departure, and
      ends in the last step. Exactly those it asked to connect and that are still there are told, and they are told of
      success if and only if every report since the opening was one of success and nobody has left since then. */
  lemma AcceptPhaseVerdict(events: seq<Event>, n: nat, p: Cast, c: Cast)
    requires LegalRun(events) && Run(events).Next? && n < |events|
    requires Opens(events[..n], p) && p.body.registered
    requires AllWithin(events[..|events| - 1], n) && Ends(events, c)
    ensures c.to == p.to - Gone(events, n) && (c.body.success <==> !Spoiled(events, n))
  {
    hide WatchOf, Gone, Spoiled, OutAt, AllWithin, Opens, Ends;
    PrefixRuns(events, n);
    PhaseVerdict(events, n, c);
    OpeningIs(events[..n], p);
  }

  // Ends --------------------------------------------------------------------------------------------

  /** A report that counts, or a departure. */
  predicate Counts(w: Watch, e: Event) {
    && !e.Register? && e.addr in w.names
    && (e.Disconnect? || (e.ReportP2P? && w.names[e.addr] in w.asked && (e.success || e.fail == NewRing)))
  }

  lemma AllReported(w: Watch, s: State)
    requires Right(w, s) && w.asked == {} && Partners(w) != {}
    ensures P2PConsensus(s)
    ensures CheckP2P(s).Next? ==> |CheckP2P(s).out| == 1 && CheckP2P(s).out[0].body.Established?
  {
    var u :| u in Partners(w);
    assert u in s.clients && Reported(s.clients[u].conn);
    forall v | v in s.clients ensures s.clients[v].conn != Connecting { assert v !in InConn(s, Connecting); }
  }

  lemma ReportEnds(w: Watch, s: State, u: Uuid, e: Event)
    requires Right(w, s) && u in w.asked && e.ReportP2P? && (e.success || e.fail == NewRing)
    requires Noted(w, u, e).asked == {}
    ensures u in s.clients
    ensures
      var o := OnReportP2P(s, u, e.success, e.fail);
      o.Next? ==> |o.out| == 1 && o.out[0].body.Established?
  {
    hide CheckP2P;
    assert u in InConn(s, Connecting);
    ReportedSeen(w, s, u, e);
    assert u in Partners(Noted(w, u, e));
    hide Right;
    AllReported(Noted(w, u, e), SetConn(s, u, if e.success then Waiting else ConnectFailed));
  }

  lemma DepartureEnds(w: Watch, s: State, u: Uuid, e: Event)
    requires Right(w, s) && u in s.clients && e.Disconnect? && e.addr == s.clients[u].addr
    requires Noted(w, u, e).asked == {} && Partners(Noted(w, u, e)) != {}
    ensures
      var o := OnDisconnect(s, u, e.verdict, e.tags);
      o.Next? ==> o.out != [] && (o.out[0].body.Established? || o.out[0].body.PeersInfo?)
  {
    hide Right, Leave, Consensus, OpenP2P, CheckP2P, CheckPending, CheckSync, CheckSynced, RecheckAll, InConn, Noted;
    LeaveSeen(w, s, u, e);
    var s1 := Leave(s, u);
    AllReported(Noted(w, u, e), s1.(dropped := true));
    var a := CheckEstablish(s1);
    if a.out == [] { assert a.state == s1; }
  }

  /** Over every run: no phase stays open when everybody in it has reported or left. The report that leaves nobody to wait
      for ends the phase at once; a departure that does, ends it or opens the next one. */
  lemma LastReportEnds(events: seq<Event>)
    requires LegalRun(events) && Run(events).Next? && events != []
    requires
      var n := |events| - 1;
      var w, w' := WatchOf(events[..n]), Told(WatchOf(events[..n]), events[n], OutAt(events, n));
      Counts(w, events[n]) && w'.asked == {} && Partners(w') != {}
    ensures
      var n := |events| - 1;
      var out := OutAt(events, n);
      out != [] && (out[0].body.Established? || (events[n].Disconnect? && out[0].body.PeersInfo?))
  {
    hide Right, Inv, Noted, OnReportP2P, OnDisconnect, Legal;
    var n := |events| - 1;
    RunWatched(events[..n]);
    var w, s, e := WatchOf(events[..n]), Run(events[..n]).state, events[n];
    NamesRight(w, s);
    AddressOf(s, e.addr);
    NotWelcomed(e, OutAt(events, n));
    if e.Disconnect? {
      DepartureEnds(w, s, s.byAddr[e.addr], e);
    } else {
      ReportEnds(w, s, s.byAddr[e.addr], e);
    }
  }

  // Queries -----------------------------------------------------------------------------------------

  /** It is not so that all accepted peers wait for an answer about pending peers. */
  ghost predicate Answered(s: State) { Everyone(s) != {} ==> !(Everyone(s) <= Querying(s)) }

  lemma CheckAnswers(s: State)
    ensures CheckPending(s).Next? && Answered(CheckPending(s).state)
  {
    var s' := CheckPending(s).state;
    if Everyone(s') != {} {
      var u :| u in Everyone(s');
      if PendingConsensus(s) {
        assert u !in Querying(s');
      } else {
        var v :| v in s.clients && s.clients[v].phase == Accepted && !s.clients[v].pending;
        assert v in Everyone(s') && v !in Querying(s');
      }
    }
  }

  lemma AlikeAnswered(s: State, s': State)
    requires Alike(s, s') && Answered(s)
    ensures Answered(s')
  {
    assert Everyone(s') == Everyone(s) && Querying(s') == Querying(s);
  }

  lemma UnseenAnswered(s: State, o: Outcome)
    requires Unseen(s, o) && Answered(s)
    ensures o.Next? ==> Answered(o.state)
  {
    hide Alike, Answered;
    if o.Next? { AlikeAnswered(s, o.state); }
  }

  lemma EstablishGoesOn(s: State)
    ensures CheckEstablish(s).Next?
  {
    hide Consensus, OpenP2P, InConn;
  }

  lemma DisconnectAnswers(s: State, u: Uuid, verdict: SyncVerdict, tags: seq<Tag>)
    requires u in s.clients && OnDisconnect(s, u, verdict, tags).Next?
    ensures Answered(OnDisconnect(s, u, verdict, tags).state)
  {
    hide Leave, CheckEstablish, CheckP2P, CheckPending, CheckSync, CheckSynced, RecheckAll, Unseen, Answered;
    var g := s.clients[u].group;
    EstablishGoesOn(Leave(s, u));
    var b := CheckP2P(CheckEstablish(Leave(s, u)).state.(dropped := true));
    CheckAnswers(b.state);
    var c := CheckPending(b.state);
    SyncUnseen(c.state, g, verdict);
    UnseenAnswered(c.state, CheckSync(c.state, g, verdict));
    var d := CheckSync(c.state, g, verdict);
    SyncUnseen(d.state, g, verdict);
    UnseenAnswered(d.state, CheckSynced(d.state, g));
    var a := Departed(s, u, verdict);
    RecheckAllUnseen(a.state, g, tags);
    UnseenAnswered(a.state, RecheckAll(a.state, g, tags));
  }

  lemma QueryAnswers(s: State, u: Uuid)
    requires u in s.clients && Answered(s)
    ensures OnQueryPending(s, u).Next? && Answered(OnQueryPending(s, u).state)
  {
    hide CheckPending, Answered;
    CheckAnswers(SetInfo(s, u, s.clients[u].(pending := true)));
  }

  lemma {:induction false} HeardQueries(w: Watch, out: seq<Cast>, anew: bool)
    ensures
      var w' := HeardAll(w, out, anew);
      w'.querying <= w.querying && w.accepted <= w'.accepted
    decreases |out|
  {
    if out != [] { HeardQueries(Heard(w, out[0], anew), out[1..], anew); }
  }

  lemma NobodyAsks(w: Watch, e: Event, out: seq<Cast>)
    requires !e.QueryPending? && !e.Disconnect?
    ensures Watched(w, e, out).querying <= w.querying && w.accepted <= Watched(w, e, out).accepted
  {
    hide HeardAll, Anew;
    HeardQueries(Told(w, e, out), out, Anew(Told(w, e, out), e));
  }

  lemma NewcomersDoNotAsk(s: State)
    requires Inv(s) && Everyone(s) == {}
    ensures Querying(s) == {}
  {
    hide Inv;
    forall u | u in s.clients ensures !s.clients[u].pending {
      EachClientOk(s, u);
      assert u !in Everyone(s);
    }
  }

  /** A step in which nobody asks and nobody leaves. */
  lemma OtherAnswers(w: Watch, s: State, w': Watch, s': State)
    requires Right(w, s) && Right(w', s') && Inv(s) && Answered(s)
    requires w'.querying <= w.querying && w.accepted <= w'.accepted
    ensures Answered(s')
  {
    hide Inv;
    if Everyone(s) == {} { NewcomersDoNotAsk(s); }
  }

  /** Over every run: a query for pending peers is answered in the step in which the last accepted peer asks, or leaves. */
  lemma {:induction false} QueriesAnswered(events: seq<Event>)
    requires LegalRun(events) && Run(events).Next?
    ensures
      var w := WatchOf(events);
      w.accepted != {} ==> exists u :: u in w.accepted && u !in w.querying
  {
    hide Inv, WatchOf;
    RunWatched(events);
    RunAnswers(events);
    var w := WatchOf(events);
    if w.accepted != {} { var u :| u in w.accepted && u !in w.querying; }
  }

  lemma {:induction false} RunAnswers(events: seq<Event>)
    requires LegalRun(events) && Run(events).Next?
    ensures Answered(Run(events).state)
    decreases |events|
  {
    hide Inv, Right, Legal, Told, Anew, HeardAll, Answered, OnRegister, OnRequestP2P, OnReportP2P, OnQueryPending,
         OnRequestOptimize, OnReportOptimized, OnSyncState, OnReportSynced, OnInitiate, OnComplete, OnDisconnect, Watched;
    if events == [] {
      assert Answered(Start()) by { StartAnswered(); }
    } else {
      var n := |events| - 1;
      RunAnswers(events[..n]);
      RunWatched(events[..n]);
      RunWatched(events);
      var s, e := Run(events[..n]).state, events[n];
      if (e.QueryPending? || e.Disconnect?) && e.addr in s.byAddr && s.byAddr[e.addr] in s.clients {
        if e.QueryPending? { QueryAnswers(s, s.byAddr[e.addr]); }
        else { DisconnectAnswers(s, s.byAddr[e.addr], e.verdict, e.tags); }
      } else if !e.QueryPending? && !e.Disconnect? {
        NobodyAsks(WatchOf(events[..n]), e, OutAt(events, n));
        OtherAnswers(WatchOf(events[..n]), s, WatchOf(events), Run(events).state);
      }
    }
  }

  lemma StartAnswered()
    ensures Answered(Start())
  {
    assert Everyone(Start()) == {};
  }

  // The slate that is not clean -------------------------------------------------------------------------

  /** A peer comes, connects and goes; the next one comes and connects. */
  function SecondStory(): seq<Event> {
    [Register(1, true, 0, 1), ReportP2P(1, true, NewRing), Disconnect(1, NoMask, []), Register(3, true, 0, 3),
     ReportP2P(3, true, NewRing)]
  }

  lemma SecondStoryRuns() returns (s: State)
    ensures MasterRuns.After(SecondStory(), 4, s) && Orphans.Solo(s, 3, Connecting) && s.dropped
  {
    hide MasterRuns.After, MasterRuns.Goes, Orphans.Party, Inv, Orphans.Solo, Orphans.Orphaning;
    StartInv();
    MasterRuns.NoEvents(SecondStory());
    var a := Orphans.ComesFirst(Start(), 1);
    MasterRuns.Extends(SecondStory(), 0, Start(), a);
    var b := Orphans.SoloReports(a, 1);
    MasterRuns.Extends(SecondStory(), 1, a, b);
    Orphans.SoloKnown(b, 1, Idle);
    var c := Orphans.LastLeaves(b, map[1 := MasterTags.None], 1);
    MasterRuns.Extends(SecondStory(), 2, b, c);
    s := Orphans.ComesFirst(c, 3);
    MasterRuns.Extends(SecondStory(), 3, c, s);
  }

  /** The run: since the only phase of peer 3 was opened, its one report was a success and nobody left; yet it is told that
      the phase failed, because a lone peer's registration opens the phase without a clean slate. */
  lemma StaleDeparture()
    ensures LegalRun(SecondStory()) && Run(SecondStory()).Next? && !Spoiled(SecondStory(), 4)
    ensures OutAt(SecondStory(), 4) == [Cast({3}, Established(false))]
  {
    hide Inv, WatchOf;
    var s := SecondStoryRuns();
    var s' := Orphans.SoloReports(s, 3);
    MasterRuns.Extends(SecondStory(), 4, s, s');
    assert SecondStory()[..5] == SecondStory();
  }
}
