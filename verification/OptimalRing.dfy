/** A history in which a connection that fails ends the master, although there is a ring around it: four peers optimize
    their ring, and connect again. */
module OptimalRing {
  import opened MasterSpec
  import opened MasterInv
  import opened MasterRuns
  import opened Topology
  import opened RingSearch
  import opened AcceptPhase
  import opened RingServing
  import opened RingHistory
  import RetryRace

  // From runs to histories --------------------------------------------------------------------------

  /** Any order of visiting the receivers will do. */
  ghost function Orders(out: seq<Cast>): (orders: seq<seq<Uuid>>)
    ensures Ordered(out, orders)
  {
    seq(|out|, i requires 0 <= i < |out| => Ascending(out[i].to))
  }

  predicate Plain(e: Event) { !e.ReportP2P? || e.success }

  lemma PlainCoupled(s: State, t: Cache, e: Event)
    requires Plain(e)
    ensures Coupled(s, t, e, []) && Prepared(s, t, e, []) == t
  {
  }

  /** The world after an event in which nobody fails to connect. */
  ghost function Served(w: World, e: Event): World
    requires Step(w.s, e).Next?
  {
    var o := Step(w.s, e);
    var t := ServeAll(w.t, o.state, o.out, Orders(o.out));
    World(o.state, t, w.due + Scheduled(o.state, t, o.out), w.held, w.known + o.state.metered)
  }

  lemma ServedLeads(w: World, e: Event)
    requires Plain(e) && Legal(w.s, e) && Step(w.s, e).Next?
    ensures LeadsTo(w, Handled(e, Orders(Step(w.s, e).out), []), Served(w, e))
  {
    hide Legal, Step, Coupled, Prepared, ServeAll, Scheduled;
    PlainCoupled(w.s, w.t, e);
  }

  lemma Extend(ws: seq<World>, ms: seq<Move>, m: Move, w': World) returns (ws': seq<World>, ms': seq<Move>)
    requires History(ws, ms) && LeadsTo(ws[|ms|], m, w')
    ensures History(ws', ms') && ws'[|ms'|] == w'
  {
    hide LeadsTo;
    ws', ms' := ws + [w'], ms + [m];
    forall i | 0 <= i < |ms'| ensures LeadsTo(ws'[i], ms'[i], ws'[i + 1]) {
      if i < |ms| { assert LeadsTo(ws[i], ms[i], ws[i + 1]); }
    }
  }

  /** Every run in which nobody fails to connect is part of a history, and then no ring is optimal. */
  lemma {:induction false} Lift(events: seq<Event>) returns (ws: seq<World>, ms: seq<Move>)
    requires LegalRun(events) && Run(events).Next? && forall e :: e in events ==> Plain(e)
    ensures History(ws, ms) && ws[|ms|].s == Run(events).state && ws[|ms|].t.optimal == {}
    decreases |events|
  {
    hide LeadsTo, Legal, Step, Plain, Served, Orders;
    if events == [] {
      ws, ms := [Beginning()], [];
    } else {
      var n := |events| - 1;
      assert events[n] in events && forall e :: e in events[..n] ==> e in events;
      ws, ms := Lift(events[..n]);
      var w, e := ws[|ms|], events[n];
      ServedLeads(w, e);
      NoneBecomesOptimal(w, e);
      ws, ms := Extend(ws, ms, Handled(e, Orders(Step(w.s, e).out), []), Served(w, e));
    }
  }

  lemma NoneBecomesOptimal(w: World, e: Event)
    requires Step(w.s, e).Next? && w.t.optimal == {}
    ensures Served(w, e).t.optimal == {} && Served(w, e).s == Step(w.s, e).state
  {
    hide Step, ServeAll, Scheduled, Orders, MadeOfClients;
    ServeAllRenews(w.t, Step(w.s, e).state, Step(w.s, e).out, Orders(Step(w.s, e).out));
  }

  // The optimizer -----------------------------------------------------------------------------------

  /** Everybody is accepted and in group 0. */
  ghost predicate Settlers(s: State) {
    Inv(s) && s.clients.Keys == {1, 2, 3, 4} && forall u :: u in s.clients ==> s.clients[u].phase == Accepted && s.clients[u].group == 0
  }

  lemma SettlersAre(s: State)
    requires Settlers(s)
    ensures Locals(s, 0, false) == Locals(s, 0, true) == Eligible(s, 0) == {1, 2, 3, 4} == s.metered
  {
    hide Clients, Addresses, VotesOk, StrategiesOk;
  }

  /** A ring that is read is one of all peers. */
  lemma ReadsAll(w: World)
    requires SaneWorld(w) && Settlers(w.s) && w.t.optimal == {}
    ensures
      var t := Fetched(w.t, w.s, 0, false);
      Distinct(RingOf(t, 0)) && Elements(RingOf(t, 0)) == {1, 2, 3, 4} && t.optimal == {}
  {
    hide Inv, Settlers, Eligible, Locals;
    SettlersAre(w.s);
    BasicFacts(w.s, 0);
    var ring := RingOf(w.t, 0);
    assert Sane(w.s, 0, ring);
    DistinctSize(ring);
    if !Dirty(w.s, ring, |Locals(w.s, 0, false)|) {
      InsideLocals(w.s, ring);
      SubsetSameSize(Elements(ring), Locals(w.s, 0, false));
    }
  }

  lemma InsideLocals(s: State, ring: seq<Uuid>)
    requires Settlers(s) && forall u :: u in ring ==> u in s.clients
    ensures Elements(ring) <= Locals(s, 0, false)
  {
    hide Inv;
  }

  /** What the optimizer finds; the first and the third peer are neighbours on it. */
  function Best(): seq<Uuid> { [1, 3, 2, 4] }

  ghost predicate Crowned(w: World) {
    Settlers(w.s) && 0 in w.t.optimal && RingOf(w.t, 0) == Best()
  }

  lemma BestOfAll()
    ensures Distinct(Best()) && Elements(Best()) == {1, 2, 3, 4}
  {
  }

  /** Reading the ring, and finding the best one. */
  lemma Crowns(ws: seq<World>, ms: seq<Move>) returns (ws': seq<World>, ms': seq<Move>)
    requires History(ws, ms) && Settlers(ws[|ms|].s) && ws[|ms|].t.optimal == {} && 0 in ws[|ms|].due
    ensures History(ws', ms') && ws'[|ms'|].s == ws[|ms|].s && Crowned(ws'[|ms'|])
  {
    hide LeadsTo, Inv, Fetched, RingOf, Settlers;
    HistorySane(ws, ms);
    var w := ws[|ms|];
    ReadsAll(w);
    SettlersAre(w.s);
    var t := Fetched(w.t, w.s, 0, false);
    var ring := RingOf(t, 0);
    var a := World(w.s, t, w.due - {0}, w.held + {(0, ring)}, w.known + w.s.metered);
    assert LeadsTo(w, Read(0), a) by { Reads(w, a); }
    ws', ms' := Extend(ws, ms, Read(0), a);
    var b := World(a.s, Stored(a.t, 0, Best(), true), a.due, a.held - {(0, ring)}, a.known + a.s.metered);
    assert LeadsTo(a, Improved(0, ring, Best(), true), b) by { Improves(a, b, ring); }
    ws', ms' := Extend(ws', ms', Improved(0, ring, Best(), true), b);
    StoredRing(a.t, Best());
  }

  lemma Reads(w: World, a: World)
    requires 0 in w.due && Fetched(w.t, w.s, 0, false).optimal == {}
    requires a == World(w.s, Fetched(w.t, w.s, 0, false), w.due - {0}, w.held + {(0, RingOf(Fetched(w.t, w.s, 0, false), 0))}, w.known + w.s.metered)
    ensures LeadsTo(w, Read(0), a)
  {
    hide Fetched, RingOf;
  }

  lemma Improves(a: World, b: World, ring: seq<Uuid>)
    requires (0, ring) in a.held && a.t.optimal == {} && Distinct(ring) && Elements(ring) == {1, 2, 3, 4} <= a.known
    requires b == World(a.s, Stored(a.t, 0, Best(), true), a.due, a.held - {(0, ring)}, a.known + a.s.metered)
    ensures LeadsTo(a, Improved(0, ring, Best(), true), b)
  {
    DistinctSize(ring);
    BestOfAll();
  }

  lemma StoredRing(t: Cache, ring: seq<Uuid>)
    ensures RingOf(Stored(t, 0, ring, true), 0) == ring && 0 in Stored(t, 0, ring, true).optimal
  {
  }

  /** As long as the peers stay, the ring does. */
  lemma StaysCrowned(w: World, e: Event)
    requires Crowned(w) && Step(w.s, e).Next? && Settlers(Step(w.s, e).state)
    ensures Crowned(Served(w, e))
  {
    hide Step, Inv, Settlers, Orders, Scheduled;
    var o := Step(w.s, e);
    SettlersAre(o.state);
    BestOfAll();
    ServeAllSteady(w.t, o.state, o.out, Orders(o.out));
  }

  lemma {:induction false} ServeAllSteady(t: Cache, s: State, out: seq<Cast>, orders: seq<seq<Uuid>>)
    requires Ordered(out, orders) && Settlers(s) && Perfect(t, s, 0, true) && Perfect(t, s, 0, false)
    ensures ServeAll(t, s, out, orders) == t
    decreases |out|
  {
    hide Inv, Perfect, Serve;
    if out != [] {
      ServeSteady(t, s, orders[0], Counts(out[0].body));
      ServeAllSteady(t, s, out[1..], orders[1..]);
    }
  }

  // The story ---------------------------------------------------------------------------------------

  /** Four peers optimize their topology. */
  function OptimizeStory(): seq<Event> {
    RetryRace.Quartet()
    + [RequestOptimize(1), RequestOptimize(2), RequestOptimize(3), RequestOptimize(4),
       ReportOptimized(1), ReportOptimized(2), ReportOptimized(3), ReportOptimized(4)]
  }

  lemma OptimizingStory() returns (s: State)
    ensures After(OptimizeStory(), 14, s) && RetryRace.Four(s, Optimizing, Optimizing)
  {
    hide Goes, After, Shape;
    var p := map[1 := Accepted, 2 := Accepted, 3 := Accepted, 4 := Accepted];
    var c := map[1 := Idle, 2 := Idle, 3 := Idle, 4 := Idle];
    var f := RetryRace.FourIdle();
    SamePrefix(RetryRace.Quartet(), OptimizeStory(), 10, f);
    var g := Optimizes1(f, p, c, 1, 4, ToOptimize, Optimizing);
    MasterRuns.Extends(OptimizeStory(), 10, f, g);
    var h := Optimizes1(g, p, c[1 := VoteOptimize], 2, 4, ToOptimize, Optimizing);
    MasterRuns.Extends(OptimizeStory(), 11, g, h);
    var i := Optimizes1(h, p, c[1 := VoteOptimize][2 := VoteOptimize], 3, 4, ToOptimize, Optimizing);
    MasterRuns.Extends(OptimizeStory(), 12, h, i);
    c := c[1 := VoteOptimize][2 := VoteOptimize][3 := VoteOptimize];
    s := OptimizesLast(i, p, c, 4, ToOptimize, Optimizing);
    MasterRuns.Extends(OptimizeStory(), 13, i, s);
    Same(s, p, map v | v in c :: Optimizing, p, map[1 := Optimizing, 2 := Optimizing, 3 := Optimizing, 4 := Optimizing]);
  }

  /** Up to the last report, which ends the phase. */
  lemma MeasuredStory() returns (s: State, s': State)
    ensures After(OptimizeStory(), 17, s) && Goes(s, ReportOptimized(4), s') && RetryRace.Four(s', Idle, Idle)
    ensures exists x :: x in Step(s, ReportOptimized(4)).out && x.body == OptimizeEnd
  {
    hide Goes, After, Shape, Step;
    var p := map[1 := Accepted, 2 := Accepted, 3 := Accepted, 4 := Accepted];
    var c := map[1 := Optimizing, 2 := Optimizing, 3 := Optimizing, 4 := Optimizing];
    var f := OptimizingStory();
    var g := Optimizes1(f, p, c, 1, 4, ToEndOptimize, Idle);
    MasterRuns.Extends(OptimizeStory(), 14, f, g);
    var h := Optimizes1(g, p, c[1 := VoteOptimized], 2, 4, ToEndOptimize, Idle);
    MasterRuns.Extends(OptimizeStory(), 15, g, h);
    s := Optimizes1(h, p, c[1 := VoteOptimized][2 := VoteOptimized], 3, 4, ToEndOptimize, Idle);
    MasterRuns.Extends(OptimizeStory(), 16, h, s);
    c := c[1 := VoteOptimized][2 := VoteOptimized][3 := VoteOptimized];
    s' := OptimizesLast(s, p, c, 4, ToEndOptimize, Idle);
    Same(s', p, map v | v in c :: Idle, p, map[1 := Idle, 2 := Idle, 3 := Idle, 4 := Idle]);
  }

  lemma FourSettlers(s: State, x: Conn, y: Conn)
    requires RetryRace.Four(s, x, y)
    ensures Settlers(s)
  {
    hide Inv;
  }

  lemma StoryPlain(e: Event)
    requires e in OptimizeStory()[..17]
    ensures Plain(e)
  {
    hide RetryRace.Quartet, RetryRace.Story, Plain;
    assert e in OptimizeStory();
    if e in RetryRace.Quartet() { QuartetPlain(e); } else { PhasePlain(e); }
  }

  lemma QuartetPlain(e: Event)
    requires e in RetryRace.Quartet()
    ensures Plain(e)
  {
    var first := [Register(1, true, 0, 1), ReportP2P(1, true, NewRing), Register(2, true, 0, 2), Register(3, true, 0, 3),
                  Register(4, true, 0, 4), RequestP2P(1, true)];
    assert RetryRace.Story()[..6] == first;
  }

  lemma PhasePlain(e: Event)
    requires e.RequestOptimize? || e.ReportOptimized?
    ensures Plain(e)
  {
  }

  /** The ring of the four is optimal. */
  lemma CrownedHistory() returns (ws: seq<World>, ms: seq<Move>)
    ensures History(ws, ms) && Crowned(ws[|ms|]) && RetryRace.Four(ws[|ms|].s, Idle, Idle)
  {
    hide LeadsTo, Goes, Shape, Step, Legal, Crowned, Settlers, Served, Orders, Plain;
    var s, s' := MeasuredStory();
    assert LegalRun(OptimizeStory()[..17]) && Run(OptimizeStory()[..17]).Next? && Run(OptimizeStory()[..17]).state == s;
    hide After, OptimizeStory, LegalRun, Run;
    forall e | e in OptimizeStory()[..17] ensures Plain(e) { StoryPlain(e); }
    ws, ms := Lift(OptimizeStory()[..17]);
    var w, e := ws[|ms|], ReportOptimized(4);
    GoesOn(s, e, s');
    assert Plain(e) by { ReportsPlain(4); }
    ServedLeads(w, e);
    NoneBecomesOptimal(w, e);
    FourSettlers(s', Idle, Idle);
    SchedulesZero(w, e);
    ws, ms := Extend(ws, ms, Handled(e, Orders(Step(w.s, e).out), []), Served(w, e));
    ws, ms := Crowns(ws, ms);
  }

  lemma ReportsPlain(u: Uuid)
    ensures Plain(ReportOptimized(u)) && Plain(RequestP2P(u, false))
  {
  }

  lemma GoesOn(s: State, e: Event, s': State)
    requires Goes(s, e, s')
    ensures Legal(s, e) && Step(s, e).Next? && Step(s, e).state == s'
  {
  }

  lemma SchedulesZero(w: World, e: Event)
    requires Step(w.s, e).Next? && Settlers(Step(w.s, e).state) && Served(w, e).t.optimal == {}
    requires exists x :: x in Step(w.s, e).out && x.body == OptimizeEnd
    ensures 0 in Served(w, e).due
  {
    hide Step, Inv, ServeAll, Orders;
    var s := Step(w.s, e).state;
    assert 1 in s.clients && s.clients[1].group == 0;
  }

  /** One more request of a peer to connect. */
  lemma Requests(ws: seq<World>, ms: seq<Move>, u: Uuid, s': State) returns (ws': seq<World>, ms': seq<Move>)
    requires History(ws, ms) && Crowned(ws[|ms|]) && Goes(ws[|ms|].s, RequestP2P(u, false), s') && Settlers(s')
    ensures History(ws', ms') && Crowned(ws'[|ms'|]) && ws'[|ms'|].s == s'
  {
    hide LeadsTo, Step, Legal, Crowned, Settlers, Orders, Plain, ServeAll, Scheduled;
    var w, e := ws[|ms|], RequestP2P(u, false);
    GoesOn(w.s, e, s');
    ReportsPlain(u);
    ServedLeads(w, e);
    StaysCrowned(w, e);
    ws', ms' := Extend(ws, ms, Handled(e, Orders(Step(w.s, e).out), []), Served(w, e));
  }

  lemma ShapeSettles(s: State, p: map<Uuid, Phase>, c: map<Uuid, Conn>)
    requires Shape(s, p, c) && p == map[1 := Accepted, 2 := Accepted, 3 := Accepted, 4 := Accepted]
    ensures Settlers(s)
  {
    hide Inv;
  }

  /** Then all of them connect again. */
  lemma ConnectingHistory() returns (ws: seq<World>, ms: seq<Move>)
    ensures History(ws, ms) && Crowned(ws[|ms|]) && RetryRace.Four(ws[|ms|].s, Connecting, Connecting)
  {
    hide LeadsTo, Goes, Shape, Crowned, Settlers;
    var p := map[1 := Accepted, 2 := Accepted, 3 := Accepted, 4 := Accepted];
    var c := map[1 := Idle, 2 := Idle, 3 := Idle, 4 := Idle];
    ws, ms := CrownedHistory();
    var g := Retries(ws[|ms|].s, p, c, 1, 4, false);
    c := c[1 := VoteNoNew];
    ShapeSettles(g, p, c);
    ws, ms := Requests(ws, ms, 1, g);
    var h := Retries(g, p, c, 2, 4, false);
    c := c[2 := VoteNoNew];
    ShapeSettles(h, p, c);
    ws, ms := Requests(ws, ms, 2, h);
    var i := Retries(h, p, c, 3, 4, false);
    c := c[3 := VoteNoNew];
    ShapeSettles(i, p, c);
    ws, ms := Requests(ws, ms, 3, i);
    var j := LastReconnects(i, p, c, 4);
    Same(j, p, map v | v in c :: Connecting, p, map[1 := Connecting, 2 := Connecting, 3 := Connecting, 4 := Connecting]);
    ShapeSettles(j, p, map[1 := Connecting, 2 := Connecting, 3 := Connecting, 4 := Connecting]);
    ws, ms := Requests(ws, ms, 4, j);
  }

  /** The first peer does not reach the third, its neighbour on the best ring, but there is a ring on which they are not
      neighbours. */
  lemma WayAround()
    ensures Hamiltonian([1, 2, 3, 4], [1, 2, 3, 4], map[1 := {3}])
  {
  }

  lemma DetourCouples(w: World)
    requires Crowned(w) && 1 in w.s.byAddr && w.s.byAddr[1] == 1
    ensures Coupled(w.s, w.t, ReportP2P(1, false, StillOptimal), [1, 2, 3, 4]) && AlreadyOptimal(w.t, w.s, 0)
  {
    hide Inv, Eligible, Hamiltonian;
    SettlersAre(w.s);
    WayAround();
    BestOfAll();
    assert Elements([1, 2, 3, 4]) == {1, 2, 3, 4};
    assert Searched(w.s, 0, [1, 2, 3, 4], [1, 2, 3, 4], map[1 := {3}]);
    SettledIff(w.s, w.t, 0, [1, 2, 3, 4]);
  }

  lemma FourKnown(s: State, x: Conn, y: Conn)
    requires RetryRace.Four(s, x, y)
    ensures 1 in s.byAddr && s.byAddr[1] == 1 && 1 in s.clients && s.clients[1].conn == x && s.clients[1].group == 0
    ensures Legal(s, ReportP2P(1, false, StillOptimal))
  {
    hide Inv;
    Known(s, map[1 := Accepted, 2 := Accepted, 3 := Accepted, 4 := Accepted], map[1 := x, 2 := y, 3 := y, 4 := y], 1);
  }

  /** The history: the first peer does not reach the third, there is a ring around that connection, and the report of it
      ends the process, because the ring of these peers is optimal already. */
  lemma DetourEndsTheMaster() returns (ws: seq<World>, ms: seq<Move>)
    ensures History(ws, ms)
    ensures
      var w, e := ws[|ms|], ReportP2P(1, false, StillOptimal);
      Legal(w.s, e) && Coupled(w.s, w.t, e, [1, 2, 3, 4]) && Step(w.s, e) == Halt(Bug.RingOptimal)
  {
    hide LeadsTo, Shape, Step, Legal, Coupled, AlreadyOptimal, Crowned, Eligible, Locals;
    ws, ms := ConnectingHistory();
    var w, e := ws[|ms|], ReportP2P(1, false, StillOptimal);
    FourKnown(w.s, Connecting, Connecting);
    DetourCouples(w);
    DetourEndsMasterIff(ws, ms, e, [1, 2, 3, 4]);
  }
}
