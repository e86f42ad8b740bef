/** The master seen from outside: who is a client, who is accepted, and how an establishment phase stands can be told from
    the packets that go in and out, without looking at the master's state; and what the master tells its clients about it is
    what these packets say. */
module MasterWatch {
  import opened MasterSpec
  import opened MasterInv
  import MasterOpenings
  import RetryRace

  /** What an observer of all packets knows: who is at which address; the clients and those accepted; the peers asked to
      connect that have not reported, those that reported success, and those that failed, by their own report or as they
      were told; whether somebody left since the phase began; and who has asked about pending peers and got no answer. */
  datatype Watch = Watch(names: map<Addr, Uuid>, known: set<Uuid>, accepted: set<Uuid>,
                         asked: set<Uuid>, done: set<Uuid>, failed: set<Uuid>, left: bool, querying: set<Uuid>)

  function Nobody(): Watch { Watch(map[], {}, {}, {}, {}, {}, false, {}) }

  /** A packet from a client, or its departure. */
  function Noted(w: Watch, u: Uuid, e: Event): Watch {
    match e
    case ReportP2P(_, success, fail) =>
      if u !in w.asked || (!success && fail != NewRing) then w
      else if success then w.(asked := w.asked - {u}, done := w.done + {u})
      else w.(asked := w.asked - {u}, failed := w.failed + {u})
    case RequestP2P(_, _) => if u in w.accepted then w.(failed := w.failed - {u}) else w
    case Disconnect(_, _, _) =>
      Watch(w.names - {e.addr}, w.known - {u}, w.accepted - {u}, w.asked - {u}, w.done - {u}, w.failed - {u}, true,
            w.querying - {u})
    case QueryPending(_) => if u in w.accepted then w.(querying := w.querying + {u}) else w
    case _ => w
  }

  /** A packet to clients; `anew` if a phase that it opens begins with a clean slate. */
  function Heard(w: Watch, c: Cast, anew: bool): Watch {
    match c.body
    case Response(accepted) =>
      if !accepted then w
      else w.(known := w.known + c.to, accepted := if w.known == {} then w.accepted + c.to else w.accepted)
    case PeersInfo(_) =>
      w.(asked := w.asked + c.to, done := w.done - c.to, failed := w.failed - c.to, left := w.left && !anew)
    case Established(success) =>
      w.(accepted := w.accepted + (c.to - w.failed), asked := {}, done := {}, failed := if success then {} else c.to, left := false)
    case Pending(_) => w.(querying := w.querying - c.to)
    case _ => w
  }

  function HeardAll(w: Watch, out: seq<Cast>, anew: bool): Watch
    decreases |out|
  {
    if out == [] then w else HeardAll(Heard(w, out[0], anew), out[1..], anew)
  }

  lemma {:induction false} HeardConcat(w: Watch, a: seq<Cast>, b: seq<Cast>, anew: bool)
    ensures HeardAll(w, a + b, anew) == HeardAll(HeardAll(w, a, anew), b, anew)
    decreases |a|
  {
    if a == [] {
      assert a + b == b;
    } else {
      assert (a + b)[1..] == a[1..] + b;
      HeardConcat(Heard(w, a[0], anew), a[1..], b, anew);
    }
  }

  /** A departure spoils the phase it opens, and a peer that is the only one does not get a clean slate by registering. */
  predicate Anew(w: Watch, e: Event) { !e.Disconnect? && !(e.Register? && |w.names| == 1) }

  predicate Welcomed(e: Event, out: seq<Cast>) { e.Register? && Cast({e.id}, Response(true)) in out }

  /** What the packet that starts a step says. */
  function Told(w: Watch, e: Event, out: seq<Cast>): Watch {
    if Welcomed(e, out) then w.(names := w.names[e.addr := e.id])
    else if !e.Register? && e.addr in w.names then Noted(w, w.names[e.addr], e)
    else w
  }

  /** The observer after a step: an event, and the packets sent out in answer to it. */
  function Watched(w: Watch, e: Event, out: seq<Cast>): Watch {
    HeardAll(Told(w, e, out), out, Anew(Told(w, e, out), e))
  }

  /** The observer has it right. */
  ghost predicate Right(w: Watch, s: State) {
    && w.names == s.byAddr && w.known == s.clients.Keys && w.accepted == Everyone(s)
    && w.asked == InConn(s, Connecting) && w.done == InConn(s, Waiting) && w.failed == InConn(s, ConnectFailed)
    && w.left == s.dropped && w.querying == Querying(s)
  }

  function Querying(s: State): set<Uuid> { set u | u in s.clients && s.clients[u].pending }

  // What the packets say --------------------------------------------------------------------------------

  /** Whether a packet tells what the observer knows, and goes to whom it concerns. At the end of a phase: to all who were in
      it, among them all that are accepted, and it succeeded exactly if nobody failed and nobody left. About pending peers: to all accepted once all of them
      have asked, and there are some exactly if somebody is not accepted. At an opening: to everybody (a lone peer may be told again), or to the
      accepted peers and those still connecting. */
  ghost predicate True(w: Watch, c: Cast, anew: bool) {
    match c.body
    case Established(success) =>
      w.asked == {} && w.accepted <= c.to == w.done + w.failed && c.to != {} && (success <==> w.failed == {} && !w.left)
    case Pending(peers) => c.to == w.accepted <= w.querying && (peers <==> w.known != w.accepted)
    case PeersInfo(registered) =>
      if registered then c.to == w.known || (c.to == w.asked && !anew) else c.to == w.accepted + w.asked
    case OptimizeStart => c.to == w.accepted
    case OptimizeEnd => c.to == w.accepted
    case _ => true
  }

  /** All packets of a step, each with what is known when it is sent. */
  ghost predicate AllTrue(w: Watch, out: seq<Cast>, anew: bool)
    decreases |out|
  {
    out == [] || (True(w, out[0], anew) && AllTrue(Heard(w, out[0], anew), out[1..], anew))
  }

  lemma {:induction false} TrueConcat(w: Watch, a: seq<Cast>, b: seq<Cast>, anew: bool)
    ensures AllTrue(w, a + b, anew) <==> AllTrue(w, a, anew) && AllTrue(HeardAll(w, a, anew), b, anew)
    decreases |a|
  {
    hide True, Heard;
    if a == [] {
      assert a + b == b;
    } else {
      assert (a + b)[1..] == a[1..] + b;
      TrueConcat(Heard(w, a[0], anew), a[1..], b, anew);
    }
  }

  /** The observer gets it right, and is told nothing else. */
  ghost predicate Seen(w: Watch, o: Outcome, anew: bool) {
    o.Next? ==> Right(HeardAll(w, o.out, anew), o.state) && AllTrue(w, o.out, anew)
  }

  lemma SeenThrough(w: Watch, a: Outcome, b: Outcome, anew: bool)
    requires a.Next? && Seen(w, a, anew) && Seen(HeardAll(w, a.out, anew), b, anew)
    ensures Seen(w, Before(b, a.out), anew)
  {
    hide Right, True, Heard;
    if b.Next? {
      HeardConcat(w, a.out, b.out, anew);
      TrueConcat(w, a.out, b.out, anew);
    }
  }

  lemma SeenOne(w: Watch, s': State, c: Cast, anew: bool)
    requires Right(Heard(w, c, anew), s') && True(w, c, anew)
    ensures Seen(w, Next(s', [c]), anew)
  {
    hide Right, Heard, True;
    var rest: seq<Cast> := [];
    assert [c][1..] == rest;
    assert HeardAll(w, [c], anew) == HeardAll(Heard(w, c, anew), rest, anew) == Heard(w, c, anew);
    assert AllTrue(Heard(w, c, anew), rest, anew);
  }

  lemma SeenNothing(w: Watch, s: State, anew: bool)
    requires Right(w, s)
    ensures Seen(w, Stay(s), anew)
  {
  }

  // Packets that matter ---------------------------------------------------------------------------------

  predicate Matters(b: Body) { b.Response? || b.PeersInfo? || b.Established? || b.Pending? || b.OptimizeStart? || b.OptimizeEnd? }

  lemma {:induction false} NothingHeard(w: Watch, out: seq<Cast>, anew: bool)
    requires forall c :: c in out ==> !Matters(c.body)
    ensures HeardAll(w, out, anew) == w && AllTrue(w, out, anew)
    decreases |out|
  {
    if out != [] {
      assert out[0] in out;
      NothingHeard(w, out[1..], anew);
    }
  }

  predicate Likewise(i: Info, j: Info) {
    i.phase == j.phase && i.pending == j.pending && (i.conn == j.conn || (!InPhase(i.conn) && !InPhase(j.conn)))
  }

  /** Nothing of what an observer sees changes. */
  ghost predicate Alike(s: State, s': State) {
    && s'.clients.Keys == s.clients.Keys && s'.byAddr == s.byAddr && s'.dropped == s.dropped
    && forall u :: u in s.clients ==> Likewise(s.clients[u], s'.clients[u])
  }

  lemma AlikeRight(w: Watch, s: State, s': State)
    requires Alike(s, s')
    ensures Right(w, s) <==> Right(w, s')
  {
    assert Everyone(s') == Everyone(s);
    assert InConn(s', Connecting) == InConn(s, Connecting) && InConn(s', Waiting) == InConn(s, Waiting)
        && InConn(s', ConnectFailed) == InConn(s, ConnectFailed);
    assert Querying(s') == Querying(s);
  }

  /** A check that an observer does not notice. */
  ghost predicate Unseen(s: State, o: Outcome) {
    o.Next? ==> Alike(s, o.state) && forall c :: c in o.out ==> !Matters(c.body)
  }

  lemma UnseenKeeps(w: Watch, s: State, o: Outcome, anew: bool)
    requires Right(w, s) && Unseen(s, o)
    ensures Seen(w, o, anew) && (o.Next? ==> HeardAll(w, o.out, anew) == w)
  {
    if o.Next? {
      AlikeRight(w, s, o.state);
      NothingHeard(w, o.out, anew);
    }
  }

  lemma UnseenThrough(s: State, a: Outcome, b: Outcome)
    requires a.Next? && Unseen(s, a) && Unseen(a.state, b)
    ensures Unseen(s, Before(b, a.out))
  {
    if b.Next? {
      forall c | c in a.out + b.out ensures !Matters(c.body) { assert c in a.out || c in b.out; }
    }
  }

  lemma UnseenAfter(s: State, s': State, o: Outcome)
    requires Alike(s, s') && Unseen(s', o)
    ensures Unseen(s, o)
  {
  }

  lemma StayUnseen(s: State, u: Uuid)
    ensures Unseen(s, Stay(s)) && Unseen(s, KickOut(s, u))
  {
  }

  // The checks of an establishment phase ----------------------------------------------------------------

  lemma OpenSets(s: State, accept: bool)
    ensures
      var o := OpenP2P(s, accept);
      && o.clients.Keys == s.clients.Keys && o.byAddr == s.byAddr && Everyone(o) == Everyone(s) && Querying(o) == Querying(s)
      && InConn(o, Connecting) == (if accept then s.clients.Keys else Everyone(s) + InConn(s, Connecting))
      && forall c :: c != Connecting ==> InConn(o, c) == InConn(s, c) - InConn(o, Connecting)
  {
  }

  /** An opening, with its packet. */
  lemma OpenSeen(w: Watch, s: State, accept: bool, anew: bool)
    requires Right(w, s) && (!anew ==> w.left)
    ensures
      var o := OpenP2P(s, accept).(dropped := !anew);
      var c := Cast(InConn(o, Connecting), PeersInfo(accept));
      Right(Heard(w, c, anew), o) && True(w, c, anew)
  {
    var o := OpenP2P(s, accept);
    OpenSets(s, accept);
    DroppedSets(o, !anew);
    assert w.asked <= s.clients.Keys;
    hide OpenP2P, InConn, Everyone, Querying;
    var to := InConn(o, Connecting);
    assert w.asked + to == to;
  }

  lemma DroppedSets(s: State, d: bool)
    ensures
      var s' := s.(dropped := d);
      Everyone(s') == Everyone(s) && Querying(s') == Querying(s) && forall c :: InConn(s', c) == InConn(s, c)
  {
  }

  lemma LeftIs(w: Watch, s: State)
    requires Right(w, s)
    ensures w.left == s.dropped
  {
  }

  lemma OneOpening(w: Watch, s: State, accept: bool, anew: bool)
    requires Right(w, if anew then s else s.(dropped := true))
    ensures
      var o := OpenP2P(s, accept).(dropped := false);
      Seen(w, Next(if anew then o else o.(dropped := true), [Cast(InConn(o, Connecting), PeersInfo(accept))]), anew)
  {
    hide Right, Heard, Consensus, Seen, True;
    var s0 := if anew then s else s.(dropped := true);
    LeftIs(w, s0);
    OpenSeen(w, s0, accept, anew);
    var o := OpenP2P(s, accept).(dropped := false);
    var o' := if anew then o else o.(dropped := true);
    assert OpenP2P(s0, accept).(dropped := !anew) == o';
    assert InConn(o', Connecting) == InConn(o, Connecting);
    SeenOne(w, o', Cast(InConn(o, Connecting), PeersInfo(accept)), anew);
  }

  /** The check for openings. Whoever checks after a departure sets the mark of it again. */
  lemma OpeningSeen(w: Watch, s: State, anew: bool)
    requires Right(w, if anew then s else s.(dropped := true))
    ensures
      var o := CheckEstablish(s);
      o.Next? && Seen(w, if anew then o else o.(state := o.state.(dropped := true)), anew)
  {
    hide Consensus, OpenP2P, InConn, Right, Heard, HeardAll, AllTrue, True;
    var a := if AcceptConsensus(s) then OpenP2P(s, true).(dropped := false) else s;
    var first := if AcceptConsensus(s) then Next(a, [Cast(InConn(a, Connecting), PeersInfo(true))]) else Stay(s);
    var first' := if anew then first else first.(state := a.(dropped := true));
    SeenNothing(w, if anew then s else s.(dropped := true), anew);
    if AcceptConsensus(s) { OneOpening(w, s, true, anew); }
    assert Seen(w, first', anew);
    if EstablishConsensus(a) {
      var b := OpenP2P(a, false).(dropped := false);
      var second := Next(if anew then b else b.(dropped := true), [Cast(InConn(b, Connecting), PeersInfo(false))]);
      var w1 := HeardAll(w, first'.out, anew);
      OneOpening(w1, a, false, anew);
      SeenThrough(w, first', second, anew);
    }
  }

  lemma ClosingSeen(w: Watch, s: State, anew: bool)
    requires Right(w, s)
    ensures Seen(w, CheckP2P(s), anew)
  {
    hide CloseP2P, Newcomers, Participants, CanEndP2P, P2PConsensus, Right, Seen, True, Heard;
    var failure := s.dropped || exists u :: u in s.clients && s.clients[u].conn == ConnectFailed;
    SeenNothing(w, s, anew);
    if P2PConsensus(s) && CanEndP2P(s, failure) {
      ClosesSeen(w, s, failure, anew);
      SeenOne(w, CloseP2P(s, failure), Cast(Participants(CloseP2P(s, failure)), Established(!failure)), anew);
    }
    assert CheckP2P(s).Halt? ==> Seen(w, CheckP2P(s), anew) by { HaltSeen(w, CheckP2P(s), anew); }
  }

  lemma HaltSeen(w: Watch, o: Outcome, anew: bool)
    ensures o.Halt? ==> Seen(w, o, anew)
  {
  }

  /** Client by client: who is told, who is accepted, and how it goes on. */
  lemma ClosedClient(s: State, failure: bool, u: Uuid)
    requires CanEndP2P(s, failure) && u in s.clients
    ensures
      var i, j := s.clients[u], EndedInfo(s.clients[u], failure);
      && CloseP2P(s, failure).clients[u] == j
      && (u in Participants(CloseP2P(s, failure)) <==> i.conn == Waiting || i.conn == ConnectFailed)
      && (j.phase == Accepted <==> i.phase == Accepted || i.conn == Waiting)
      && j.conn != Connecting && j.conn != Waiting && j.pending == i.pending
      && (j.conn == ConnectFailed <==> failure && (i.conn == Waiting || i.conn == ConnectFailed))
      && (i.phase == Accepted ==> i.conn == Waiting || i.conn == ConnectFailed)
  {
  }

  lemma ClosedSets(s: State, failure: bool)
    requires CanEndP2P(s, failure)
    ensures
      var s', to := CloseP2P(s, failure), Participants(CloseP2P(s, failure));
      && s'.clients.Keys == s.clients.Keys && s'.byAddr == s.byAddr && !s'.dropped
      && to == InConn(s, Waiting) + InConn(s, ConnectFailed) && Everyone(s) <= to
      && Everyone(s') == Everyone(s) + InConn(s, Waiting)
      && InConn(s', Connecting) == {} && InConn(s', Waiting) == {} && InConn(s', ConnectFailed) == (if failure then to else {})
      && Querying(s') == Querying(s)
  {
    var s' := CloseP2P(s, failure);
    assert s'.clients.Keys == s.clients.Keys && s'.byAddr == s.byAddr && !s'.dropped;
    forall u | u in s.clients
      ensures var i, j := s.clients[u], s'.clients[u];
        && (u in Participants(s') <==> i.conn == Waiting || i.conn == ConnectFailed)
        && (j.phase == Accepted <==> i.phase == Accepted || i.conn == Waiting)
        && j.conn != Connecting && j.conn != Waiting && j.pending == i.pending
        && (j.conn == ConnectFailed <==> failure && (i.conn == Waiting || i.conn == ConnectFailed))
        && (i.phase == Accepted ==> i.conn == Waiting || i.conn == ConnectFailed)
    {
      ClosedClient(s, failure, u);
    }
    hide CloseP2P, EndedInfo;
  }

  /** The same in terms of the observer. */
  lemma ClosedRight(w: Watch, s: State, s': State, failure: bool, to: set<Uuid>, anew: bool)
    requires Right(w, s) && s'.clients.Keys == s.clients.Keys && s'.byAddr == s.byAddr && !s'.dropped
    requires to == w.done + w.failed && Everyone(s') == w.accepted + w.done && Querying(s') == w.querying
    requires InConn(s', Connecting) == {} && InConn(s', Waiting) == {} && InConn(s', ConnectFailed) == (if failure then to else {})
    requires w.done !! w.failed
    ensures Right(Heard(w, Cast(to, Established(!failure)), anew), s')
  {
    hide Everyone, InConn, Querying;
    assert w.accepted + (to - w.failed) == w.accepted + w.done;
  }

  lemma ReportsDiffer(w: Watch, s: State)
    requires Right(w, s)
    ensures w.done !! w.failed
  {
  }

  lemma ClosesSeen(w: Watch, s: State, failure: bool, anew: bool)
    requires Right(w, s) && P2PConsensus(s) && CanEndP2P(s, failure)
    requires failure == (s.dropped || exists u :: u in s.clients && s.clients[u].conn == ConnectFailed)
    ensures
      var c := Cast(Participants(CloseP2P(s, failure)), Established(!failure));
      Right(Heard(w, c, anew), CloseP2P(s, failure)) && True(w, c, anew)
  {
    hide CloseP2P, Participants, P2PConsensus, CanEndP2P, InConn, Everyone, Querying, Heard;
    ClosedSets(s, failure);
    NobodyConnects(w, s);
    ReportsDiffer(w, s);
    ClosedRight(w, s, CloseP2P(s, failure), failure, Participants(CloseP2P(s, failure)), anew);
  }

  lemma NobodyConnects(w: Watch, s: State)
    requires Right(w, s) && P2PConsensus(s)
    ensures w.asked == {} && w.done + w.failed != {}
    ensures w.failed != {} <==> exists u :: u in s.clients && s.clients[u].conn == ConnectFailed
  {
    var u :| u in s.clients && Reported(s.clients[u].conn);
    assert u in w.done + w.failed;
    if v :| v in s.clients && s.clients[v].conn == ConnectFailed { assert v in w.failed; }
    if w.failed != {} { var v :| v in w.failed; }
  }

  // Steps -----------------------------------------------------------------------------------------------

  /** A request to connect. */
  lemma RequestSeen(w: Watch, s: State, u: Uuid, e: Event)
    requires Right(w, s) && u in s.clients && e.RequestP2P?
    ensures Seen(Noted(w, u, e), OnRequestP2P(s, u, e.accept), true)
  {
    hide CastVote, CheckEstablish, Right, Seen, Noted;
    var i := s.clients[u];
    HaltSeen(Noted(w, u, e), OnRequestP2P(s, u, e.accept), true);
    if i.phase != Accepted || (i.conn != Idle && i.conn != ConnectFailed) {
      StayUnseen(s, u);
      UnseenKeeps(w, s, KickOut(s, u), true);
      NotRequested(w, s, u, e);
    } else {
      var b := if e.accept then ToAccept else ToEstablish;
      var voted := CastVote(s, u, b);
      if voted.Next? {
        VotedSeen(w, s, u, b, e);
        OpeningSeen(Noted(w, u, e), voted.state, true);
      }
    }
  }

  lemma NotRequested(w: Watch, s: State, u: Uuid, e: Event)
    requires Right(w, s) && e.RequestP2P? && u in s.clients
    requires s.clients[u].phase != Accepted || (s.clients[u].conn != Idle && s.clients[u].conn != ConnectFailed)
    ensures Noted(w, u, e) == w
  {
    if u in w.accepted { assert w.failed - {u} == w.failed; }
  }

  function Put(us: set<Uuid>, u: Uuid, b: bool): set<Uuid> { if b then us + {u} else us - {u} }

  /** What changes with one client. */
  lemma OneChanged(s: State, s': State, u: Uuid, i: Info)
    requires s'.clients == s.clients[u := i]
    ensures Everyone(s') == Put(Everyone(s), u, i.phase == Accepted) && Querying(s') == Put(Querying(s), u, i.pending)
    ensures forall c :: InConn(s', c) == Put(InConn(s, c), u, i.conn == c)
  {
  }

  /** Nothing changes if `u` was there already, or was not. */
  lemma PutSame(us: set<Uuid>, u: Uuid)
    ensures Put(us, u, u in us) == us
  {
  }

  lemma Belongs(s: State, u: Uuid, c: Conn)
    requires u in s.clients
    ensures (u in Everyone(s) <==> s.clients[u].phase == Accepted) && (u in Querying(s) <==> s.clients[u].pending)
    ensures u in InConn(s, c) <==> s.clients[u].conn == c
    ensures s.clients.Keys + {u} == s.clients.Keys
  {
  }

  lemma OneSeen(w: Watch, s: State, s': State, u: Uuid, i: Info)
    requires Right(w, s) && u in s.clients && s'.clients == s.clients[u := i] && s'.byAddr == s.byAddr && s'.dropped == s.dropped
    requires i.phase == s.clients[u].phase
    ensures Right(w.(asked := Put(w.asked, u, i.conn == Connecting), done := Put(w.done, u, i.conn == Waiting),
                     failed := Put(w.failed, u, i.conn == ConnectFailed), querying := Put(w.querying, u, i.pending)), s')
  {
    OneChanged(s, s', u, i);
    Belongs(s, u, Idle);
    PutSame(Everyone(s), u);
    hide Everyone, InConn, Querying;
  }

  lemma VotedSeen(w: Watch, s: State, u: Uuid, b: Ballot, e: Event)
    requires Right(w, s) && e.RequestP2P? && u in s.clients && (b == ToAccept || b == ToEstablish)
    requires s.clients[u].phase == Accepted && (s.clients[u].conn == Idle || s.clients[u].conn == ConnectFailed)
    requires CastVote(s, u, b).Next?
    ensures Right(Noted(w, u, e), CastVote(s, u, b).state)
  {
    var i := s.clients[u].(conn := VoteConn(b));
    CastVoteFields(s, u, b);
    VoteDropped(s, u, b);
    OneSeen(w, s, CastVote(s, u, b).state, u, i);
    hide CastVote;
    Belongs(s, u, Connecting);
    Belongs(s, u, Waiting);
    hide Everyone, InConn, Querying;
    PutSame(w.asked, u);
    PutSame(w.done, u);
    PutSame(w.querying, u);
  }

  lemma VoteDropped(s: State, u: Uuid, b: Ballot)
    requires u in s.clients && CastVote(s, u, b).Next?
    ensures CastVote(s, u, b).state.dropped == s.dropped && CastVote(s, u, b).state.byAddr == s.byAddr
  {
  }

  lemma ReportedSeen(w: Watch, s: State, u: Uuid, e: Event)
    requires Right(w, s) && u in s.clients && s.clients[u].conn == Connecting
    requires e.ReportP2P? && (e.success || e.fail == NewRing)
    ensures Right(Noted(w, u, e), SetConn(s, u, if e.success then Waiting else ConnectFailed))
  {
    var i := s.clients[u].(conn := if e.success then Waiting else ConnectFailed);
    OneSeen(w, s, SetInfo(s, u, i), u, i);
    Belongs(s, u, Connecting);
    Belongs(s, u, Waiting);
    Belongs(s, u, ConnectFailed);
    hide Everyone, InConn, Querying;
    PutSame(w.done, u);
    PutSame(w.failed, u);
    PutSame(w.querying, u);
  }

  /** A report of a peer; the last one ends the phase. */
  lemma ReportSeen(w: Watch, s: State, u: Uuid, e: Event)
    requires Right(w, s) && u in s.clients && e.ReportP2P?
    ensures Seen(Noted(w, u, e), OnReportP2P(s, u, e.success, e.fail), true)
  {
    hide CheckP2P, Seen;
    HaltSeen(Noted(w, u, e), OnReportP2P(s, u, e.success, e.fail), true);
    if s.clients[u].conn != Connecting || (!e.success && e.fail != NewRing) {
      assert Noted(w, u, e) == w;
      StayUnseen(s, u);
      UnseenKeeps(w, s, KickOut(s, u), true);
    } else {
      ReportedSeen(w, s, u, e);
      ClosingSeen(Noted(w, u, e), SetConn(s, u, if e.success then Waiting else ConnectFailed), true);
    }
  }

  lemma ResetSets(s: State)
    ensures
      var s' := ResetPendingAll(s);
      && s'.clients.Keys == s.clients.Keys && s'.byAddr == s.byAddr && s'.dropped == s.dropped
      && Everyone(s') == Everyone(s) && Querying(s') == Querying(s) - Everyone(s)
      && forall c :: InConn(s', c) == InConn(s, c)
  {
  }

  lemma AllAsk(w: Watch, s: State)
    requires Right(w, s) && PendingConsensus(s)
    ensures w.accepted <= w.querying
    ensures w.known != w.accepted <==> exists u :: u in s.clients && s.clients[u].phase == Registered
  {
  }

  lemma AnswerSeen(w: Watch, s: State, s': State, b: bool, anew: bool)
    requires Right(w, s) && s'.clients.Keys == s.clients.Keys && s'.byAddr == s.byAddr && s'.dropped == s.dropped
    requires Everyone(s') == Everyone(s) && Querying(s') == Querying(s) - Everyone(s)
    requires forall c :: InConn(s', c) == InConn(s, c)
    ensures Right(Heard(w, Cast(Everyone(s), Pending(b)), anew), s')
  {
    hide Everyone, InConn, Querying;
  }

  /** The answer to a query for pending peers. */
  lemma PendingSeen(w: Watch, s: State, anew: bool)
    requires Right(w, s)
    ensures CheckPending(s).Next? && Seen(w, CheckPending(s), anew)
  {
    hide Seen, ResetPendingAll, Everyone, InConn, Querying, PendingConsensus, Heard;
    SeenNothing(w, s, anew);
    if PendingConsensus(s) {
      var c := Cast(Everyone(s), Pending(exists u :: u in s.clients && s.clients[u].phase == Registered));
      AllAsk(w, s);
      ResetSets(s);
      AnswerSeen(w, s, ResetPendingAll(s), c.body.peers, anew);
      SeenOne(w, ResetPendingAll(s), c, anew);
    }
  }

  lemma AskSeen(w: Watch, s: State, u: Uuid, e: Event)
    requires Right(w, s) && u in s.clients && s.clients[u].phase == Accepted && e.QueryPending?
    ensures Right(Noted(w, u, e), SetInfo(s, u, s.clients[u].(pending := true)))
  {
    var i := s.clients[u].(pending := true);
    OneSeen(w, s, SetInfo(s, u, i), u, i);
    Belongs(s, u, Connecting);
    Belongs(s, u, Waiting);
    Belongs(s, u, ConnectFailed);
    hide Everyone, InConn, Querying;
    PutSame(w.asked, u);
    PutSame(w.done, u);
    PutSame(w.failed, u);
  }

  lemma AskedAgain(w: Watch, s: State, u: Uuid, e: Event)
    requires Right(w, s) && u in s.clients && (s.clients[u].phase != Accepted || s.clients[u].pending) && e.QueryPending?
    ensures Noted(w, u, e) == w
  {
    if s.clients[u].phase == Accepted { assert w.querying + {u} == w.querying; }
  }

  lemma QuerySeen(w: Watch, s: State, u: Uuid, e: Event)
    requires Right(w, s) && u in s.clients && e.QueryPending?
    ensures Seen(Noted(w, u, e), OnQueryPending(s, u), true)
  {
    hide CheckPending, Right, Seen, Noted;
    if s.clients[u].phase != Accepted || s.clients[u].pending {
      AskedAgain(w, s, u, e);
      StayUnseen(s, u);
      UnseenKeeps(w, s, KickOut(s, u), true);
    } else {
      AskSeen(w, s, u, e);
      PendingSeen(Noted(w, u, e), SetInfo(s, u, s.clients[u].(pending := true)), true);
    }
  }

  /** The start and the end of an optimization. */
  lemma OptimizeSeen(w: Watch, s: State, u: Uuid)
    requires Right(w, s) && u in s.clients
    ensures Seen(w, OnRequestOptimize(s, u), true) && Seen(w, OnReportOptimized(s, u), true)
  {
    hide Right, Seen, CastVote, Unanimous, Consensus, AllTo, SetVotes, Everyone;
    HaltSeen(w, OnRequestOptimize(s, u), true);
    HaltSeen(w, OnReportOptimized(s, u), true);
    StayUnseen(s, u);
    UnseenKeeps(w, s, KickOut(s, u), true);
    var i := s.clients[u];
    if i.phase == Accepted && (i.conn == Idle || i.conn == OptimizeFailed) {
      OptimizeMoves(w, s, u, ToOptimize, Optimizing, OptimizeStart);
    }
    if i.phase == Accepted && i.conn == Optimizing {
      OptimizeMoves(w, s, u, ToEndOptimize, Idle, OptimizeEnd);
    }
  }

  lemma OptimizeMoves(w: Watch, s: State, u: Uuid, b: Ballot, to: Conn, body: Body)
    requires Right(w, s) && u in s.clients && !InPhase(s.clients[u].conn) && !InPhase(VoteConn(b)) && !InPhase(to)
    requires body == OptimizeStart || body == OptimizeEnd
    ensures
      var voted := CastVote(s, u, b);
      && Seen(w, voted, true)
      && (voted.Next? && Unanimous(voted.state, VoteConn(b)) ==>
            Seen(w, Next(SetVotes(AllTo(voted.state, to), b, {}), [Cast(Everyone(s), body)]), true))
  {
    hide Seen, Right, CastVote, Unanimous, AllTo, SetVotes, Everyone, Alike, VoteConn;
    var voted := CastVote(s, u, b);
    HaltSeen(w, voted, true);
    if voted.Next? {
      VoteAlike(s, u, b);
      VoteUnseen(s, u, b);
      UnseenKeeps(w, s, voted, true);
      AlikeRight(w, s, voted.state);
      if Unanimous(voted.state, VoteConn(b)) {
        var s' := SetVotes(AllTo(voted.state, to), b, {});
        MoveAlike(voted.state, b, VoteConn(b), to);
        AlikeRight(w, voted.state, s');
        AcceptedKnown(w, s);
        var c := Cast(Everyone(s), body);
        assert Heard(w, c, true) == w && True(w, c, true);
        SeenOne(w, s', c, true);
      }
    }
  }

  lemma VoteUnseen(s: State, u: Uuid, b: Ballot)
    requires u in s.clients && !InPhase(s.clients[u].conn) && !InPhase(VoteConn(b))
    ensures Unseen(s, CastVote(s, u, b))
  {
    hide Alike, VoteConn;
    if CastVote(s, u, b).Next? { VoteAlike(s, u, b); }
  }

  lemma VoteAlike(s: State, u: Uuid, b: Ballot)
    requires u in s.clients && CastVote(s, u, b).Next? && !InPhase(s.clients[u].conn) && !InPhase(VoteConn(b))
    ensures Alike(s, CastVote(s, u, b).state)
  {
    hide VoteConn;
  }

  lemma MoveAlike(s: State, b: Ballot, from: Conn, to: Conn)
    requires Unanimous(s, from) && !InPhase(from) && !InPhase(to)
    ensures Alike(s, SetVotes(AllTo(s, to), b, {}))
  {
    var s' := SetVotes(AllTo(s, to), b, {});
    forall u | u in s.clients ensures Likewise(s.clients[u], s'.clients[u]) {
      assert s'.clients[u] == if s.clients[u].phase == Accepted then s.clients[u].(conn := to) else s.clients[u];
    }
    hide SetVotes, AllTo, Likewise, Unanimous;
  }

  lemma AcceptedKnown(w: Watch, s: State)
    requires Right(w, s)
    ensures w.accepted == Everyone(s)
  {
  }

  // Steps that an observer does not notice --------------------------------------------------------------

  lemma OneUnseen(s: State, s': State, c: Cast)
    requires Alike(s, s') && !Matters(c.body)
    ensures Unseen(s, Next(s', [c]))
  {
  }

  lemma AssignAlike(s: State, g: Group, distributors: set<Uuid>)
    ensures Alike(s, SetVotes(Assigned(s, g, distributors), ToSync(g), {}))
  {
    var s' := SetVotes(Assigned(s, g, distributors), ToSync(g), {});
    forall u | u in s.clients ensures Likewise(s.clients[u], s'.clients[u]) { }
  }

  lemma EndAlike(s: State, g: Group)
    requires Members(s, g) <= In(s, g, VoteSynced)
    ensures Alike(s, EndRound(s, g))
  {
    hide SetVotes;
    var s' := EndRound(s, g);
    assert s'.dropped == s.dropped && s'.byAddr == s.byAddr && s'.clients.Keys == s.clients.Keys by { EndFields(s, g); }
    forall u | u in s.clients ensures Likewise(s.clients[u], s'.clients[u]) {
      EndFields(s, g);
      if s.clients[u].phase == Accepted && s.clients[u].group == g { assert u in Members(s, g) && u in In(s, g, VoteSynced); }
    }
  }

  lemma EndFields(s: State, g: Group)
    ensures EndRound(s, g).dropped == s.dropped && EndRound(s, g).byAddr == s.byAddr
    ensures EndRound(s, g).clients.Keys == s.clients.Keys
    ensures forall u :: u in s.clients ==>
      var i := s.clients[u];
      EndRound(s, g).clients[u] == if i.phase == Accepted && i.group == g then i.(conn := Idle) else i
  {
  }

  lemma SyncUnseen(s: State, g: Group, verdict: SyncVerdict)
    ensures Unseen(s, CheckSync(s, g, verdict)) && Unseen(s, CheckSynced(s, g))
  {
    hide Votes, Members, In, Assigned, SetVotes, EndRound, Alike, Unseen;
    StayUnseen(s, 0);
    HaltUnseen(s, CheckSync(s, g, verdict));
    HaltUnseen(s, CheckSynced(s, g));
    match verdict {
      case Mismatch(peer) => StayUnseen(s, peer);
      case Assign(distributors) =>
        AssignAlike(s, g, distributors);
        OneUnseen(s, SetVotes(Assigned(s, g, distributors), ToSync(g), {}), Cast(Members(s, g), SyncStart));
      case _ =>
    }
    if Members(s, g) <= In(s, g, VoteSynced) {
      EndAlike(s, g);
      OneUnseen(s, EndRound(s, g), Cast(Members(s, g), Body.SyncEnd));
    }
  }

  lemma CommenceAlike(s: State, g: Group, tag: Tag)
    ensures Alike(s, Commenced(s, g, tag))
  {
    hide Members;
    var s' := Commenced(s, g, tag);
    forall u | u in s.clients ensures Likewise(s.clients[u], s'.clients[u]) { }
  }

  lemma ConcludeAlike(s: State, g: Group, tag: Tag)
    requires Members(s, g) <= Runners(s, g)
    ensures Alike(s, Concluded(s, g, tag))
  {
    hide Members, WithoutTag, Likewise;
    var s' := Concluded(s, g, tag);
    forall u | u in s.clients ensures Likewise(s.clients[u], s'.clients[u]) {
      if u in Members(s, g) { assert u in Runners(s, g); }
      WithoutLikewise(s.clients[u], tag);
    }
  }

  lemma WithoutLikewise(i: Info, tag: Tag)
    ensures Likewise(i, i) && (i.conn == Running ==> Likewise(i, WithoutTag(i, tag)))
  {
  }

  lemma CollUnseen(s: State, g: Group, tag: Tag)
    ensures Unseen(s, CheckInitiate(s, g, tag)) && Unseen(s, CheckComplete(s, g, tag)) && Unseen(s, MarkAborted(s, g, tag))
  {
    hide Alike, AllInColl, Members, Runners, Commenced, Concluded;
    CommenceAlike(s, g, tag);
    if Members(s, g) <= Runners(s, g) { ConcludeAlike(s, g, tag); }
    assert Alike(s, s) && Alike(s, s.(aborts := s.aborts + {(g, tag)})) by { SelfAlike(s, g, tag); }
  }

  lemma SelfAlike(s: State, g: Group, tag: Tag)
    ensures Alike(s, s) && Alike(s, s.(aborts := s.aborts + {(g, tag)}))
  {
  }

  lemma RecheckUnseen(s: State, g: Group, tag: Tag)
    ensures Unseen(s, Recheck(s, g, tag))
  {
    hide Unseen, CheckInitiate, CheckComplete, MarkAborted, InProgress;
    CollUnseen(s, g, tag);
    var a := CheckInitiate(s, g, tag);
    if a.Next? {
      CollUnseen(a.state, g, tag);
      var b := CheckComplete(a.state, g, tag);
      if b.Next? {
        CollUnseen(b.state, g, tag);
        StayUnseen(b.state, 0);
        UnseenThrough(s, a, b);
        var c := if InProgress(b.state, g, tag) then MarkAborted(b.state, g, tag) else Stay(b.state);
        UnseenThrough(s, Before(b, a.out), c);
      } else {
        HaltUnseen(s, b);
      }
    } else {
      HaltUnseen(s, a);
    }
  }

  lemma HaltUnseen(s: State, o: Outcome)
    ensures o.Halt? ==> Unseen(s, o)
  {
  }

  lemma {:induction false} RecheckAllUnseen(s: State, g: Group, tags: seq<Tag>)
    ensures Unseen(s, RecheckAll(s, g, tags))
    decreases |tags|
  {
    hide Unseen, Recheck;
    StayUnseen(s, 0);
    if tags != [] {
      RecheckUnseen(s, g, tags[0]);
      var a := Recheck(s, g, tags[0]);
      if a.Next? {
        RecheckAllUnseen(a.state, g, tags[1..]);
        UnseenThrough(s, a, RecheckAll(a.state, g, tags[1..]));
      }
    }
  }

  lemma RoundUnseen(s: State, u: Uuid, legal: bool, strategy: Strategy, verdict: SyncVerdict)
    requires u in s.clients
    ensures Unseen(s, OnSyncState(s, u, legal, strategy, verdict)) && Unseen(s, OnReportSynced(s, u))
  {
    hide Unseen, CheckSync, CheckSynced, CastVote;
    HaltUnseen(s, OnSyncState(s, u, legal, strategy, verdict));
    HaltUnseen(s, OnReportSynced(s, u));
    StayUnseen(s, u);
    var i := s.clients[u];
    if i.phase == Accepted && i.conn == Idle {
      var voted := CastVote(s, u, ToSync(i.group));
      if voted.Next? {
        VoteAlike(s, u, ToSync(i.group));
        var s1 := voted.state.(strategies := s.strategies[u := strategy]);
        SyncUnseen(s1, i.group, verdict);
        UnseenAfter(s, s1, CheckSync(s1, i.group, verdict));
      }
    }
    if i.phase == Accepted && (i.conn == Distributing || i.conn == Requesting) {
      var voted := CastVote(s, u, ToEndSync(i.group));
      if voted.Next? {
        VoteAlike(s, u, ToEndSync(i.group));
        SyncUnseen(voted.state, i.group, NoMask);
        UnseenAfter(s, voted.state, CheckSynced(voted.state, i.group));
      }
    }
  }

  lemma OperationUnseen(s: State, u: Uuid, tag: Tag, aborted: bool)
    requires u in s.clients
    ensures Unseen(s, OnInitiate(s, u, tag)) && Unseen(s, OnComplete(s, u, tag, aborted))
  {
    hide Unseen, CheckInitiate, CheckComplete, MarkAborted, Alike, SetInfo, InColl;
    StayUnseen(s, u);
    var i := s.clients[u];
    if i.phase == Accepted && (i.conn == Idle || i.conn == Running) {
      var s1 := SetInfo(s, u, i.(conn := Running, coll := i.coll[tag := VoteInit]));
      InfoAlike(s, u, i.(conn := Running, coll := i.coll[tag := VoteInit]));
      CollUnseen(s1, i.group, tag);
      UnseenAfter(s, s1, CheckInitiate(s1, i.group, tag));
    }
    var voted := SetInfo(s, u, i.(coll := i.coll[tag := VoteDone]));
    InfoAlike(s, u, i.(coll := i.coll[tag := VoteDone]));
    CollUnseen(voted, i.group, tag);
    StayUnseen(voted, u);
    var marked := if aborted then MarkAborted(voted, i.group, tag) else Stay(voted);
    MarkGoesOn(voted, i.group, tag);
    CollUnseen(marked.state, i.group, tag);
    UnseenThrough(voted, marked, CheckComplete(marked.state, i.group, tag));
    UnseenAfter(s, voted, Before(CheckComplete(marked.state, i.group, tag), marked.out));
  }

  lemma InfoAlike(s: State, u: Uuid, i: Info)
    requires u in s.clients && Likewise(s.clients[u], i)
    ensures Alike(s, SetInfo(s, u, i))
  {
  }

  lemma MarkGoesOn(s: State, g: Group, tag: Tag)
    ensures MarkAborted(s, g, tag).Next?
  {
  }

  // A departure -----------------------------------------------------------------------------------------

  lemma LeaveNames(s: State, u: Uuid)
    requires u in s.clients
    ensures Leave(s, u).byAddr == s.byAddr - {s.clients[u].addr}
  {
  }

  lemma LeaveSeen(w: Watch, s: State, u: Uuid, e: Event)
    requires Right(w, s) && u in s.clients && e.Disconnect? && e.addr == s.clients[u].addr
    ensures Right(Noted(w, u, e), Leave(s, u).(dropped := true))
  {
    hide SetVotes, Votes;
    RetryRace.LeaveClients(s, u);
    LeaveNames(s, u);
    var s' := Leave(s, u);
    hide Leave;
    assert Everyone(s') == Everyone(s) - {u};
    assert InConn(s', Connecting) == InConn(s, Connecting) - {u};
    assert InConn(s', Waiting) == InConn(s, Waiting) - {u};
    assert InConn(s', ConnectFailed) == InConn(s, ConnectFailed) - {u};
    assert Querying(s') == Querying(s) - {u};
  }

  /** The checks after a departure, in their order. */
  lemma DepartedSeen(w: Watch, s: State, u: Uuid, e: Event)
    requires Right(w, s) && u in s.clients && e.Disconnect? && e.addr == s.clients[u].addr
    ensures Seen(Noted(w, u, e), Departed(s, u, e.verdict), false)
  {
    hide Right, Seen, Noted, Leave, CheckEstablish, CheckP2P, CheckPending, CheckSync, CheckSynced;
    var w1, g := Noted(w, u, e), s.clients[u].group;
    LeaveSeen(w, s, u, e);
    OpeningSeen(w1, Leave(s, u), false);
    HaltSeen(w1, Departed(s, u, e.verdict), false);
    var a := CheckEstablish(Leave(s, u));
    var a' := a.(state := a.state.(dropped := true));
    SeenRight(w1, a', false);
    ClosingSeen(HeardAll(w1, a.out, false), a'.state, false);
    var b := CheckP2P(a'.state);
    if b.Next? {
      SeenThrough(w1, a', b, false);
      SeenRight(w1, Before(b, a.out), false);
      PendingSeen(HeardAll(w1, a.out + b.out, false), b.state, false);
      var c := CheckPending(b.state);
      SeenThrough(w1, Before(b, a.out), c, false);
      RoundsSeen(w1, c.state, a.out + b.out + c.out, g, e.verdict);
    }
  }

  lemma SeenRight(w: Watch, o: Outcome, anew: bool)
    requires Seen(w, o, anew) && o.Next?
    ensures Right(HeardAll(w, o.out, anew), o.state)
  {
  }

  lemma RoundsSeen(w: Watch, s: State, out: seq<Cast>, g: Group, verdict: SyncVerdict)
    requires Seen(w, Next(s, out), false)
    ensures
      var d := CheckSync(s, g, verdict);
      d.Next? ==> Seen(w, Before(CheckSynced(d.state, g), out + d.out), false)
  {
    hide Right, Seen, CheckSync, CheckSynced;
    SeenRight(w, Next(s, out), false);
    SyncUnseen(s, g, verdict);
    UnseenKeeps(HeardAll(w, out, false), s, CheckSync(s, g, verdict), false);
    var d := CheckSync(s, g, verdict);
    if d.Next? {
      SeenThrough(w, Next(s, out), d, false);
      var o := Next(d.state, out + d.out);
      assert o == Before(d, out);
      SeenRight(w, o, false);
      SyncUnseen(d.state, g, verdict);
      UnseenKeeps(HeardAll(w, o.out, false), d.state, CheckSynced(d.state, g), false);
      SeenThrough(w, o, CheckSynced(d.state, g), false);
    }
  }

  lemma DisconnectSeen(w: Watch, s: State, u: Uuid, e: Event)
    requires Right(w, s) && u in s.clients && e.Disconnect? && e.addr == s.clients[u].addr
    ensures Seen(Noted(w, u, e), OnDisconnect(s, u, e.verdict, e.tags), false)
  {
    hide Right, Seen, Noted, Departed, RecheckAll;
    var w1, g := Noted(w, u, e), s.clients[u].group;
    DepartedSeen(w, s, u, e);
    HaltSeen(w1, OnDisconnect(s, u, e.verdict, e.tags), false);
    var a := Departed(s, u, e.verdict);
    if a.Next? {
      SeenRight(w1, a, false);
      RecheckAllUnseen(a.state, g, e.tags);
      UnseenKeeps(HeardAll(w1, a.out, false), a.state, RecheckAll(a.state, g, e.tags), false);
      SeenThrough(w1, a, RecheckAll(a.state, g, e.tags), false);
    }
  }

  // A registration --------------------------------------------------------------------------------------

  lemma OpenAgain(w: Watch, s: State)
    requires Right(w, s)
    ensures Seen(w, Next(s, [Cast(InConn(s, Connecting), PeersInfo(true))]), false)
  {
    hide Seen;
    var c := Cast(InConn(s, Connecting), PeersInfo(true));
    assert w.asked + c.to == w.asked && w.done - c.to == w.done && w.failed - c.to == w.failed;
    assert Heard(w, c, false) == w;
    SeenOne(w, s, c, false);
  }

  lemma JoinSeen(w: Watch, s: State, u: Uuid, i: Info)
    requires Right(w, s) && s.clients != map[] && u !in s.clients && i.phase == Registered && i.conn == Idle && !i.pending
    ensures Right(Heard(w.(names := w.names[i.addr := u]), Cast({u}, Response(true)), true), Join(s, u, i))
    ensures Right(Heard(w.(names := w.names[i.addr := u]), Cast({u}, Response(true)), false), Join(s, u, i))
  {
    var s' := Join(s, u, i);
    var v :| v in s.clients;
    assert v in w.known;
    assert s'.clients.Keys == s.clients.Keys + {u};
    assert Everyone(s') == Everyone(s);
    forall c | InPhase(c) ensures InConn(s', c) == InConn(s, c) { }
    assert Querying(s') == Querying(s);
  }

  lemma FirstSeen(w: Watch, s: State, u: Uuid, i: Info)
    requires Right(w, s) && s.clients == map[] && s.byAddr == map[] && !i.pending
    ensures
      var s' := FirstState(s, u, i);
      var w1 := Heard(w.(names := w.names[i.addr := u]), Cast({u}, Response(true)), false);
      Seen(w1, Next(s', [Cast(InConn(s', Connecting), PeersInfo(true))]), false)
  {
    hide Seen;
    var s' := FirstState(s, u, i);
    var w1 := Heard(w.(names := w.names[i.addr := u]), Cast({u}, Response(true)), false);
    assert Everyone(s) == {} && InConn(s, Connecting) == {} && InConn(s, Waiting) == {} && InConn(s, ConnectFailed) == {};
    assert Querying(s) == {} == Querying(s');
    assert Everyone(s') == {u} && InConn(s', Connecting) == {u} && InConn(s', Waiting) == {} && InConn(s', ConnectFailed) == {};
    SeenOne(w1, s', Cast({u}, PeersInfo(true)), false);
  }

  /** What follows the response. */
  function Welcome(s: State): Outcome {
    if |s.byAddr| == 1 then Next(s, [Cast(InConn(s, Connecting), PeersInfo(true))]) else CheckEstablish(s)
  }

  lemma WelcomeSeen(w: Watch, s: State)
    requires Right(w, s)
    ensures Welcome(s).Next? && Seen(w, Welcome(s), |s.byAddr| != 1)
  {
    hide Seen, Right, CheckEstablish;
    OpenAgain(w, s);
    OpeningSeen(w, s, true);
  }

  lemma SeenHello(w: Watch, u: Uuid, accepted: bool, o: Outcome, anew: bool)
    requires o.Next? && Seen(Heard(w, Cast({u}, Response(accepted)), anew), o, anew)
    ensures Seen(w, Before(o, [Cast({u}, Response(accepted))]), anew)
  {
    hide Right, Heard;
    var c := Cast({u}, Response(accepted));
    assert ([c] + o.out)[1..] == o.out;
  }

  lemma RegisterSeen(w: Watch, s: State, e: Event)
    requires Right(w, s) && Inv(s) && e.Register? && e.id !in s.issued && e.addr !in s.byAddr
    ensures
      var o := OnRegister(s, e.addr, e.local, e.group, e.id);
      && o.Next? && (Welcomed(e, o.out) <==> !Mixes(s, e.local))
      && Seen(Told(w, e, o.out), o, Anew(Told(w, e, o.out), e))
  {
    hide Inv, Right, Heard, Enroll, CheckEstablish, Mixes, Seen;
    var u, i := e.id, Info(Registered, Idle, e.addr, e.local, e.group, map[], false);
    var o := OnRegister(s, e.addr, e.local, e.group, e.id);
    NamesRight(w, s);
    if Mixes(s, e.local) {
      var c := Cast({u}, Response(false));
      assert Heard(w, c, |s.byAddr| != 1) == w by { NotHeard(w, u, |s.byAddr| != 1); }
      WelcomeSeen(w, s);
      SeenHello(w, u, false, Welcome(s), |s.byAddr| != 1);
      WelcomeCasts(s);
      assert Welcomed(e, o.out) <==> false;
    } else {
      var w1 := w.(names := w.names[e.addr := u]);
      EnrollInv(s, e.addr, e.local, e.group, u);
      var joined := Enroll(s, e.addr, e.local, e.group, u).state;
      EnrollSeen(w, s, e);
      WelcomeCasts(joined);
      assert o.out[0] == Cast({u}, Response(true));
      SeenHello(w1, u, true, Welcome(joined), |joined.byAddr| != 1);
    }
  }

  lemma NamesRight(w: Watch, s: State)
    requires Right(w, s)
    ensures w.names == s.byAddr
  {
  }

  lemma NotHeard(w: Watch, u: Uuid, anew: bool)
    ensures Heard(w, Cast({u}, Response(false)), anew) == w
  {
  }

  lemma WelcomeCasts(s: State)
    ensures Welcome(s).Next? && forall c :: c in Welcome(s).out ==> !c.body.Response?
  {
    hide Consensus, OpenP2P, InConn;
  }

  lemma EnrollSeen(w: Watch, s: State, e: Event)
    requires Right(w, s) && Inv(s) && e.Register? && e.id !in s.issued && e.addr !in s.byAddr && !Mixes(s, e.local)
    ensures Enroll(s, e.addr, e.local, e.group, e.id).Next?
    ensures
      var joined := Enroll(s, e.addr, e.local, e.group, e.id).state;
      && joined.byAddr == s.byAddr[e.addr := e.id]
      && Seen(Heard(w.(names := w.names[e.addr := e.id]), Cast({e.id}, Response(true)), |joined.byAddr| != 1),
              Welcome(joined), |joined.byAddr| != 1)
  {
    hide Inv, Right, Heard, CheckEstablish, Mixes, Seen, OpenP2P, CastVote, Consensus;
    var u, i := e.id, Info(Registered, Idle, e.addr, e.local, e.group, map[], false);
    if s.clients == map[] {
      EmptyState(s);
      EnrollFirst(s, e.addr, e.local, e.group, u);
      FirstSeen(w, s, u, i);
      assert |FirstState(s, u, i).byAddr| == 1;
    } else {
      assert u !in s.clients by { MasterOpenings.NewId(s, u); }
      NotFirst(s, u, i);
      JoinSeen(w, s, u, i);
      WelcomeSeen(Heard(w.(names := w.names[e.addr := u]), Cast({u}, Response(true)), true), Join(s, u, i));
    }
  }

  // Every step, and every run ---------------------------------------------------------------------------

  lemma AddressOf(s: State, a: Addr)
    requires Inv(s) && a in s.byAddr
    ensures s.byAddr[a] in s.clients && s.clients[s.byAddr[a]].addr == a
  {
    hide Clients, VotesOk, StrategiesOk, MeteredOk;
  }

  lemma NotWelcomed(e: Event, out: seq<Cast>)
    requires !e.Register?
    ensures !Welcomed(e, out)
  {
  }

  lemma NotNoted(w: Watch, u: Uuid, e: Event)
    requires !e.ReportP2P? && !e.RequestP2P? && !e.Disconnect? && !e.QueryPending?
    ensures Noted(w, u, e) == w
  {
  }

  lemma StepSeen(w: Watch, s: State, e: Event)
    requires Right(w, s) && Inv(s) && Legal(s, e) && Step(s, e).Next?
    ensures
      var w1 := Told(w, e, Step(s, e).out);
      Seen(w1, Step(s, e), Anew(w1, e))
  {
    hide Inv, Right, Seen, Noted, OnRegister, OnRequestP2P, OnReportP2P, OnQueryPending, OnRequestOptimize, OnReportOptimized,
         OnSyncState, OnReportSynced, OnInitiate, OnComplete, OnDisconnect, Welcomed;
    NamesRight(w, s);
    if e.Register? {
      RegisterStepSeen(w, s, e);
    } else {
      NotWelcomed(e, Step(s, e).out);
      if e.addr !in s.byAddr {
        StayUnseen(s, 0);
        UnseenKeeps(w, s, Stay(s), !e.Disconnect?);
      } else {
        AddressOf(s, e.addr);
        HandledSeen(w, s, s.byAddr[e.addr], e);
      }
    }
  }

  lemma RegisterStepSeen(w: Watch, s: State, e: Event)
    requires Right(w, s) && Inv(s) && e.Register? && e.id !in s.issued
    ensures
      var o := OnRegister(s, e.addr, e.local, e.group, e.id);
      o.Next? && Seen(Told(w, e, o.out), o, Anew(Told(w, e, o.out), e))
  {
    hide Inv, Right, Seen, Enroll, CheckEstablish, Mixes;
    if e.addr in s.byAddr {
      var o := KickOut(s, s.byAddr[e.addr]);
      StayUnseen(s, s.byAddr[e.addr]);
      UnseenKeeps(w, s, o, Anew(w, e));
      assert !Welcomed(e, o.out);
    } else {
      RegisterSeen(w, s, e);
    }
  }

  lemma HandledSeen(w: Watch, s: State, u: Uuid, e: Event)
    requires Right(w, s) && u in s.clients && s.clients[u].addr == e.addr && !e.Register?
    requires e.addr in s.byAddr && s.byAddr[e.addr] == u
    ensures Seen(Noted(w, u, e), Step(s, e), !e.Disconnect?)
  {
    hide Right, Seen, Noted, OnRequestP2P, OnReportP2P, OnQueryPending, OnRequestOptimize, OnReportOptimized, Unseen,
         OnSyncState, OnReportSynced, OnInitiate, OnComplete, OnDisconnect;
    match e
    case RequestP2P(_, accept) => RequestSeen(w, s, u, e);
    case ReportP2P(_, success, fail) => ReportSeen(w, s, u, e);
    case Disconnect(_, verdict, tags) => DisconnectSeen(w, s, u, e);
    case QueryPending(_) => QuerySeen(w, s, u, e);
    case RequestOptimize(_) => NotNoted(w, u, e); OptimizeSeen(w, s, u);
    case ReportOptimized(_) => NotNoted(w, u, e); OptimizeSeen(w, s, u);
    case _ =>
      NotNoted(w, u, e);
      OthersUnseen(s, u, e);
      UnseenKeeps(w, s, Step(s, e), true);
  }

  lemma OthersUnseen(s: State, u: Uuid, e: Event)
    requires u in s.clients && !e.Register? && e.addr in s.byAddr && s.byAddr[e.addr] == u
    requires e.ReportBandwidth? || e.SyncState? || e.ReportSynced? || e.Initiate? || e.Complete?
    ensures Unseen(s, Step(s, e))
  {
    hide Unseen, OnSyncState, OnReportSynced, OnInitiate, OnComplete;
    StayUnseen(s, u);
    match e
    case ReportBandwidth(_, to) => HaltUnseen(s, Step(s, e));
    case SyncState(_, legal, strategy, verdict) => RoundUnseen(s, u, legal, strategy, verdict);
    case ReportSynced(_) => RoundUnseen(s, u, true, TxOnly, NoMask);
    case Initiate(_, tag) => OperationUnseen(s, u, tag, true);
    case Complete(_, tag, aborted) => OperationUnseen(s, u, tag, aborted);
  }
}
