/** The verdict on a collective operation: the master together with clients that follow the handshake.
    One group and one tag are looked at; everything else the clients do is arbitrary. */
module Verdict {
  import opened MasterSpec
  import opened MasterInv
  import opened MasterTags
  import Orphans

  /** Where a client is in an all-reduce. */
  datatype Pc =
    | Free
    | Asked                                        // waits for the commence packet
    | Reducing(nr: nat)
    | Voted(nr: nat, ok: bool)                     // waits for the abort packet
    | Heard(nr: nat, ok: bool, aborted: bool)      // waits for the completion packet

  /** Packets to the master about the operation. */
  datatype Up = Ask | Done(aborted: bool)

  /** A client: `ring` is the size of the ring it reduces over, `up` and `inbox` are its connection's two FIFOs, and
      `taken` are the packets it has received since it launched the operation. */
  datatype Peer = Peer(pc: Pc, ring: nat, up: seq<Up>, inbox: seq<Body>, taken: seq<Body>)

  function Fresh(): Peer { Peer(Free, 0, [], [], []) }

  // The invariant of one client ---------------------------------------------------------------------

  /** The abort packet an unfinished operation has sent, if any. */
  function Warned(tag: Tag, flag: bool): seq<Body> { if flag then [Abort(tag, true)] else [] }

  /** A local failure that the client reports. */
  predicate Fails(p: Peer, ok: bool) { !ok && p.ring > 1 }

  ghost predicate AskedOk(p: Peer, tag: Tag, part: Part, flag: bool, cur: nat) {
    match part
    case None => p.inbox == [] && (p.up == [Ask] || p.up == [])
    case Some(VoteInit) => p.inbox == [] && p.up == []
    case Some(Performing) => p.inbox == [Commence(tag, cur)] + Warned(tag, flag) && p.up == []
    case Some(VoteDone) => false
  }

  ghost predicate VotedOk(p: Peer, tag: Tag, part: Part, flag: bool, cur: nat, flags: map<nat, bool>)
    requires p.pc.Voted?
  {
    match part
    case None =>
      && p.up == [] && p.pc.nr in flags && p.inbox == [Abort(tag, flags[p.pc.nr]), Completed(tag)]
      && (Fails(p, p.pc.ok) ==> flags[p.pc.nr])
    case Some(VoteInit) => false
    case Some(Performing) => p.pc.nr == cur && p.up == [Done(Fails(p, p.pc.ok))] && p.inbox == Warned(tag, flag)
    case Some(VoteDone) => p.pc.nr == cur && p.up == [] && p.inbox == Warned(tag, flag) && (Fails(p, p.pc.ok) ==> flag)
  }

  ghost predicate HeardOk(p: Peer, tag: Tag, part: Part, flag: bool, cur: nat, flags: map<nat, bool>)
    requires p.pc.Heard?
  {
    match part
    case None =>
      && p.up == [] && p.inbox == [Completed(tag)]
      && p.pc.nr in flags && p.pc.aborted == flags[p.pc.nr] && (Fails(p, p.pc.ok) ==> p.pc.aborted)
    case Some(VoteInit) => false
    case Some(Performing) =>
      p.pc.nr == cur && p.pc.aborted && flag && p.inbox == [] && (p.up == [Done(true)] || p.up == [Done(false)])
    case Some(VoteDone) => p.pc.nr == cur && p.pc.aborted && flag && p.inbox == [] && p.up == []
  }

  ghost predicate PeerOk(p: Peer, tag: Tag, part: Part, flag: bool, cur: nat, flags: map<nat, bool>) {
    match p.pc
    case Free => part == None && p.up == [] && p.inbox == []
    case Asked => AskedOk(p, tag, part, flag, cur) && p.taken == []
    case Reducing(nr) =>
      part == Some(Performing) && nr == cur && p.up == [] && p.inbox == Warned(tag, flag) && p.taken == [Commence(tag, nr)]
    case Voted(nr, _) => VotedOk(p, tag, part, flag, cur, flags) && p.taken == [Commence(tag, nr)]
    case Heard(nr, _, aborted) =>
      HeardOk(p, tag, part, flag, cur, flags) && p.taken == [Commence(tag, nr), Abort(tag, aborted)]
  }

  predicate ActivePart(p: Part) { p == Some(Performing) || p == Some(VoteDone) }

  /** Shares agree on whether the operation runs, and only a running operation is marked. */
  ghost predicate ViewOk(v: View) {
    && (forall u, w :: u in v.parts && w in v.parts ==> ActivePart(v.parts[u]) == ActivePart(v.parts[w]))
    && (forall u :: u in v.parts && v.flag ==> ActivePart(v.parts[u]))
  }

  function Share(v: View, u: Uuid): Part { if u in v.parts then v.parts[u] else None }

  ghost predicate PeersOk(peers: map<Uuid, Peer>, tag: Tag, v: View, cur: nat, flags: map<nat, bool>) {
    && ViewOk(v) && v.parts.Keys <= peers.Keys
    && forall u :: u in peers ==> PeerOk(peers[u], tag, Share(v, u), v.flag, cur, flags)
  }

  /** Members hear the packets, in order. */
  function Tell(peers: map<Uuid, Peer>, v: View, heard: seq<Body>): map<Uuid, Peer> {
    map u | u in peers :: if u in v.parts then peers[u].(inbox := peers[u].inbox + heard) else peers[u]
  }

  // The master's primitives -------------------------------------------------------------------------

  lemma BeginPeer(p: Peer, tag: Tag, cur: nat, n: nat, flags: map<nat, bool>)
    requires PeerOk(p, tag, Some(VoteInit), false, cur, flags)
    ensures PeerOk(p.(inbox := p.inbox + [Commence(tag, n)]), tag, Some(Performing), false, n, flags)
  {
    assert p.inbox + [Commence(tag, n)] == [Commence(tag, n)] + Warned(tag, false);
  }

  lemma FinishPeer(p: Peer, tag: Tag, flag: bool, cur: nat, flags: map<nat, bool>)
    requires PeerOk(p, tag, Some(VoteDone), flag, cur, flags)
    ensures
      var heard := (if flag then [] else [Abort(tag, false)]) + [Completed(tag)];
      PeerOk(p.(inbox := p.inbox + heard), tag, None, false, cur, flags[cur := flag])
  {
    var heard := (if flag then [] else [Abort(tag, false)]) + [Completed(tag)];
    assert Warned(tag, flag) + heard == [Abort(tag, flag), Completed(tag)];
  }

  lemma MarkPeer(p: Peer, tag: Tag, part: Part, cur: nat, flags: map<nat, bool>)
    requires ActivePart(part) && PeerOk(p, tag, part, false, cur, flags)
    ensures PeerOk(p.(inbox := p.inbox + [Abort(tag, true)]), tag, part, true, cur, flags)
  {
    assert Warned(tag, false) + [Abort(tag, true)] == Warned(tag, true);
    assert [Commence(tag, cur)] + Warned(tag, false) + [Abort(tag, true)] == [Commence(tag, cur)] + Warned(tag, true);
  }

  /** A client that takes no part does not depend on the current operation. */
  lemma BystanderPeer(p: Peer, tag: Tag, flag: bool, cur: nat, flags: map<nat, bool>, flag': bool, cur': nat, flags': map<nat, bool>)
    requires PeerOk(p, tag, None, flag, cur, flags) && forall n :: n in flags ==> n in flags' && flags'[n] == flags[n]
    ensures PeerOk(p, tag, None, flag', cur', flags')
  {
  }

  // The operation and its clients -------------------------------------------------------------------

  /** `cur` numbers the operation that runs, `flags` holds the verdicts of the operations that ended. */
  datatype Sys = Sys(peers: map<Uuid, Peer>, view: View, cur: nat, flags: map<nat, bool>)

  ghost predicate Runs(v: View) { exists u :: u in v.parts && ActivePart(v.parts[u]) }

  /** Numbers from `next` on have not been used. */
  ghost predicate NumbersOk(y: Sys, next: nat) {
    && (forall n :: n in y.flags ==> n < next)
    && (Runs(y.view) ==> y.cur < next && y.cur !in y.flags)
  }

  ghost predicate SysOk(y: Sys, tag: Tag, next: nat) {
    PeersOk(y.peers, tag, y.view, y.cur, y.flags) && NumbersOk(y, next)
  }

  function Begun(y: Sys, tag: Tag, n: nat): Sys {
    if All(y.view, Some(VoteInit))
    then Sys(Tell(y.peers, y.view, [Commence(tag, n)]), SetAll(y.view, Some(Performing)), n, y.flags)
    else y
  }

  function EndWords(tag: Tag, flag: bool): seq<Body> {
    (if flag then [] else [Abort(tag, false)]) + [Completed(tag)]
  }

  function Finished(y: Sys, tag: Tag): Sys {
    if All(y.view, Some(VoteDone))
    then Sys(Tell(y.peers, y.view, EndWords(tag, y.view.flag)), SetAll(y.view, None).(flag := false), y.cur,
             if y.view.parts == map[] then y.flags else y.flags[y.cur := y.view.flag])
    else y
  }

  function Marked(y: Sys, tag: Tag): Sys {
    if y.view.flag then y
    else Sys(Tell(y.peers, y.view, [Abort(tag, true)]), y.view.(flag := true), y.cur, y.flags)
  }

  lemma BegunOk(y: Sys, tag: Tag, next: nat, n: nat, next': nat)
    requires SysOk(y, tag, next) && next <= n && next <= next' && (All(y.view, Some(VoteInit)) && y.view.parts != map[] ==> n < next')
    ensures SysOk(Begun(y, tag, n), tag, next')
  {
    hide PeerOk;
    var y' := Begun(y, tag, n);
    if All(y.view, Some(VoteInit)) {
      forall u | u in y.peers
        ensures PeerOk(y'.peers[u], tag, Share(y'.view, u), y'.view.flag, n, y.flags)
      {
        var p := y.peers[u];
        if u in y.view.parts {
          BeginPeer(p, tag, y.cur, n, y.flags);
        } else {
          BystanderPeer(p, tag, y.view.flag, y.cur, y.flags, y'.view.flag, n, y.flags);
        }
      }
    }
  }

  lemma FinishedOk(y: Sys, tag: Tag, next: nat)
    requires SysOk(y, tag, next)
    ensures SysOk(Finished(y, tag), tag, next)
  {
    hide PeerOk;
    var y' := Finished(y, tag);
    if All(y.view, Some(VoteDone)) {
      forall u | u in y.view.parts
        ensures y.cur < next && y.cur !in y.flags
      {
        assert ActivePart(y.view.parts[u]);
      }
      forall u | u in y.peers
        ensures PeerOk(y'.peers[u], tag, Share(y'.view, u), false, y.cur, y'.flags)
      {
        var p := y.peers[u];
        if u in y.view.parts {
          FinishPeer(p, tag, y.view.flag, y.cur, y.flags);
        } else {
          BystanderPeer(p, tag, y.view.flag, y.cur, y.flags, false, y.cur, y'.flags);
        }
      }
    }
  }

  lemma MarkedOk(y: Sys, tag: Tag, next: nat)
    requires SysOk(y, tag, next) && forall u :: u in y.view.parts ==> ActivePart(y.view.parts[u])
    ensures SysOk(Marked(y, tag), tag, next)
  {
    hide PeerOk;
    var y' := Marked(y, tag);
    if !y.view.flag {
      forall u | u in y.peers
        ensures PeerOk(y'.peers[u], tag, Share(y'.view, u), true, y.cur, y.flags)
      {
        var p := y.peers[u];
        if u in y.view.parts {
          MarkPeer(p, tag, y.view.parts[u], y.cur, y.flags);
        } else {
          BystanderPeer(p, tag, y.view.flag, y.cur, y.flags, true, y.cur, y.flags);
        }
      }
    }
  }

  /** Clients hear what the master's change says. */
  lemma BegunHeard(y: Sys, tag: Tag, n: nat)
    ensures
      var c := Begin(y.view, tag, n);
      var y' := Begun(y, tag, n);
      y'.view == c.view && y'.peers == Tell(y.peers, y.view, c.heard)
  {
    TellNone(y.peers, y.view);
  }

  lemma TellNone(peers: map<Uuid, Peer>, v: View)
    ensures Tell(peers, v, []) == peers
  {
    assert forall u :: u in peers ==> peers[u].inbox + [] == peers[u].inbox;
  }

  lemma FinishedHeard(y: Sys, tag: Tag)
    ensures
      var c := Finish(y.view, tag);
      var y' := Finished(y, tag);
      y'.view == c.view && y'.peers == Tell(y.peers, y.view, c.heard)
  {
    TellNone(y.peers, y.view);
  }

  lemma MarkedHeard(y: Sys, tag: Tag)
    ensures
      var c := Mark(y.view, tag);
      var y' := Marked(y, tag);
      y'.view == c.view && y'.peers == Tell(y.peers, y.view, c.heard)
  {
    TellNone(y.peers, y.view);
  }

  lemma TellTwice(peers: map<Uuid, Peer>, v: View, w: View, a: seq<Body>, b: seq<Body>)
    requires v.parts.Keys == w.parts.Keys
    ensures Tell(Tell(peers, v, a), w, b) == Tell(peers, v, a + b)
  {
    forall u | u in peers
      ensures Tell(Tell(peers, v, a), w, b)[u] == Tell(peers, v, a + b)[u]
    {
      assert (peers[u].inbox + a) + b == peers[u].inbox + (a + b);
      assert u in v.parts <==> u in w.parts;
    }
  }

  // Whole changes -----------------------------------------------------------------------------------

  function Rechecked(y: Sys, tag: Tag, n: nat): Sys {
    var b := Finished(Begun(y, tag, n), tag);
    if Any(b.view, Some(Performing)) then Marked(b, tag) else b
  }

  lemma RecheckedOk(y: Sys, tag: Tag, next: nat, n: nat, next': nat)
    requires SysOk(y, tag, next) && next <= n && next <= next'
    requires Begin(y.view, tag, n).heard != [] && y.view.parts != map[] ==> n < next'
    ensures SysOk(Rechecked(y, tag, n), tag, next')
  {
    hide PeersOk, NumbersOk, Begun, Finished, Marked;
    BegunOk(y, tag, next, n, next');
    var b := Finished(Begun(y, tag, n), tag);
    FinishedOk(Begun(y, tag, n), tag, next');
    if Any(b.view, Some(Performing)) {
      AnyActive(b, tag);
      MarkedOk(b, tag, next');
    }
  }

  lemma AnyActive(y: Sys, tag: Tag)
    requires PeersOk(y.peers, tag, y.view, y.cur, y.flags) && Any(y.view, Some(Performing))
    ensures forall u :: u in y.view.parts ==> ActivePart(y.view.parts[u])
  {
    hide PeerOk;
    var w :| w in y.view.parts && y.view.parts[w] == Some(Performing);
    assert ActivePart(y.view.parts[w]);
  }

  lemma KeysKept(v: View, tag: Tag, n: nat)
    ensures Begin(v, tag, n).view.parts.Keys == v.parts.Keys && Finish(v, tag).view.parts.Keys == v.parts.Keys
    ensures Mark(v, tag).view.parts.Keys == v.parts.Keys
  {
  }

  lemma RecheckedHeard(y: Sys, tag: Tag, n: nat)
    ensures
      var c := AfterRecheck(y.view, tag, n);
      var y' := Rechecked(y, tag, n);
      y'.view == c.view && y'.peers == Tell(y.peers, y.view, c.heard)
  {
    hide Begin, Finish, Mark, Begun, Finished, Marked, Tell, Any;
    var a := Begun(y, tag, n);
    BegunHeard(y, tag, n);
    KeysKept(y.view, tag, n);
    var b := Finished(a, tag);
    FinishedHeard(a, tag);
    KeysKept(a.view, tag, n);
    MarkedHeard(b, tag);
    var x, z := Begin(y.view, tag, n).heard, Finish(a.view, tag).heard;
    TellTwice(y.peers, y.view, a.view, x, z);
    TellTwice(y.peers, y.view, b.view, x + z, Mark(b.view, tag).heard);
    assert x + z + [] == x + z;
  }

  /** The client `u` and its connection are gone. */
  function Left(y: Sys, u: Uuid): Sys { y.(peers := y.peers - {u}, view := Without(y.view, u)) }

  lemma LeftOk(y: Sys, tag: Tag, next: nat, u: Uuid)
    requires SysOk(y, tag, next)
    ensures SysOk(Left(y, u), tag, next)
  {
    hide PeerOk;
  }

  /** More members and more clients, none of which takes part yet. */
  ghost predicate Joined(y: Sys, y': Sys) {
    && y'.cur == y.cur && y'.flags == y.flags && Widened(y.view, y'.view)
    && y.peers.Keys <= y'.peers.Keys && y'.view.parts.Keys <= y'.peers.Keys
    && (forall u :: u in y.peers ==> y'.peers[u] == y.peers[u])
    && (forall u :: u in y'.peers && u !in y.peers ==> y'.peers[u] == Fresh())
  }

  lemma JoinedOk(y: Sys, y': Sys, tag: Tag, next: nat)
    requires SysOk(y, tag, next) && Joined(y, y') && (y.view.flag ==> y.view.parts != map[])
    ensures SysOk(y', tag, next)
  {
    hide PeerOk;
    forall u | u in y'.view.parts && u !in y.view.parts
      ensures y'.view.parts[u] == None && All(y.view, None)
    {
    }
    forall u | u in y'.peers
      ensures Share(y'.view, u) == Share(y.view, u)
      ensures PeerOk(y'.peers[u], tag, Share(y'.view, u), y'.view.flag, y'.cur, y'.flags)
    {
      if u !in y.peers { FreshOk(tag, y'.view.flag, y'.cur, y'.flags); }
    }
    WidenedViewOk(y.view, y'.view);
  }

  lemma WidenedViewOk(v: View, w: View)
    requires ViewOk(v) && Widened(v, w) && (v.flag ==> v.parts != map[])
    ensures ViewOk(w) && (Runs(w) ==> Runs(v))
  {
    if v.parts.Keys == w.parts.Keys {
      assert v.parts == w.parts;
    } else if v.parts != map[] {
      var u :| u in v.parts;
      assert !ActivePart(v.parts[u]);
    }
  }

  lemma FreshOk(tag: Tag, flag: bool, cur: nat, flags: map<nat, bool>)
    ensures PeerOk(Fresh(), tag, None, flag, cur, flags)
  {
  }

  // Votes -------------------------------------------------------------------------------------------

  function SetPeer(y: Sys, u: Uuid, p: Peer): Sys { y.(peers := y.peers[u := p]) }

  lemma SetPeerOk(y: Sys, tag: Tag, next: nat, u: Uuid, p: Peer)
    requires SysOk(y, tag, next) && u in y.peers && PeerOk(p, tag, Share(y.view, u), y.view.flag, y.cur, y.flags)
    ensures SysOk(SetPeer(y, u, p), tag, next)
  {
    hide PeerOk;
  }

  /** The master has taken the next packet of `u`, which makes its share `part`. */
  function Taken(y: Sys, u: Uuid, part: Part): Sys
    requires u in y.peers && y.peers[u].up != []
  {
    SetPeer(y, u, y.peers[u].(up := y.peers[u].up[1..])).(view := y.view.(parts := y.view.parts[u := part]))
  }

  lemma InitOk(y: Sys, tag: Tag, next: nat, u: Uuid)
    requires SysOk(y, tag, next) && u in y.view.parts && y.view.parts[u] == None
    requires u in y.peers && y.peers[u].up != [] && y.peers[u].up[0] == Ask
    ensures SysOk(Taken(y, u, Some(VoteInit)), tag, next)
  {
    var y', p := Taken(y, u, Some(VoteInit)), y.peers[u];
    assert PeerOk(p, tag, None, y.view.flag, y.cur, y.flags);
    assert p.pc == Asked && p.up == [Ask] && p.up[1..] == [];
    assert PeerOk(y'.peers[u], tag, Some(VoteInit), y'.view.flag, y'.cur, y'.flags);
    hide PeerOk;
    assert !ActivePart(y.view.parts[u]);
    forall w | w in y.peers && w != u
      ensures Share(y'.view, w) == Share(y.view, w)
    {
    }
  }

  lemma DonePeer(p: Peer, tag: Tag, flag: bool, cur: nat, flags: map<nat, bool>)
    requires PeerOk(p, tag, Some(Performing), flag, cur, flags) && p.up != []
    requires p.up[0].Done? && (p.up[0].aborted ==> flag)
    ensures PeerOk(p.(up := p.up[1..]), tag, Some(VoteDone), flag, cur, flags)
  {
    assert [Done(true)][1..] == [] && [Done(false)][1..] == [];
  }

  lemma DoneOk(y: Sys, tag: Tag, next: nat, u: Uuid)
    requires SysOk(y, tag, next) && u in y.view.parts && y.view.parts[u] == Some(Performing)
    requires u in y.peers && y.peers[u].up != [] && y.peers[u].up[0].Done?
    requires y.peers[u].up[0].aborted ==> y.view.flag
    ensures SysOk(Taken(y, u, Some(VoteDone)), tag, next)
  {
    hide PeerOk;
    var y', p := Taken(y, u, Some(VoteDone)), y.peers[u];
    DonePeer(p, tag, y.view.flag, y.cur, y.flags);
    assert ActivePart(y.view.parts[u]);
    forall w | w in y.peers && w != u
      ensures Share(y'.view, w) == Share(y.view, w)
    {
    }
  }

  lemma MarkTaken(y: Sys, tag: Tag, u: Uuid, part: Part)
    requires u in y.peers && y.peers[u].up != [] && u in y.view.parts
    ensures u in Marked(y, tag).peers && Marked(y, tag).peers[u].up == y.peers[u].up
    ensures Taken(Marked(y, tag), u, part) == Marked(Taken(y, u, part), tag)
  {
    var a, b := Taken(Marked(y, tag), u, part), Marked(Taken(y, u, part), tag);
    if !y.view.flag {
      forall w | w in y.peers
        ensures a.peers[w] == b.peers[w]
      {
      }
      assert a.peers == b.peers;
    }
  }

  // The world ---------------------------------------------------------------------------------------

  /** What one client concluded: its own reduce ended well or not, the result it returns, and the packets it received
      about the operation. */
  datatype Entry = Entry(nr: nat, who: Uuid, ring: nat, ok: bool, result: bool, heard: seq<Body>)

  /** The master and the accepted clients of the group. */
  datatype World = World(master: State, peers: map<Uuid, Peer>, log: set<Entry>)

  datatype Move =
    | Other(e: Event)               // any event that is not a packet of these clients about this operation
    | Deliver(u: Uuid)              // the master takes the client's next packet about it
    | Launch(u: Uuid, ring: nat)
    | StartReduce(u: Uuid)          // the commence packet is received
    | EndReduce(u: Uuid, ok: bool)
    | AbortReduce(u: Uuid)          // an abort packet is received during the reduce
    | GetAbort(u: Uuid)
    | GetCompleted(u: Uuid)

  /** Index of the first packet that satisfies `want`: clients receive selectively. */
  function First(inbox: seq<Body>, want: Body -> bool): (i: nat)
    ensures i <= |inbox| && (i < |inbox| ==> want(inbox[i]))
    ensures forall j :: 0 <= j < i ==> !want(inbox[j])
  {
    if inbox == [] then 0 else if want(inbox[0]) then 0 else 1 + First(inbox[1..], want)
  }

  function Removed(inbox: seq<Body>, i: nat): seq<Body>
    requires i < |inbox|
  {
    inbox[..i] + inbox[i + 1..]
  }

  function IsCommence(tag: Tag): Body -> bool { (b: Body) => b.Commence? && b.tag == tag }

  function IsAbort(tag: Tag): Body -> bool { (b: Body) => b.Abort? && b.tag == tag }

  function IsCompleted(tag: Tag): Body -> bool { (b: Body) => b.Completed? && b.tag == tag }

  function PacketEvent(s: State, u: Uuid, p: Up, tag: Tag): Event
    requires u in s.clients
  {
    match p
    case Ask => Initiate(s.clients[u].addr, tag)
    case Done(aborted) => Complete(s.clients[u].addr, tag, aborted)
  }

  /** `e` is a packet of a member of `g` about `tag`. */
  predicate Speaks(s: State, e: Event, g: Group, tag: Tag) {
    (e.Initiate? || e.Complete?) && e.tag == tag && e.addr in s.byAddr && s.byAddr[e.addr] in Members(s, g)
  }

  /** The clients after the master's answer; peers accepted meanwhile start afresh. */
  function Answered(o: Outcome, peers: map<Uuid, Peer>, g: Group, tag: Tag): map<Uuid, Peer>
    requires o.Next?
  {
    map u | u in Members(o.state, g) ::
      if u in peers then peers[u].(inbox := peers[u].inbox + Hears(o.out, u, tag)) else Fresh()
  }

  ghost predicate Enabled(w: World, m: Move, g: Group, tag: Tag) {
    match m
    case Other(e) => MasterSpec.Legal(w.master, e) && Step(w.master, e).Next? && !Speaks(w.master, e, g, tag)
    case Deliver(u) =>
      && u in w.peers && u in w.master.clients && w.peers[u].up != []
      && Step(w.master, PacketEvent(w.master, u, w.peers[u].up[0], tag)).Next?
    case Launch(u, _) => u in w.peers && w.peers[u].pc == Free
    case StartReduce(u) =>
      u in w.peers && w.peers[u].pc == Asked && First(w.peers[u].inbox, IsCommence(tag)) < |w.peers[u].inbox|
    case EndReduce(u, ok) => u in w.peers && w.peers[u].pc.Reducing? && (w.peers[u].ring < 2 ==> !ok)
    case AbortReduce(u) =>
      && u in w.peers && w.peers[u].pc.Reducing? && w.peers[u].ring >= 2
      && First(w.peers[u].inbox, IsAbort(tag)) < |w.peers[u].inbox|
    case GetAbort(u) =>
      u in w.peers && w.peers[u].pc.Voted? && First(w.peers[u].inbox, IsAbort(tag)) < |w.peers[u].inbox|
    case GetCompleted(u) =>
      u in w.peers && w.peers[u].pc.Heard? && First(w.peers[u].inbox, IsCompleted(tag)) < |w.peers[u].inbox|
  }

  /** A client's own move. */
  function Moved(p: Peer, m: Move, tag: Tag): Peer {
    match m
    case Launch(_, ring) => Peer(Asked, ring, p.up + [Ask], p.inbox, [])
    case StartReduce(_) =>
      var i := First(p.inbox, IsCommence(tag));
      if i < |p.inbox|
      then p.(pc := Reducing(p.inbox[i].nr), inbox := Removed(p.inbox, i), taken := p.taken + [p.inbox[i]]) else p
    case EndReduce(_, ok) =>
      if p.pc.Reducing? then p.(pc := Voted(p.pc.nr, ok), up := p.up + [Done(Fails(p, ok))]) else p
    case AbortReduce(_) =>
      var i := First(p.inbox, IsAbort(tag));
      if p.pc.Reducing? && i < |p.inbox|
      then p.(pc := Heard(p.pc.nr, false, true), up := p.up + [Done(Fails(p, false))], inbox := Removed(p.inbox, i),
              taken := p.taken + [p.inbox[i]])
      else p
    case GetAbort(_) =>
      var i := First(p.inbox, IsAbort(tag));
      if p.pc.Voted? && i < |p.inbox|
      then p.(pc := Heard(p.pc.nr, p.pc.ok, p.inbox[i].aborted), inbox := Removed(p.inbox, i), taken := p.taken + [p.inbox[i]])
      else p
    case GetCompleted(_) =>
      var i := First(p.inbox, IsCompleted(tag));
      if i < |p.inbox| then p.(pc := Free, inbox := Removed(p.inbox, i), taken := p.taken + [p.inbox[i]]) else p
    case _ => p
  }

  /** The outcome of a client: its own reduce must have ended well, and nobody's failure been announced. */
  function Conclusion(u: Uuid, p: Peer, tag: Tag): Entry
    requires p.pc.Heard?
  {
    Entry(p.pc.nr, u, p.ring, p.pc.ok, p.pc.ok && !p.pc.aborted, Moved(p, GetCompleted(u), tag).taken)
  }

  ghost function Apply(w: World, m: Move, g: Group, tag: Tag): World
    requires Enabled(w, m, g, tag)
  {
    match m
    case Other(e) =>
      var o := Step(w.master, e);
      World(o.state, Answered(o, w.peers, g, tag), w.log)
    case Deliver(u) =>
      var p := w.peers[u];
      var o := Step(w.master, PacketEvent(w.master, u, p.up[0], tag));
      World(o.state, Answered(o, w.peers[u := p.(up := p.up[1..])], g, tag), w.log)
    case GetCompleted(u) =>
      World(w.master, w.peers[u := Moved(w.peers[u], m, tag)], w.log + {Conclusion(u, w.peers[u], tag)})
    case _ => w.(peers := w.peers[m.u := Moved(w.peers[m.u], m, tag)])
  }

  /** The group loses its last accepted peer while the operation is marked as aborted; the mark is then never
      taken back. */
  predicate Orphaned(s: State, m: Move, g: Group, tag: Tag) {
    m.Other? && Orphans.Orphaning(s, m.e, g, tag)
  }

  /** All packets of an operation: it commences, one abort packet, it is complete. */
  function Whole(tag: Tag, nr: nat, flag: bool): seq<Body> { [Commence(tag, nr), Abort(tag, flag), Completed(tag)] }

  ghost predicate LogOk(log: set<Entry>, flags: map<nat, bool>, tag: Tag) {
    forall e :: e in log ==>
      && e.nr in flags && e.heard == Whole(tag, e.nr, flags[e.nr])
      && (e.ring > 1 ==> e.result == !flags[e.nr]) && (e.result ==> e.ok)
  }

  ghost predicate Consistent(w: World, g: Group, tag: Tag, cur: nat, flags: map<nat, bool>) {
    SysOk(Sys(w.peers, ViewOf(w.master, g, tag), cur, flags), tag, w.master.nextSeq) && LogOk(w.log, flags, tag)
  }

  ghost predicate WorldOk(w: World, g: Group, tag: Tag) {
    && Inv(w.master) && w.peers.Keys == Members(w.master, g)
    && ((g, tag) in w.master.aborts ==> Members(w.master, g) != {})
    && exists cur, flags :: Consistent(w, g, tag, cur, flags)
  }

  // Own moves ---------------------------------------------------------------------------------------

  predicate Own(m: Move) { !m.Other? && !m.Deliver? }

  lemma LaunchMove(p: Peer, m: Move, tag: Tag, part: Part, flag: bool, cur: nat, flags: map<nat, bool>)
    requires m.Launch? && p.pc == Free && PeerOk(p, tag, part, flag, cur, flags)
    ensures PeerOk(Moved(p, m, tag), tag, part, flag, cur, flags)
  {
  }

  /** What the selective receives find is always at the head. */
  lemma StartMove(p: Peer, m: Move, tag: Tag, part: Part, flag: bool, cur: nat, flags: map<nat, bool>)
    requires m.StartReduce? && p.pc == Asked && First(p.inbox, IsCommence(tag)) < |p.inbox| && PeerOk(p, tag, part, flag, cur, flags)
    ensures PeerOk(Moved(p, m, tag), tag, part, flag, cur, flags)
  {
    HeadFirst(p.inbox, IsCommence(tag));
  }

  lemma EndMove(p: Peer, m: Move, tag: Tag, part: Part, flag: bool, cur: nat, flags: map<nat, bool>)
    requires m.EndReduce? && p.pc.Reducing? && PeerOk(p, tag, part, flag, cur, flags)
    ensures PeerOk(Moved(p, m, tag), tag, part, flag, cur, flags)
  {
  }

  lemma AbortMove(p: Peer, m: Move, tag: Tag, part: Part, flag: bool, cur: nat, flags: map<nat, bool>)
    requires (m.AbortReduce? && p.pc.Reducing?) || (m.GetAbort? && p.pc.Voted?)
    requires First(p.inbox, IsAbort(tag)) < |p.inbox| && PeerOk(p, tag, part, flag, cur, flags)
    ensures PeerOk(Moved(p, m, tag), tag, part, flag, cur, flags)
  {
    HeadFirst(p.inbox, IsAbort(tag));
    assert Warned(tag, true)[1..] == [];
  }

  lemma CompletedMove(u: Uuid, p: Peer, m: Move, tag: Tag, part: Part, flag: bool, cur: nat, flags: map<nat, bool>)
    requires m.GetCompleted? && p.pc.Heard? && First(p.inbox, IsCompleted(tag)) < |p.inbox| && PeerOk(p, tag, part, flag, cur, flags)
    ensures PeerOk(Moved(p, m, tag), tag, part, flag, cur, flags)
    ensures p.pc.nr in flags && (p.ring > 1 ==> Conclusion(u, p, tag).result == !flags[p.pc.nr])
    ensures Conclusion(u, p, tag).heard == Whole(tag, p.pc.nr, flags[p.pc.nr])
  {
    HeadFirst(p.inbox, IsCompleted(tag));
  }

  lemma OwnMove(u: Uuid, p: Peer, m: Move, tag: Tag, part: Part, flag: bool, cur: nat, flags: map<nat, bool>, w: World, g: Group)
    requires Own(m) && m.u == u && u in w.peers && w.peers[u] == p && Enabled(w, m, g, tag)
    requires PeerOk(p, tag, part, flag, cur, flags)
    ensures PeerOk(Moved(p, m, tag), tag, part, flag, cur, flags)
    ensures m.GetCompleted? ==>
      && p.pc.nr in flags && (p.ring > 1 ==> Conclusion(u, p, tag).result == !flags[p.pc.nr])
      && Conclusion(u, p, tag).heard == Whole(tag, p.pc.nr, flags[p.pc.nr])
  {
    hide PeerOk, Moved, First, Whole;
    match m
    case Launch(_, _) => LaunchMove(p, m, tag, part, flag, cur, flags);
    case StartReduce(_) => StartMove(p, m, tag, part, flag, cur, flags);
    case EndReduce(_, _) => EndMove(p, m, tag, part, flag, cur, flags);
    case AbortReduce(_) => AbortMove(p, m, tag, part, flag, cur, flags);
    case GetAbort(_) => AbortMove(p, m, tag, part, flag, cur, flags);
    case GetCompleted(_) => CompletedMove(u, p, m, tag, part, flag, cur, flags);
  }

  lemma HeadFirst(inbox: seq<Body>, want: Body -> bool)
    ensures inbox != [] && want(inbox[0]) ==> First(inbox, want) == 0 && Removed(inbox, 0) == inbox[1..]
  {
  }

  lemma OwnMoveOk(w: World, m: Move, g: Group, tag: Tag)
    requires WorldOk(w, g, tag) && Own(m) && Enabled(w, m, g, tag)
    ensures WorldOk(Apply(w, m, g, tag), g, tag)
  {
    hide Inv, PeerOk, ViewOf, Members, Moved, NumbersOk, ViewOk;
    var cur, flags :| Consistent(w, g, tag, cur, flags);
    var y := Sys(w.peers, ViewOf(w.master, g, tag), cur, flags);
    var u := OwnPeer(w, m, g, tag);
    var p := w.peers[u];
    OwnMove(u, p, m, tag, Share(y.view, u), y.view.flag, cur, flags, w, g);
    SetPeerOk(y, tag, w.master.nextSeq, u, Moved(p, m, tag));
    assert Consistent(Apply(w, m, g, tag), g, tag, cur, flags);
  }

  lemma OwnPeer(w: World, m: Move, g: Group, tag: Tag) returns (u: Uuid)
    requires Own(m) && Enabled(w, m, g, tag)
    ensures m.u == u && u in w.peers
  {
    u := m.u;
  }

  // Moves of the master -----------------------------------------------------------------------------

  /** After a change, the clients are as the change says, and peers that were accepted start afresh. */
  lemma Lands(s: State, o: Outcome, y: Sys, base: map<Uuid, Peer>, g: Group, tag: Tag, c: Change)
    requires Follows(s, o, g, tag, c) && y.view == c.view && y.peers.Keys == c.view.parts.Keys && base.Keys == Members(s, g)
    requires forall u :: u in y.peers ==> u in base && y.peers[u] == base[u].(inbox := base[u].inbox + c.heard)
    ensures Joined(y, Sys(Answered(o, base, g, tag), ViewOf(o.state, g, tag), y.cur, y.flags))
  {
    hide Hears, ViewOf, Members;
    MembersKeys(o.state, g, tag);
    var peers := Answered(o, base, g, tag);
    assert peers.Keys == Members(o.state, g);
    forall u | u in y.peers
      ensures u in peers && peers[u] == y.peers[u]
    {
      assert Hears(o.out, u, tag) == c.heard;
    }
    forall u | u in peers && u !in y.peers
      ensures peers[u] == Fresh()
    {
      assert u !in Members(s, g);
    }
  }

  lemma SysOkLater(y: Sys, tag: Tag, next: nat, next': nat)
    requires SysOk(y, tag, next) && next <= next'
    ensures SysOk(y, tag, next')
  {
    hide PeersOk;
  }

  /** Verdicts already given stay. */
  ghost predicate Keeps(flags: map<nat, bool>, flags': map<nat, bool>) {
    forall n :: n in flags ==> n in flags' && flags'[n] == flags[n]
  }

  lemma LogKept(log: set<Entry>, flags: map<nat, bool>, flags': map<nat, bool>, tag: Tag)
    requires LogOk(log, flags, tag) && Keeps(flags, flags')
    ensures LogOk(log, flags', tag)
  {
  }

  lemma FinishedKeeps(y: Sys, tag: Tag, next: nat)
    requires SysOk(y, tag, next)
    ensures Keeps(y.flags, Finished(y, tag).flags)
  {
    hide PeerOk, ViewOk;
    if All(y.view, Some(VoteDone)) && y.view.parts != map[] {
      var u :| u in y.view.parts;
      assert ActivePart(y.view.parts[u]);
    }
  }

  lemma RecheckedKeeps(y: Sys, tag: Tag, next: nat, n: nat, next': nat)
    requires SysOk(y, tag, next) && next <= n && next <= next'
    requires Begin(y.view, tag, n).heard != [] && y.view.parts != map[] ==> n < next'
    ensures Keeps(y.flags, Rechecked(y, tag, n).flags)
    ensures Rechecked(y, tag, n).view.flag ==> Rechecked(y, tag, n).view.parts != map[] || y.view.flag
  {
    hide PeersOk, NumbersOk, Finished;
    BegunOk(y, tag, next, n, next');
    FinishedKeeps(Begun(y, tag, n), tag, next');
    FinishedFlag(Begun(y, tag, n), tag);
  }

  lemma FinishedFlag(y: Sys, tag: Tag)
    ensures Finished(y, tag).view.flag ==> y.view.flag
  {
  }

  /** The world after the master's step, given what the step made of the operation. */
  lemma Arrive(w: World, s': State, peers: map<Uuid, Peer>, y: Sys, flags: map<nat, bool>, g: Group, tag: Tag)
    requires Inv(s') && peers.Keys == Members(s', g) && SysOk(y, tag, s'.nextSeq)
    requires Joined(y, Sys(peers, ViewOf(s', g, tag), y.cur, y.flags)) && (y.view.flag ==> y.view.parts != map[])
    requires LogOk(w.log, flags, tag) && Keeps(flags, y.flags)
    ensures WorldOk(World(s', peers, w.log), g, tag)
  {
    hide Inv, PeersOk, NumbersOk, LogOk;
    JoinedOk(y, Sys(peers, ViewOf(s', g, tag), y.cur, y.flags), tag, s'.nextSeq);
    LogKept(w.log, flags, y.flags, tag);
    assert Consistent(World(s', peers, w.log), g, tag, y.cur, y.flags);
    MembersKeys(s', g, tag);
    if y.view.flag {
      var u :| u in y.view.parts;
      assert u in ViewOf(s', g, tag).parts;
    }
  }

  function AfterLeft(y: Sys, u: Uuid, tag: Tag, n: nat): Sys {
    if All(Left(y, u).view, None) then Left(y, u) else Rechecked(Left(y, u), tag, n)
  }

  lemma AfterLeftOk(y: Sys, u: Uuid, tag: Tag, next: nat, n: nat, next': nat)
    requires SysOk(y, tag, next) && y.peers.Keys == y.view.parts.Keys && next <= n && next <= next'
    requires Commence(tag, n) in AfterLeave(y.view, u, tag, n).heard ==> n < next'
    requires y.view.flag ==> y.view.parts != map[] && y.view.parts.Keys != {u}
    ensures
      var y' := AfterLeft(y, u, tag, n);
      && SysOk(y', tag, next') && Keeps(y.flags, y'.flags) && (y'.view.flag ==> y'.view.parts != map[])
  {
    hide PeersOk, NumbersOk, Rechecked, ViewOk;
    var z := Left(y, u);
    LeftOk(y, tag, next, u);
    LeftEmpty(y, u);
    if All(z.view, None) {
      SysOkLater(z, tag, next, next');
    } else {
      if Begin(z.view, tag, n).heard != [] { BeginsInRecheck(y.view, u, tag, n); }
      RecheckedOk(z, tag, next, n, next');
      RecheckedKeeps(z, tag, next, n, next');
      RecheckedHeard(z, tag, n);
      LeaveKeys(y.view, u, tag, n);
      assert Rechecked(z, tag, n).view.parts.Keys == z.view.parts.Keys;
    }
  }

  lemma BeginsInRecheck(v: View, u: Uuid, tag: Tag, n: nat)
    requires !All(Without(v, u), None) && Begin(Without(v, u), tag, n).heard != []
    ensures Commence(tag, n) in AfterLeave(v, u, tag, n).heard
  {
    var a := Begin(Without(v, u), tag, n);
    assert a.heard == [Commence(tag, n)];
    assert AfterLeave(v, u, tag, n).heard[0] == Commence(tag, n);
  }

  lemma LeftEmpty(y: Sys, u: Uuid)
    requires y.view.flag ==> y.view.parts != map[] && y.view.parts.Keys != {u}
    ensures Left(y, u).view.flag ==> Left(y, u).view.parts != map[]
  {
    if y.view.flag {
      var w :| w in y.view.parts && w != u;
      assert w in Left(y, u).view.parts;
    }
  }

  lemma AfterLeftHeard(y: Sys, u: Uuid, tag: Tag, n: nat)
    requires y.peers.Keys == y.view.parts.Keys
    ensures
      var c := AfterLeave(y.view, u, tag, n);
      var y' := AfterLeft(y, u, tag, n);
      && y'.view == c.view && y'.peers.Keys == c.view.parts.Keys
      && forall w :: w in y'.peers ==> w in y.peers && y'.peers[w] == y.peers[w].(inbox := y.peers[w].inbox + c.heard)
  {
    hide AfterRecheck, Rechecked;
    var z := Left(y, u);
    RecheckedHeard(z, tag, n);
    TellNone(z.peers, z.view);
    LeaveKeys(y.view, u, tag, n);
  }

  lemma OtherOk(w: World, e: Event, g: Group, tag: Tag)
    requires WorldOk(w, g, tag) && Enabled(w, Other(e), g, tag) && !Orphaned(w.master, Other(e), g, tag)
    ensures WorldOk(Apply(w, Other(e), g, tag), g, tag)
  {
    hide Inv, PeersOk, NumbersOk, LogOk, ViewOf, Members, Answered, Step, Follows, Joined, AfterLeave, AfterLeft, Keeps,
         AfterInitiate, AfterComplete, MayInitiate, InColl, MasterSpec.Legal;
    var s, v := w.master, ViewOf(w.master, g, tag);
    var o := Step(s, e);
    var cur, flags :| Consistent(w, g, tag, cur, flags);
    var y := Sys(w.peers, v, cur, flags);
    StepInv(s, e);
    var n := StepFollows(s, e, g, tag);
    MembersKeys(s, g, tag);
    AnsweredKeys(o, w.peers, g, tag);
    FlagIs(s, g, tag);
    var registered := !e.Register? && e.addr in s.byAddr && s.byAddr[e.addr] in s.clients;
    if registered && e.Disconnect? && s.clients[s.byAddr[e.addr]].group == g {
      var u := s.byAddr[e.addr];
      assert s.nextSeq <= o.state.nextSeq by { Later(s, o, g, tag, Meaning(s, e, g, tag, n)); }
      AfterLeftOk(y, u, tag, s.nextSeq, n, o.state.nextSeq);
      AfterLeftHeard(y, u, tag, n);
      Lands(s, o, AfterLeft(y, u, tag, n), w.peers, g, tag, AfterLeave(v, u, tag, n));
      Arrive(w, o.state, Answered(o, w.peers, g, tag), AfterLeft(y, u, tag, n), flags, g, tag);
    } else {
      NothingHappens(w, e, g, tag, n, cur, flags);
    }
  }

  lemma Later(s: State, o: Outcome, g: Group, tag: Tag, c: Change)
    requires Follows(s, o, g, tag, c)
    ensures s.nextSeq <= o.state.nextSeq
  {
  }

  lemma FlagIs(s: State, g: Group, tag: Tag)
    ensures ViewOf(s, g, tag).flag == ((g, tag) in s.aborts)
  {
  }

  lemma AnsweredKeys(o: Outcome, peers: map<Uuid, Peer>, g: Group, tag: Tag)
    requires o.Next?
    ensures Answered(o, peers, g, tag).Keys == Members(o.state, g)
  {
  }

  lemma NothingHappens(w: World, e: Event, g: Group, tag: Tag, n: nat, cur: nat, flags: map<nat, bool>)
    requires WorldOk(w, g, tag) && Enabled(w, Other(e), g, tag) && Consistent(w, g, tag, cur, flags)
    requires Follows(w.master, Step(w.master, e), g, tag, Meaning(w.master, e, g, tag, n))
    requires Inv(Step(w.master, e).state)
    requires e.Disconnect? && e.addr in w.master.byAddr && w.master.byAddr[e.addr] in w.master.clients ==>
      w.master.clients[w.master.byAddr[e.addr]].group != g
    ensures WorldOk(Apply(w, Other(e), g, tag), g, tag)
  {
    hide Inv, PeersOk, NumbersOk, LogOk, ViewOf, Answered, Step, Follows, Joined, MasterSpec.Legal;
    var s, v := w.master, ViewOf(w.master, g, tag);
    var o := Step(s, e);
    var y := Sys(w.peers, v, cur, flags);
    var c := Meaning(s, e, g, tag, n);
    MembersKeys(s, g, tag);
    FlagIs(s, g, tag);
    if e.Disconnect? && e.addr in s.byAddr { WithoutStranger(v, s.byAddr[e.addr]); }
    assert c == Change(v, []);
    Later(s, o, g, tag, c);
    SysOkLater(y, tag, s.nextSeq, o.state.nextSeq);
    Lands(s, o, y, w.peers, g, tag, c);
    AnsweredKeys(o, w.peers, g, tag);
    Arrive(w, o.state, Answered(o, w.peers, g, tag), y, flags, g, tag);
  }

  lemma WithoutStranger(v: View, u: Uuid)
    ensures u !in v.parts ==> Without(v, u) == v
  {
    if u !in v.parts { assert v.parts - {u} == v.parts; }
  }

  /** Why a client has a packet under way. */
  lemma UpShape(p: Peer, tag: Tag, part: Part, flag: bool, cur: nat, flags: map<nat, bool>)
    requires PeerOk(p, tag, part, flag, cur, flags) && p.up != []
    ensures if p.up[0] == Ask then part == None && PeerOk(p.(up := p.up[1..]), tag, part, flag, cur, flags)
            else part == Some(Performing)
  {
    assert [Ask][1..] == [];
  }

  lemma TellAll(peers: map<Uuid, Peer>, v: View, heard: seq<Body>)
    requires peers.Keys == v.parts.Keys
    ensures Tell(peers, v, heard).Keys == peers.Keys
    ensures forall u :: u in peers ==> Tell(peers, v, heard)[u] == peers[u].(inbox := peers[u].inbox + heard)
  {
  }

  function AfterAsked(y: Sys, u: Uuid, tag: Tag, n: nat): Sys
    requires u in y.peers && y.peers[u].up != []
  {
    Begun(Taken(y, u, Some(VoteInit)), tag, n)
  }

  lemma AskedStep(y: Sys, u: Uuid, tag: Tag, next: nat, n: nat, next': nat)
    requires SysOk(y, tag, next) && y.peers.Keys == y.view.parts.Keys && next <= n && next <= next'
    requires u in y.peers && y.peers[u].up != [] && y.peers[u].up[0] == Ask && y.view.parts[u] == None
    requires Commence(tag, n) in AfterInitiate(y.view, u, tag, n).heard ==> n < next'
    ensures
      var y' := AfterAsked(y, u, tag, n);
      var c := AfterInitiate(y.view, u, tag, n);
      var base := y.peers[u := y.peers[u].(up := y.peers[u].up[1..])];
      && SysOk(y', tag, next') && y'.flags == y.flags && y'.view == c.view && y'.peers.Keys == c.view.parts.Keys
      && (y'.view.flag ==> y'.view.parts != map[])
      && forall w :: w in y'.peers ==> w in base && y'.peers[w] == base[w].(inbox := base[w].inbox + c.heard)
  {
    hide PeersOk, NumbersOk, Begin, Begun, Tell;
    var z := Taken(y, u, Some(VoteInit));
    InitOk(y, tag, next, u);
    BegunHeard(z, tag, n);
    KeysKept(z.view, tag, n);
    TellAll(z.peers, z.view, Begin(z.view, tag, n).heard);
    BeginWords(z.view, tag, n);
    BegunOk(z, tag, next, n, next');
    BegunFlags(z, tag, n);
    assert u in z.view.parts;
  }

  lemma BeginWords(v: View, tag: Tag, n: nat)
    ensures All(v, Some(VoteInit)) ==> Commence(tag, n) in Begin(v, tag, n).heard
  {
  }

  lemma BegunFlags(y: Sys, tag: Tag, n: nat)
    ensures Begun(y, tag, n).flags == y.flags
  {
  }

  function AfterDone(y: Sys, u: Uuid, tag: Tag, aborted: bool): Sys
    requires u in y.peers && y.peers[u].up != []
  {
    var z := Taken(y, u, Some(VoteDone));
    Finished(if aborted then Marked(z, tag) else z, tag)
  }

  lemma DoneStep(y: Sys, u: Uuid, tag: Tag, next: nat, aborted: bool)
    requires SysOk(y, tag, next) && y.peers.Keys == y.view.parts.Keys
    requires u in y.peers && y.peers[u].up != [] && y.peers[u].up[0] == Done(aborted) && y.view.parts[u] == Some(Performing)
    ensures
      var y' := AfterDone(y, u, tag, aborted);
      && SysOk(y', tag, next) && Keeps(y.flags, y'.flags) && (y'.view.flag ==> y'.view.parts != map[])
  {
    hide PeersOk, NumbersOk, Marked, Finished, Taken, Keeps;
    var y1 := if aborted then Marked(y, tag) else y;
    if aborted {
      AnyActive(y, tag);
      MarkedOk(y, tag, next);
      MarkedShape(y, tag);
      MarkTaken(y, tag, u, Some(VoteDone));
    }
    DoneOk(y1, tag, next, u);
    var z := Taken(y1, u, Some(VoteDone));
    FinishedOk(z, tag, next);
    FinishedKeeps(z, tag, next);
    TakenShape(y1, u, Some(VoteDone));
    FinishedShape(z, tag);
    assert u in Finished(z, tag).view.parts;
  }

  lemma MarkedShape(y: Sys, tag: Tag)
    ensures Marked(y, tag).flags == y.flags && Marked(y, tag).view == y.view.(flag := true)
    ensures Marked(y, tag).peers.Keys == y.peers.Keys
    ensures forall u :: u in y.peers ==> Marked(y, tag).peers[u].up == y.peers[u].up
  {
  }

  lemma TakenShape(y: Sys, u: Uuid, part: Part)
    requires u in y.peers && y.peers[u].up != []
    ensures Taken(y, u, part).flags == y.flags && u in Taken(y, u, part).view.parts
  {
  }

  lemma FinishedShape(y: Sys, tag: Tag)
    ensures Finished(y, tag).view.parts.Keys == y.view.parts.Keys
  {
  }

  lemma DoneHeard(y: Sys, u: Uuid, tag: Tag, aborted: bool)
    requires y.peers.Keys == y.view.parts.Keys && u in y.peers && y.peers[u].up != []
    ensures
      var y' := AfterDone(y, u, tag, aborted);
      var c := AfterComplete(y.view, u, tag, aborted);
      var base := y.peers[u := y.peers[u].(up := y.peers[u].up[1..])];
      && y'.view == c.view && y'.peers.Keys == c.view.parts.Keys
      && forall w :: w in y'.peers ==> w in base && y'.peers[w] == base[w].(inbox := base[w].inbox + c.heard)
  {
    hide Mark, Finish, Marked, Finished, Tell;
    var z := Taken(y, u, Some(VoteDone));
    var m := if aborted then Marked(z, tag) else z;
    MarkedHeard(z, tag);
    TellNone(z.peers, z.view);
    FinishedHeard(m, tag);
    KeysKept(z.view, tag, 0);
    KeysKept(m.view, tag, 0);
    var a := if aborted then Mark(z.view, tag).heard else [];
    TellTwice(z.peers, z.view, m.view, a, Finish(m.view, tag).heard);
    TellAll(z.peers, z.view, a + Finish(m.view, tag).heard);
  }

  lemma SenderIs(s: State, u: Uuid, g: Group)
    requires Inv(s) && u in Members(s, g)
    ensures u in s.clients && s.clients[u].addr in s.byAddr && s.byAddr[s.clients[u].addr] == u
  {
  }

  lemma DeliverOk(w: World, u: Uuid, g: Group, tag: Tag)
    requires WorldOk(w, g, tag) && Enabled(w, Deliver(u), g, tag)
    ensures WorldOk(Apply(w, Deliver(u), g, tag), g, tag)
  {
    hide Inv, PeersOk, NumbersOk, LogOk, ViewOf, Members, Answered, Step, Follows, Joined, Keeps, AfterInitiate,
         AfterComplete, MayInitiate, AfterAsked, AfterDone, InColl;
    var s, v, p := w.master, ViewOf(w.master, g, tag), w.peers[u];
    var e := PacketEvent(s, u, p.up[0], tag);
    var o := Step(s, e);
    var base := w.peers[u := p.(up := p.up[1..])];
    var cur, flags :| Consistent(w, g, tag, cur, flags);
    var y := Sys(w.peers, v, cur, flags);
    SenderIs(s, u, g);
    StepInv(s, e);
    var n := StepFollows(s, e, g, tag);
    MembersKeys(s, g, tag);
    FlagIs(s, g, tag);
    AnsweredKeys(o, base, g, tag);
    Later(s, o, g, tag, Meaning(s, e, g, tag, n));
    PeerShape(y, tag, u);
    PartIs(s, u, g, tag);
    KeepsSelf(flags);
    if p.up[0] == Ask {
      if MayInitiate(s.clients[u], tag) {
        AskedStep(y, u, tag, s.nextSeq, n, o.state.nextSeq);
        Lands(s, o, AfterAsked(y, u, tag, n), base, g, tag, AfterInitiate(v, u, tag, n));
        Arrive(w, o.state, Answered(o, base, g, tag), AfterAsked(y, u, tag, n), flags, g, tag);
      } else {
        var y' := SetPeer(y, u, p.(up := p.up[1..]));
        SetPeerOk(y, tag, s.nextSeq, u, p.(up := p.up[1..]));
        SysOkLater(y', tag, s.nextSeq, o.state.nextSeq);
        Lands(s, o, y', base, g, tag, Change(v, []));
        Arrive(w, o.state, Answered(o, base, g, tag), y', flags, g, tag);
      }
    } else {
      DoneStep(y, u, tag, s.nextSeq, p.up[0].aborted);
      DoneHeard(y, u, tag, p.up[0].aborted);
      var y' := AfterDone(y, u, tag, p.up[0].aborted);
      SysOkLater(y', tag, s.nextSeq, o.state.nextSeq);
      Lands(s, o, y', base, g, tag, AfterComplete(v, u, tag, p.up[0].aborted));
      Arrive(w, o.state, Answered(o, base, g, tag), y', flags, g, tag);
    }
  }

  lemma KeepsSelf(flags: map<nat, bool>)
    ensures Keeps(flags, flags)
  {
  }

  lemma PartIs(s: State, u: Uuid, g: Group, tag: Tag)
    requires u in Members(s, g)
    ensures u in ViewOf(s, g, tag).parts
    ensures ViewOf(s, g, tag).parts[u] == Some(Performing) <==> InColl(s.clients[u], tag, Performing)
  {
  }

  lemma PeerShape(y: Sys, tag: Tag, u: Uuid)
    requires PeersOk(y.peers, tag, y.view, y.cur, y.flags) && u in y.peers && y.peers[u].up != [] && u in y.view.parts
    ensures
      var p := y.peers[u];
      if p.up[0] == Ask
      then y.view.parts[u] == None && PeerOk(p.(up := p.up[1..]), tag, None, y.view.flag, y.cur, y.flags)
      else y.view.parts[u] == Some(Performing)
  {
    hide PeerOk;
    UpShape(y.peers[u], tag, y.view.parts[u], y.view.flag, y.cur, y.flags);
  }

  // Runs --------------------------------------------------------------------------------------------

  function Beginning(): World { World(Start(), map[], {}) }

  /** The worlds of a run: any interleaving of the master, its clients and their connections, in which the group
      is not orphaned. */
  ghost predicate Trace(ws: seq<World>, moves: seq<Move>, g: Group, tag: Tag) {
    && |ws| == |moves| + 1 && ws[0] == Beginning()
    && forall i :: 0 <= i < |moves| ==>
         Enabled(ws[i], moves[i], g, tag) && !Orphaned(ws[i].master, moves[i], g, tag)
         && ws[i + 1] == Apply(ws[i], moves[i], g, tag)
  }

  lemma BeginningOk(g: Group, tag: Tag)
    ensures WorldOk(Beginning(), g, tag)
  {
    StartInv();
    hide Inv;
    assert Members(Start(), g) == {};
    assert ViewOf(Start(), g, tag).parts == map[];
    assert Consistent(Beginning(), g, tag, 0, map[]);
  }

  lemma {:induction false} TraceOk(ws: seq<World>, moves: seq<Move>, g: Group, tag: Tag, i: nat)
    requires Trace(ws, moves, g, tag) && i < |ws|
    ensures WorldOk(ws[i], g, tag)
    decreases i
  {
    hide WorldOk, Enabled, Orphaned, Apply;
    if i == 0 {
      BeginningOk(g, tag);
    } else {
      TraceOk(ws, moves, g, tag, i - 1);
      var w, m := ws[i - 1], moves[i - 1];
      match m {
        case Other(e) => OtherOk(w, e, g, tag);
        case Deliver(u) => DeliverOk(w, u, g, tag);
        case _ => OwnMoveOk(w, m, g, tag);
      }
    }
  }

  /** All clients that conclude an operation over a ring of at least two peers conclude the same, so the failure
      of one of them is the failure of all. */
  lemma VerdictAgreement(ws: seq<World>, moves: seq<Move>, g: Group, tag: Tag, i: nat, a: Entry, b: Entry)
    requires Trace(ws, moves, g, tag) && i < |ws| && a in ws[i].log && b in ws[i].log
    requires a.nr == b.nr && a.ring > 1 && b.ring > 1
    ensures a.result == b.result && (!a.ok ==> !b.result)
  {
    hide Trace, Inv, SysOk;
    TraceOk(ws, moves, g, tag, i);
    var cur, flags :| Consistent(ws[i], g, tag, cur, flags);
    assert LogOk(ws[i].log, flags, tag);
  }

  /** Every client that concludes an operation has received exactly three packets about it, one of which is an abort
      packet, and all clients have received the same. */
  lemma ExactlyOneAbort(ws: seq<World>, moves: seq<Move>, g: Group, tag: Tag, i: nat, a: Entry, b: Entry)
    requires Trace(ws, moves, g, tag) && i < |ws| && a in ws[i].log && b in ws[i].log && a.nr == b.nr
    ensures a.heard == b.heard && exists flag :: a.heard == Whole(tag, a.nr, flag) && (a.ring > 1 ==> a.result == !flag)
  {
    hide Trace, Inv, SysOk, Whole;
    TraceOk(ws, moves, g, tag, i);
    var cur, flags :| Consistent(ws[i], g, tag, cur, flags);
    assert LogOk(ws[i].log, flags, tag);
  }

  /** A client that is between operations has nothing left of the last one, so no packet can be taken for one of the
      next operation; during the operation it waits at most for the announcement of an abort. */
  lemma NothingLeftOver(ws: seq<World>, moves: seq<Move>, g: Group, tag: Tag, i: nat, u: Uuid)
    requires Trace(ws, moves, g, tag) && i < |ws| && u in ws[i].peers
    ensures ws[i].peers[u].pc == Free ==> ws[i].peers[u].inbox == [] && ws[i].peers[u].up == []
    ensures ws[i].peers[u].pc.Reducing? ==>
      ws[i].peers[u].inbox == Warned(tag, (g, tag) in ws[i].master.aborts)
  {
    hide Trace, Inv, LogOk, NumbersOk, ViewOk;
    TraceOk(ws, moves, g, tag, i);
    var cur, flags :| Consistent(ws[i], g, tag, cur, flags);
    assert PeerOk(ws[i].peers[u], tag, Share(ViewOf(ws[i].master, g, tag), u), (g, tag) in ws[i].master.aborts, cur, flags);
  }
}
