/** The master as it is written: fields updated in place, loops over the clients, packets sent on the way. Every
    handler is proved to do exactly what `MasterSpec.Step` says, so what is proved of runs holds of it. */
module MasterState {
  import opened MasterSpec
  import MasterInv

  datatype Result = Fine | Failed(bug: Bug)

  /** The outcome `o`, seen from a master that had sent `before` already. Which of the two failures at the end of a p2p
      phase the loop meets first depends on the order of the clients. */
  ghost predicate Agrees(o: Outcome, r: Result, s: State, sent: seq<Cast>, before: seq<Cast>) {
    match o
    case Halt(bug) => r == Failed(bug) || (bug == AlreadyMetered && r == Failed(EndP2P))
    case Next(state, out) => r == Fine && s == state && sent == before + out
  }

  class Master {
    var clients: map<Uuid, Info>
    var byAddr: map<Addr, Uuid>
    var addrOf: map<Uuid, Addr>
    var votes: map<Ballot, set<Uuid>>
    var strategies: map<Uuid, Strategy>
    var aborts: set<(Group, Tag)>
    var metered: set<Uuid>
    var nextSeq: nat
    var dropped: bool
    var issued: set<Uuid>
    var sent: seq<Cast>

    constructor ()
      ensures Abs() == Start() && sent == []
    {
      clients, byAddr, addrOf, votes, strategies := map[], map[], map[], map[], map[];
      aborts, metered, nextSeq, dropped, issued, sent := {}, {}, 0, false, {}, [];
    }

    function Abs(): State
      reads this
    {
      State(clients, byAddr, addrOf, votes, strategies, aborts, metered, nextSeq, dropped, issued)
    }

    // Loops over the clients ------------------------------------------------------------------------

    method Update(f: (Uuid, Info) -> Info)
      modifies this`clients
      ensures clients == map u | u in old(clients) :: f(u, old(clients)[u])
    {
      var left := clients.Keys;
      while left != {}
        invariant left <= clients.Keys == old(clients).Keys
        invariant forall u :: u in clients ==> clients[u] == if u in left then old(clients)[u] else f(u, old(clients)[u])
        decreases left
      {
        var u :| u in left;
        clients := clients[u := f(u, clients[u])];
        left := left - {u};
      }
    }

    ghost function Where(test: (Uuid, Info) -> bool): set<Uuid>
      reads this
    {
      set u | u in clients && test(u, clients[u])
    }

    method Count(test: (Uuid, Info) -> bool) returns (n: nat)
      ensures n == |Where(test)|
    {
      n := 0;
      var left := clients.Keys;
      ghost var counted: set<Uuid> := {};
      while left != {}
        invariant left <= clients.Keys
        invariant counted == (set u | u in Where(test) && u !in left) && n == |counted|
        decreases left
      {
        var u :| u in left;
        left := left - {u};
        if test(u, clients[u]) {
          n := n + 1;
          counted := counted + {u};
        }
      }
      assert counted == Where(test);
    }

    method Any(test: (Uuid, Info) -> bool) returns (found: bool)
      ensures found == exists u :: u in clients && test(u, clients[u])
    {
      var left := clients.Keys;
      while left != {}
        invariant left <= clients.Keys
        invariant forall u :: u in clients && u !in left ==> !test(u, clients[u])
        decreases left
      {
        var u :| u in left;
        left := left - {u};
        if test(u, clients[u]) { return true; }
      }
      return false;
    }

    /** The receivers a packet goes to. */
    method Send(test: (Uuid, Info) -> bool, body: Body)
      modifies this`sent
      ensures sent == old(sent) + [Cast(Where(test), body)]
    {
      var to: set<Uuid> := {};
      var left := clients.Keys;
      while left != {}
        invariant left <= clients.Keys && to == (set u | u in Where(test) && u !in left)
        decreases left
      {
        var u :| u in left;
        left := left - {u};
        if test(u, clients[u]) { to := to + {u}; }
      }
      assert to == Where(test);
      sent := sent + [Cast(to, body)];
    }

    // Votes and phases ------------------------------------------------------------------------------

    method Consents(c: Conn) returns (r: bool)
      ensures r == Consensus(Abs(), c)
    {
      var n := Count((_, i: Info) => i.conn == c || i.phase == Registered);
      assert Where((_, i: Info) => i.conn == c || i.phase == Registered) == Counted(Abs(), c);
      return n == |byAddr|;
    }

    method Vote(u: Uuid, b: Ballot) returns (r: Result)
      requires u in clients
      modifies this
      ensures Agrees(CastVote(old(Abs()), u, b), r, Abs(), sent, old(sent))
    {
      clients := clients[u := clients[u].(conn := VoteConn(b))];
      var current := if b in votes then votes[b] else {};
      if u in current { return Failed(DoubleVote); }
      votes := votes[b := current + {u}];
      return Fine;
    }

    method Open(accept: bool)
      modifies this
      ensures Abs() == OpenP2P(old(Abs()), accept) && sent == old(sent)
    {
      Update((_, i: Info) => if accept || i.phase == Accepted then i.(conn := Connecting) else i);
      votes := votes[if accept then ToAccept else ToEstablish := {}];
    }

    /** A phase opens for the clients now connecting, who are told whom to connect to. */
    method OpenPhase(accept: bool)
      modifies this
      ensures Abs() == OpenP2P(old(Abs()), accept).(dropped := false)
      ensures sent == old(sent) + [Cast(InConn(Abs(), Connecting), PeersInfo(accept))]
    {
      dropped := false;
      Open(accept);
      Send((_, i: Info) => i.conn == Connecting, PeersInfo(accept));
      assert Where((_, i: Info) => i.conn == Connecting) == InConn(Abs(), Connecting);
    }

    method CheckOpening()
      modifies this
      ensures Agrees(CheckEstablish(old(Abs())), Fine, Abs(), sent, old(sent))
    {
      hide Consensus, OpenP2P, InConn;
      var accept := Consents(VoteAccept);
      if accept { OpenPhase(true); }
      var establish := Consents(VoteNoNew);
      if establish { OpenPhase(false); }
    }

    /** transitionToP2PConnectionsEstablishedPhase; a newcomer must be new to the bandwidth store. */
    method Close(failure: bool) returns (ok: bool)
      modifies this
      ensures ok <==> CanEndP2P(old(Abs()), failure) && Newcomers(old(Abs())) !! old(metered)
      ensures ok ==> Abs() == CloseP2P(old(Abs()), failure).(dropped := old(dropped)) && sent == old(sent)
    {
      hide Newcomers, CanEndP2P, CloseP2P, Closing, EndedInfo;
      ghost var s := Abs();
      var left := clients.Keys;
      ClosingStarts(s, failure);
      while left != {}
        invariant Abs() == s.(clients := clients, metered := metered) && sent == old(sent)
        invariant Closing(s, clients, metered, left, failure)
        decreases left
      {
        var u :| u in left;
        ClosingAt(s, clients, metered, left, failure, u);
        var i := clients[u];
        if !(i.phase == Registered && i.conn == Idle) {
          if i.conn == Waiting {
            clients := clients[u := i.(conn := if failure then ConnectFailed else Idle, phase := Accepted)];
            if i.phase == Registered {
              if u in metered { return false; }
              metered := metered + {u};
            }
          } else if !failure || i.conn != ConnectFailed {
            return false;
          }
        }
        left := left - {u};
      }
      ClosingEnds(s, clients, metered, failure);
      return true;
    }

    method SendMembers(g: Group, body: Body)
      modifies this`sent
      ensures sent == old(sent) + [Cast(Members(Abs(), g), body)]
    {
      Send((_, i: Info) => i.phase == Accepted && i.group == g, body);
      assert Where((_, i: Info) => i.phase == Accepted && i.group == g) == Members(Abs(), g);
    }

    method SendParticipants(body: Body)
      modifies this`sent
      ensures sent == old(sent) + [Cast(Participants(Abs()), body)]
    {
      Send((_, i: Info) => !LeftOut(i), body);
      assert Where((_, i: Info) => !LeftOut(i)) == Participants(Abs());
    }

    /** p2pConnectionsEstablishConsensus, for which somebody must wait. */
    method AllHaveReported() returns (r: bool)
      ensures r == P2PConsensus(Abs())
    {
      var waiting := Any((_, i: Info) => Reported(i.conn));
      if !waiting { return false; }
      var voting := Count((_, i: Info) => Reported(i.conn));
      var connecting := Count((_, i: Info) => Reported(i.conn) || i.conn == Connecting);
      AllReported(Abs());
      assert Where((_, i: Info) => Reported(i.conn)) == (set u | u in clients && Reported(clients[u].conn));
      assert Where((_, i: Info) => Reported(i.conn) || i.conn == Connecting)
          == (set u | u in clients && (Reported(clients[u].conn) || clients[u].conn == Connecting));
      return voting == connecting;
    }

    method CheckClosing() returns (r: Result)
      modifies this
      ensures Agrees(CheckP2P(old(Abs())), r, Abs(), sent, old(sent))
    {
      hide CanEndP2P, Newcomers, CloseP2P, P2PConsensus, Participants;
      ClosedFields(Abs());
      var ready := AllHaveReported();
      if !ready { return Fine; }
      var anyFailed := Any((_, i: Info) => i.conn == ConnectFailed);
      var failure := anyFailed || dropped;
      var ok := Close(failure);
      if !ok { return Failed(EndP2P); }
      dropped := false;
      SendParticipants(Established(!failure));
      return Fine;
    }

    method CheckPendingPeers()
      modifies this
      ensures Agrees(CheckPending(old(Abs())), Fine, Abs(), sent, old(sent))
    {
      var missing := Any((_, i: Info) => i.phase == Accepted && !i.pending);
      if clients == map[] || missing { return; }
      var waiting := Any((_, i: Info) => i.phase == Registered);
      Send((_, i: Info) => i.phase == Accepted, Pending(waiting));
      assert Where((_, i: Info) => i.phase == Accepted) == Everyone(Abs());
      Update((_, i: Info) => if i.phase == Accepted then i.(pending := false) else i);
      assert clients == ResetPendingAll(old(Abs())).clients;
    }

    /** The transition of all accepted peers from the state of a ballot to the next. */
    method AllMove(b: Ballot, to: Conn) returns (ok: bool)
      modifies this
      ensures ok == Unanimous(old(Abs()), VoteConn(b))
      ensures ok ==> Abs() == SetVotes(AllTo(old(Abs()), to), b, {}) && sent == old(sent)
    {
      var other := Any((_, i: Info) => i.phase == Accepted && i.conn != VoteConn(b));
      if other { return false; }
      Update((_, i: Info) => if i.phase == Accepted then i.(conn := to) else i);
      votes := votes[b := {}];
      assert clients == AllTo(old(Abs()), to).clients;
      return true;
    }

    method CheckOptimize(b: Ballot, to: Conn, bug: Bug, body: Body) returns (r: Result)
      modifies this
      ensures
        if !Consensus(old(Abs()), VoteConn(b)) then r == Fine && Abs() == old(Abs()) && sent == old(sent)
        else if !Unanimous(old(Abs()), VoteConn(b)) then r == Failed(bug)
        else
          && r == Fine && Abs() == SetVotes(AllTo(old(Abs()), to), b, {})
          && sent == old(sent) + [Cast(Everyone(old(Abs())), body)]
    {
      hide Consensus, Unanimous;
      var consensus := Consents(VoteConn(b));
      if !consensus { return Fine; }
      var ok := AllMove(b, to);
      if !ok { return Failed(bug); }
      Send((_, i: Info) => i.phase == Accepted, body);
      assert Where((_, i: Info) => i.phase == Accepted) == Everyone(old(Abs()));
      return Fine;
    }

    // Shared state ----------------------------------------------------------------------------------

    /** How many of the group are in state `c`, how many are accepted; none, if the vote set does not fit. */
    method GroupConsensus(g: Group, b: Ballot) returns (fits: bool, all: bool)
      ensures fits == (|In(Abs(), g, VoteConn(b))| == |Votes(Abs(), b)|)
      ensures all == (|In(Abs(), g, VoteConn(b))| == |Members(Abs(), g)|)
    {
      var voting := Count((_, i: Info) => i.group == g && i.conn == VoteConn(b));
      var accepted := Count((_, i: Info) => i.phase == Accepted && i.group == g);
      assert Where((_, i: Info) => i.group == g && i.conn == VoteConn(b)) == In(Abs(), g, VoteConn(b));
      assert Where((_, i: Info) => i.phase == Accepted && i.group == g) == Members(Abs(), g);
      return voting == |if b in votes then votes[b] else {}|, voting == accepted;
    }

    method AllIn(g: Group, c: Conn) returns (all: bool, any: bool)
      ensures all == (Members(Abs(), g) <= In(Abs(), g, c)) && any == (Members(Abs(), g) * In(Abs(), g, c) != {})
    {
      hide Members, In;
      MemberTests(Abs(), g, c);
      any := Any((_, i: Info) => i.group == g && i.phase == Accepted && i.conn == c);
      var other := Any((_, i: Info) => i.phase == Accepted && i.group == g && i.conn != c);
      all := !other;
    }

    method StartRound(g: Group, distributors: set<Uuid>)
      modifies this
      ensures Abs() == SetVotes(Assigned(old(Abs()), g, distributors), ToSync(g), {}) && sent == old(sent)
    {
      Update((u, i: Info) => if i.group == g && i.conn == VoteSync
                             then i.(conn := if u in distributors then Distributing else Requesting) else i);
      votes := votes[ToSync(g) := {}];
      assert clients == Assigned(old(Abs()), g, distributors).clients;
    }

    method FinishRound(g: Group)
      modifies this
      ensures Abs() == EndRound(old(Abs()), g) && sent == old(sent)
    {
      hide EndRound;
      Update((_, i: Info) => if i.phase == Accepted && i.group == g then i.(conn := Idle) else i);
      votes := votes[ToEndSync(g) := {}];
      strategies := map u | u in strategies && !(u in clients && clients[u].phase == Accepted && clients[u].group == g)
                        :: strategies[u];
      EndRoundFields(old(Abs()), g, Abs());
    }

    /** checkSyncSharedStateConsensus, with the outcome of the election given. */
    method CheckSyncing(g: Group, verdict: SyncVerdict) returns (r: Result)
      modifies this
      ensures Agrees(CheckSync(old(Abs()), g, verdict), r, Abs(), sent, old(sent))
    {
      hide Members, In, Assigned;
      var unanimous, waiting := AllIn(g, VoteSync);
      if !waiting { return Fine; }
      var fits, all := GroupConsensus(g, ToSync(g));
      if !fits { return Failed(CountMismatch); }
      if !all { return Fine; }
      match verdict
      case NoMask => return Fine;
      case Broken => return Failed(SyncData);
      case Mismatch(peer) =>
        sent := sent + [Cast({peer}, Kick)];
        return Fine;
      case Assign(distributors) =>
        if !unanimous { return Failed(Bug.StartSync); }
        SendMembers(g, SyncStart);
        StartRound(g, distributors);
        return Fine;
    }

    method CheckSyncComplete(g: Group) returns (r: Result)
      modifies this
      ensures Agrees(CheckSynced(old(Abs()), g), r, Abs(), sent, old(sent))
    {
      hide Members, In, EndRound;
      var fits, all := GroupConsensus(g, ToEndSync(g));
      if !fits { return Failed(CountMismatch); }
      if !all { return Fine; }
      var unanimous, _ := AllIn(g, VoteSynced);
      if !unanimous { return Failed(Bug.EndSync); }
      SendMembers(g, Body.SyncEnd);
      FinishRound(g);
      return Fine;
    }

    // Collective operations -------------------------------------------------------------------------

    method AllInCollective(g: Group, tag: Tag, c: Coll) returns (all: bool)
      ensures all == AllInColl(Abs(), g, tag, c)
    {
      var voting := Count((_, i: Info) => i.phase == Accepted && i.group == g && InColl(i, tag, c));
      var accepted := Count((_, i: Info) => i.phase == Accepted && i.group == g);
      CollectiveCount(Abs(), g, tag, c);
      assert Where((_, i: Info) => i.phase == Accepted && i.group == g) == Members(Abs(), g);
      assert Where((_, i: Info) => i.phase == Accepted && i.group == g && InColl(i, tag, c)) == Voters(Abs(), g, tag, c);
      return voting == accepted;
    }

    method AllRunning(g: Group) returns (all: bool)
      ensures all == (Members(Abs(), g) <= Runners(Abs(), g))
    {
      hide Members, In;
      var inState, _ := AllIn(g, Running);
      RunnersAre(Abs(), g);
      return inState;
    }

    method SendRunners(g: Group, body: Body)
      modifies this`sent
      ensures sent == old(sent) + [Cast(Runners(Abs(), g), body)]
    {
      Send((_, i: Info) => i.group == g && i.phase == Accepted && i.conn == Running, body);
      assert Where((_, i: Info) => i.group == g && i.phase == Accepted && i.conn == Running) == Runners(Abs(), g);
    }

    method Commence(g: Group, tag: Tag)
      modifies this
      ensures Abs() == Commenced(old(Abs()), g, tag) && sent == old(sent)
    {
      Update((_, i: Info) => if i.phase == Accepted && i.group == g then i.(coll := i.coll[tag := Performing]) else i);
      nextSeq := nextSeq + 1;
      assert clients == Commenced(old(Abs()), g, tag).clients;
    }

    method CheckInitiated(g: Group, tag: Tag) returns (r: Result)
      modifies this
      ensures Agrees(CheckInitiate(old(Abs()), g, tag), r, Abs(), sent, old(sent))
    {
      hide AllInColl, Members, Runners, Commenced;
      var all := AllInCollective(g, tag, VoteInit);
      if !all { return Fine; }
      var running := AllRunning(g);
      if !running { return Failed(StartColl); }
      SendMembers(g, Body.Commence(tag, nextSeq));
      Commence(g, tag);
      return Fine;
    }

    method Conclude(g: Group, tag: Tag)
      modifies this
      ensures Abs() == Concluded(old(Abs()), g, tag) && sent == old(sent)
    {
      Update((_, i: Info) => if i.phase == Accepted && i.group == g then WithoutTag(i, tag) else i);
      aborts := aborts - {(g, tag)};
      assert clients == Concluded(old(Abs()), g, tag).clients;
    }

    method CheckCompleted(g: Group, tag: Tag) returns (r: Result)
      modifies this
      ensures Agrees(CheckComplete(old(Abs()), g, tag), r, Abs(), sent, old(sent))
    {
      hide AllInColl, Members, Runners, Concluded;
      var all := AllInCollective(g, tag, VoteDone);
      if !all { return Fine; }
      var running := AllRunning(g);
      if !running { return Failed(EndColl); }
      if (g, tag) !in aborts { SendRunners(g, Abort(tag, false)); }
      SendMembers(g, Completed(tag));
      Conclude(g, tag);
      return Fine;
    }

    /** abortCollectiveCommsOperation and, for the first to report, the packets. */
    method Mark(g: Group, tag: Tag)
      modifies this
      ensures Agrees(MarkAborted(old(Abs()), g, tag), Fine, Abs(), sent, old(sent))
    {
      hide Runners;
      if (g, tag) in aborts { return; }
      SendRunners(g, Abort(tag, true));
      aborts := aborts + {(g, tag)};
      RunnersKept(old(Abs()), Abs(), g);
    }

    method Review(g: Group, tag: Tag) returns (r: Result)
      modifies this
      ensures Agrees(Recheck(old(Abs()), g, tag), r, Abs(), sent, old(sent))
    {
      hide CheckInitiate, CheckComplete, InProgress, MarkAborted;
      r := CheckInitiated(g, tag);
      if r.Failed? { return; }
      r := CheckCompleted(g, tag);
      if r.Failed? { return; }
      var running := Any((_, i: Info) => i.group == g && InColl(i, tag, Performing));
      ProgressIs(Abs(), g, tag);
      if running {
        MarkNext(Abs(), g, tag);
        Mark(g, tag);
      }
    }

    method ReviewAll(g: Group, tags: seq<Tag>) returns (r: Result)
      modifies this
      ensures Agrees(RecheckAll(old(Abs()), g, tags), r, Abs(), sent, old(sent))
    {
      hide Recheck;
      ghost var out: seq<Cast> := [];
      var i := 0;
      while i < |tags|
        invariant i <= |tags| && sent == old(sent) + out
        invariant RecheckAll(old(Abs()), g, tags) == Before(RecheckAll(Abs(), g, tags[i..]), out)
      {
        ghost var here, sentHere := Abs(), sent;
        RecheckNext(here, g, tags, i, out);
        r := Review(g, tags[i]);
        if r.Failed? { return; }
        out := out + Recheck(here, g, tags[i]).out;
        i := i + 1;
      }
      return Fine;
    }

    // Coming and going ------------------------------------------------------------------------------

    /** registerClient, past the check for mixed local and public addresses. */
    method Admit(addr: Addr, local: bool, group: Group, u: Uuid) returns (r: Result)
      modifies this
      ensures Agrees(Enroll(old(Abs()), addr, local, group, u), r, Abs(), sent, old(sent))
    {
      hide Enroll, FirstJoins;
      EnrollIs(Abs(), addr, local, group, u);
      byAddr := byAddr[addr := u];
      addrOf := addrOf[u := addr];
      clients := clients[u := Info(Registered, Idle, addr, local, group, map[], false)];
      issued := issued + {u};
      r := Fine;
      if |byAddr| == 1 { r := AdmitFirst(u); }
    }

    /** The first client is accepted at once. */
    method AdmitFirst(u: Uuid) returns (r: Result)
      requires u in clients
      modifies this
      ensures Agrees(FirstJoins(old(Abs()), u), r, Abs(), sent, old(sent))
    {
      hide Consensus, CastVote, OpenP2P;
      clients := clients[u := clients[u].(phase := Accepted)];
      if u in metered { return Failed(AlreadyMetered); }
      metered := metered + {u};
      VoteSilent(Abs(), u, ToAccept);
      r := Vote(u, ToAccept);
      if r.Failed? { return; }
      var consensus := Consents(VoteAccept);
      if !consensus { return Failed(FirstClient); }
      Open(true);
    }

    method HandleRegister(addr: Addr, local: bool, group: Group, u: Uuid) returns (r: Result)
      modifies this
      ensures Agrees(OnRegister(old(Abs()), addr, local, group, u), r, Abs(), sent, old(sent))
    {
      hide Enroll, CheckEstablish, InConn, Mixes;
      if addr in byAddr {
        sent := sent + [Cast({byAddr[addr]}, Kick)];
        return Fine;
      }
      var mixed := HasOther(local);
      if !mixed {
        EnrollSilent(Abs(), addr, local, group, u);
        r := Admit(addr, local, group, u);
        if r.Failed? { return; }
      }
      sent := sent + [Cast({u}, Response(!mixed))];
      if |byAddr| == 1 {
        SendConnecting();
      } else {
        ChecksNext(Abs());
        CheckOpening();
      }
      return Fine;
    }

    method HasOther(local: bool) returns (mixed: bool)
      ensures mixed == Mixes(Abs(), local)
    {
      mixed := Any((_, i: Info) => i.local != local);
    }

    method SendConnecting()
      modifies this`sent
      ensures sent == old(sent) + [Cast(InConn(Abs(), Connecting), PeersInfo(true))]
    {
      Send((_, i: Info) => i.conn == Connecting, PeersInfo(true));
      assert Where((_, i: Info) => i.conn == Connecting) == InConn(Abs(), Connecting);
    }

    /** unregisterClient: the peer disappears from every map and every vote set. */
    method Remove(u: Uuid)
      requires u in clients
      modifies this
      ensures Abs() == Leave(old(Abs()), u) && sent == old(sent)
    {
      hide Leave, Withdrawn, Removed;
      LeaveIs(Abs(), u);
      var g := clients[u].group;
      Erase(u);
      Withdraw(ToAccept, u);
      Withdraw(ToEstablish, u);
      Withdraw(ToOptimize, u);
      Withdraw(ToEndOptimize, u);
      Withdraw(ToSync(g), u);
      Withdraw(ToEndSync(g), u);
    }

    method Erase(u: Uuid)
      requires u in clients
      modifies this
      ensures Abs() == Removed(old(Abs()), u) && sent == old(sent)
    {
      var i := clients[u];
      addrOf := addrOf - {u};
      clients := clients - {u};
      if i.phase == Accepted { metered := metered - {u}; }
      byAddr := byAddr - {i.addr};
      strategies := strategies - {u};
    }

    method Withdraw(b: Ballot, u: Uuid)
      modifies this
      ensures Abs() == Withdrawn(old(Abs()), b, u) && sent == old(sent)
    {
      votes := votes[b := (if b in votes then votes[b] else {}) - {u}];
    }

    /** getOngoingCollectiveCommsOpTags: each tag once, in any order. */
    method TagList(g: Group) returns (tags: seq<Tag>)
      ensures (set t | t in tags) == OngoingTags(Abs(), g)
      ensures forall i, j :: 0 <= i < j < |tags| ==> tags[i] != tags[j]
    {
      var found: set<Tag> := {};
      var left := clients.Keys;
      while left != {}
        invariant left <= clients.Keys
        invariant forall t :: t in found <==>
          exists u :: u in clients && u !in left && clients[u].group == g && t in clients[u].coll
        decreases left
      {
        var u :| u in left;
        ghost var before, rest := found, left;
        left := left - {u};
        if clients[u].group == g { found := found + clients[u].coll.Keys; }
        FoundMore(clients, g, before, found, rest, u);
      }
      assert found == OngoingTags(Abs(), g) by { FoundAll(Abs(), g, found); }
      tags := Listed(found);
    }

    method Listed(found: set<Tag>) returns (tags: seq<Tag>)
      ensures (set t | t in tags) == found
      ensures forall i, j :: 0 <= i < j < |tags| ==> tags[i] != tags[j]
    {
      tags := [];
      var more := found;
      while more != {}
        invariant more <= found && forall t :: t in tags <==> t in found && t !in more
        invariant forall i, j :: 0 <= i < j < |tags| ==> tags[i] != tags[j]
        decreases more
      {
        var t :| t in more;
        tags := tags + [t];
        more := more - {t};
      }
    }

    /** onClientDisconnect, up to the collective operations. */
    method Depart(u: Uuid, verdict: SyncVerdict) returns (r: Result)
      requires u in clients
      modifies this
      ensures Agrees(Departed(old(Abs()), u, verdict), r, Abs(), sent, old(sent))
    {
      hide Departed, Leave, DropOut, Resume;
      DepartedIs(Abs(), u, verdict);
      var g := clients[u].group;
      Remove(u);
      r := DropFromP2P();
      if r.Failed? { return; }
      r := CheckRounds(g, verdict);
    }

    method CheckRounds(g: Group, verdict: SyncVerdict) returns (r: Result)
      modifies this
      ensures Agrees(Resume(old(Abs()), g, verdict), r, Abs(), sent, old(sent))
    {
      hide CheckPending, CheckSync, CheckSynced;
      ChecksNext(Abs());
      ghost var a := CheckPending(Abs());
      CheckPendingPeers();
      ghost var b := CheckSync(Abs(), g, verdict);
      r := CheckSyncing(g, verdict);
      if r.Failed? { return; }
      ghost var c := CheckSynced(Abs(), g);
      r := CheckSyncComplete(g);
      if c.Next? { SentInOrder(old(sent), a.out, b.out, c.out); }
    }

    /** The phase that may open now is a new one; the one that goes on has lost a peer. */
    method DropFromP2P() returns (r: Result)
      modifies this
      ensures Agrees(DropOut(old(Abs())), r, Abs(), sent, old(sent))
    {
      hide CheckEstablish, CheckP2P;
      ChecksNext(Abs());
      ghost var a := CheckEstablish(Abs());
      CheckOpening();
      dropped := true;
      ghost var b := CheckP2P(Abs());
      r := CheckClosing();
      if r == Fine { assert sent == old(sent) + (a.out + b.out); }
    }

    method HandleDisconnect(addr: Addr, verdict: SyncVerdict) returns (r: Result, ghost tags: seq<Tag>)
      modifies this
      ensures Legal(old(Abs()), Disconnect(addr, verdict, tags))
      ensures Agrees(Step(old(Abs()), Disconnect(addr, verdict, tags)), r, Abs(), sent, old(sent))
    {
      hide Departed, RecheckAll, OngoingTags;
      tags := [];
      if addr !in byAddr || byAddr[addr] !in clients { return Fine, []; }
      var u := byAddr[addr];
      var g := clients[u].group;
      r := Depart(u, verdict);
      if r.Failed? { return; }
      var list := TagList(g);
      tags := list;
      r := ReviewAll(g, list);
    }

    // Packets ---------------------------------------------------------------------------------------

    method KickPeer(u: Uuid)
      modifies this
      ensures Agrees(KickOut(old(Abs()), u), Fine, Abs(), sent, old(sent))
    {
      sent := sent + [Cast({u}, Kick)];
    }

    method HandleRequestP2P(u: Uuid, accept: bool) returns (r: Result)
      requires u in clients
      modifies this
      ensures Agrees(OnRequestP2P(old(Abs()), u, accept), r, Abs(), sent, old(sent))
    {
      hide CastVote, CheckEstablish;
      var i := clients[u];
      if i.phase != Accepted || (i.conn != Idle && i.conn != ConnectFailed) {
        KickPeer(u);
        return Fine;
      }
      VoteSilent(Abs(), u, if accept then ToAccept else ToEstablish);
      r := Vote(u, if accept then ToAccept else ToEstablish);
      if r.Failed? { return; }
      ChecksNext(Abs());
      CheckOpening();
    }

    method HandleReportP2P(u: Uuid, success: bool, fail: FailVerdict) returns (r: Result)
      requires u in clients
      modifies this
      ensures Agrees(OnReportP2P(old(Abs()), u, success, fail), r, Abs(), sent, old(sent))
    {
      hide CheckP2P;
      if clients[u].conn != Connecting || (!success && fail.KickPeer?) {
        KickPeer(u);
        return Fine;
      }
      if !success && fail.StillOptimal? { return Failed(RingOptimal); }
      clients := clients[u := clients[u].(conn := if success then Waiting else ConnectFailed)];
      r := CheckClosing();
    }

    method HandleQueryPending(u: Uuid)
      requires u in clients
      modifies this
      ensures Agrees(OnQueryPending(old(Abs()), u), Fine, Abs(), sent, old(sent))
    {
      hide CheckPending;
      if clients[u].phase != Accepted || clients[u].pending {
        KickPeer(u);
      } else {
        clients := clients[u := clients[u].(pending := true)];
        ChecksNext(Abs());
        CheckPendingPeers();
      }
    }

    method HandleRequestOptimize(u: Uuid) returns (r: Result)
      requires u in clients
      modifies this
      ensures Agrees(OnRequestOptimize(old(Abs()), u), r, Abs(), sent, old(sent))
    {
      hide CastVote, Consensus, Unanimous, AllTo, SetVotes, Everyone;
      var i := clients[u];
      if i.phase != Accepted || (i.conn != Idle && i.conn != OptimizeFailed) {
        KickPeer(u);
        return Fine;
      }
      VoteSilent(Abs(), u, ToOptimize);
      r := Vote(u, ToOptimize);
      if r.Failed? { return; }
      r := CheckOptimize(ToOptimize, Optimizing, StartOptimize, OptimizeStart);
    }

    method HandleReportOptimized(u: Uuid) returns (r: Result)
      requires u in clients
      modifies this
      ensures Agrees(OnReportOptimized(old(Abs()), u), r, Abs(), sent, old(sent))
    {
      hide CastVote, Consensus, Unanimous, AllTo, SetVotes, Everyone;
      if clients[u].phase != Accepted || clients[u].conn != Optimizing {
        KickPeer(u);
        return Fine;
      }
      VoteSilent(Abs(), u, ToEndOptimize);
      r := Vote(u, ToEndOptimize);
      if r.Failed? { return; }
      r := CheckOptimize(ToEndOptimize, Idle, EndOptimize, OptimizeEnd);
    }

    method HandleSyncState(u: Uuid, legal: bool, strategy: Strategy, verdict: SyncVerdict) returns (r: Result)
      requires u in clients
      modifies this
      ensures Agrees(OnSyncState(old(Abs()), u, legal, strategy, verdict), r, Abs(), sent, old(sent))
    {
      hide CastVote, CheckSync;
      var i := clients[u];
      if !legal || i.phase != Accepted || i.conn != Idle {
        KickPeer(u);
        return Fine;
      }
      VoteSilent(Abs(), u, ToSync(i.group));
      r := Vote(u, ToSync(i.group));
      if r.Failed? { return; }
      if u in strategies { return Failed(DoubleStrategy); }
      strategies := strategies[u := strategy];
      r := CheckSyncing(i.group, verdict);
    }

    method HandleReportSynced(u: Uuid) returns (r: Result)
      requires u in clients
      modifies this
      ensures Agrees(OnReportSynced(old(Abs()), u), r, Abs(), sent, old(sent))
    {
      hide CastVote, CheckSynced;
      var i := clients[u];
      if i.phase != Accepted || (i.conn != Distributing && i.conn != Requesting) {
        KickPeer(u);
        return Fine;
      }
      VoteSilent(Abs(), u, ToEndSync(i.group));
      r := Vote(u, ToEndSync(i.group));
      if r.Failed? { return; }
      r := CheckSyncComplete(i.group);
    }

    method HandleInitiate(u: Uuid, tag: Tag) returns (r: Result)
      requires u in clients
      modifies this
      ensures Agrees(OnInitiate(old(Abs()), u, tag), r, Abs(), sent, old(sent))
    {
      hide CheckInitiate;
      var i := clients[u];
      if i.phase != Accepted || (i.conn != Idle && i.conn != Running) || tag in i.coll {
        KickPeer(u);
        return Fine;
      }
      clients := clients[u := i.(conn := Running, coll := i.coll[tag := VoteInit])];
      r := CheckInitiated(i.group, tag);
    }

    method HandleComplete(u: Uuid, tag: Tag, aborted: bool) returns (r: Result)
      requires u in clients
      modifies this
      ensures Agrees(OnComplete(old(Abs()), u, tag, aborted), r, Abs(), sent, old(sent))
    {
      hide CheckComplete, MarkAborted;
      var i := clients[u];
      if i.phase != Accepted || !InColl(i, tag, Performing) {
        KickPeer(u);
        return Fine;
      }
      clients := clients[u := i.(coll := i.coll[tag := VoteDone])];
      if aborted {
        MarkNext(Abs(), i.group, tag);
        Mark(i.group, tag);
      }
      r := CheckCompleted(i.group, tag);
    }

    /** Any packet, from anybody: the invariant of all runs is kept, and only the bugs it leaves open can end the
        process, each with its own message. */
    method Handle(e: Event) returns (r: Result)
      requires !e.Disconnect? && MasterInv.Inv(Abs()) && Legal(Abs(), e)
      modifies this
      ensures Agrees(Step(old(Abs()), e), r, Abs(), sent, old(sent))
      ensures r == Fine ==> MasterInv.Inv(Abs())
      ensures r.Failed? ==> MasterInv.Possible(r.bug) && Step(old(Abs()), e) == Halt(r.bug)
    {
      hide MasterInv.Inv, Legal, OnRegister, OnRequestP2P, OnReportP2P, OnQueryPending, OnRequestOptimize, OnReportOptimized,
           OnSyncState, OnReportSynced, OnInitiate, OnComplete, OnDisconnect;
      MasterInv.StepInv(Abs(), e);
      if e.Register? {
        r := HandleRegister(e.addr, e.local, e.group, e.id);
      } else if e.addr !in byAddr || byAddr[e.addr] !in clients {
        r := Fine;
      } else {
        var u := byAddr[e.addr];
        match e
        case RequestP2P(_, accept) => r := HandleRequestP2P(u, accept);
        case ReportP2P(_, success, fail) => r := HandleReportP2P(u, success, fail);
        case QueryPending(_) =>
          QueryNext(Abs(), u);
          HandleQueryPending(u);
          r := Fine;
        case RequestOptimize(_) => r := HandleRequestOptimize(u);
        case ReportBandwidth(_, to) =>
          r := if to in clients && clients[to].group == clients[u].group && !(u in metered && to in metered)
               then Failed(StoreBandwidth) else Fine;
        case ReportOptimized(_) => r := HandleReportOptimized(u);
        case SyncState(_, legal, strategy, verdict) => r := HandleSyncState(u, legal, strategy, verdict);
        case ReportSynced(_) => r := HandleReportSynced(u);
        case Initiate(_, tag) => r := HandleInitiate(u, tag);
        case Complete(_, tag, aborted) => r := HandleComplete(u, tag, aborted);
      }
    }
  }

  // Ending a p2p phase client by client -------------------------------------------------------------

  predicate Closable(i: Info, failure: bool) {
    LeftOut(i) || i.conn == Waiting || (failure && i.conn == ConnectFailed)
  }

  ghost predicate Closing(s: State, m: map<Uuid, Info>, metered: set<Uuid>, left: set<Uuid>, failure: bool) {
    && left <= m.Keys == s.clients.Keys
    && (forall u :: u in m ==> m[u] == if u in left then s.clients[u] else EndedInfo(s.clients[u], failure))
    && metered == s.metered + (Newcomers(s) - left)
    && (forall u :: u in m && u !in left ==> Closable(s.clients[u], failure) && (u in Newcomers(s) ==> u !in s.metered))
  }

  lemma ClosingStarts(s: State, failure: bool)
    ensures Closing(s, s.clients, s.metered, s.clients.Keys, failure)
  {
  }

  lemma ClosingAt(s: State, m: map<Uuid, Info>, metered: set<Uuid>, left: set<Uuid>, failure: bool, u: Uuid)
    requires Closing(s, m, metered, left, failure) && u in left
    ensures u in m && m[u] == s.clients[u]
    ensures !Closable(m[u], failure) ==> !CanEndP2P(s, failure)
    ensures m[u].conn == Waiting && m[u].phase == Registered && u in metered ==> !(Newcomers(s) !! s.metered)
    ensures Closable(m[u], failure) && !(m[u].conn == Waiting && m[u].phase == Registered && u in metered) ==>
      && Closing(s, m[u := EndedInfo(m[u], failure)],
                 if m[u].conn == Waiting && m[u].phase == Registered then metered + {u} else metered, left - {u}, failure)
      && (m[u].conn != Waiting ==> Closing(s, m, metered, left - {u}, failure))
    ensures EndedInfo(m[u], failure) ==
      if m[u].conn == Waiting then m[u].(conn := if failure then ConnectFailed else Idle, phase := Accepted) else m[u]
  {
    assert u in Newcomers(s) <==> m[u].conn == Waiting && m[u].phase == Registered;
    assert m[u].conn != Waiting ==> m[u := m[u]] == m;
  }

  lemma ClosingEnds(s: State, m: map<Uuid, Info>, metered: set<Uuid>, failure: bool)
    requires Closing(s, m, metered, {}, failure)
    ensures CanEndP2P(s, failure) && Newcomers(s) !! s.metered
    ensures CloseP2P(s, failure) == s.(clients := m, metered := metered, dropped := false)
  {
    assert m == Mapped(s, (i: Info) => EndedInfo(i, failure)).clients;
    assert Newcomers(s) <= m.Keys;
  }

  // What the loops decide ---------------------------------------------------------------------------

  lemma ClosedFields(s: State)
    ensures forall failure :: CloseP2P(s, failure).dropped == false
  {
  }

  lemma AllReported(s: State)
    ensures
      |set u | u in s.clients && Reported(s.clients[u].conn)|
        == |set u | u in s.clients && (Reported(s.clients[u].conn) || s.clients[u].conn == Connecting)|
      <==> forall u :: u in s.clients ==> s.clients[u].conn != Connecting
  {
    var a := set u | u in s.clients && Reported(s.clients[u].conn);
    var b := set u | u in s.clients && (Reported(s.clients[u].conn) || s.clients[u].conn == Connecting);
    MasterInv.SubsetCount(a, b);
    if |a| == |b| {
      forall u | u in s.clients ensures s.clients[u].conn != Connecting { assert u in b ==> u in a; }
    } else {
      assert a != b;
    }
  }

  lemma MemberTests(s: State, g: Group, c: Conn)
    ensures Members(s, g) * In(s, g, c) == {} <==>
      !exists u :: u in s.clients && s.clients[u].group == g && s.clients[u].phase == Accepted && s.clients[u].conn == c
    ensures Members(s, g) <= In(s, g, c) <==>
      !exists u :: u in s.clients && s.clients[u].phase == Accepted && s.clients[u].group == g && s.clients[u].conn != c
  {
    var both := Members(s, g) * In(s, g, c);
    forall u ensures u in both <==>
      u in s.clients && s.clients[u].group == g && s.clients[u].phase == Accepted && s.clients[u].conn == c { }
    if both != {} { var u :| u in both; }
    forall u ensures u in Members(s, g) && u !in In(s, g, c) <==>
      u in s.clients && s.clients[u].phase == Accepted && s.clients[u].group == g && s.clients[u].conn != c { }
  }

  lemma EndRoundFields(s: State, g: Group, s': State)
    requires s'.clients == map u | u in s.clients ::
      if s.clients[u].phase == Accepted && s.clients[u].group == g then s.clients[u].(conn := Idle) else s.clients[u]
    requires s'.votes == s.votes[ToEndSync(g) := {}]
    requires s'.strategies == map u | u in s.strategies &&
      !(u in s'.clients && s'.clients[u].phase == Accepted && s'.clients[u].group == g) :: s.strategies[u]
    requires s' == s.(clients := s'.clients, votes := s'.votes, strategies := s'.strategies)
    ensures s' == EndRound(s, g)
  {
    forall u | u in s.clients
      ensures u in Members(s, g) <==> s'.clients[u].phase == Accepted && s'.clients[u].group == g { }
    assert s'.strategies == s.strategies - Members(s, g);
  }

  function Voters(s: State, g: Group, tag: Tag, c: Coll): set<Uuid> {
    set u | u in s.clients && s.clients[u].phase == Accepted && s.clients[u].group == g && InColl(s.clients[u], tag, c)
  }

  lemma CollectiveCount(s: State, g: Group, tag: Tag, c: Coll)
    ensures |Voters(s, g, tag, c)| == |Members(s, g)| <==> AllInColl(s, g, tag, c)
  {
    MasterInv.SubsetCount(Voters(s, g, tag, c), Members(s, g));
    if |Voters(s, g, tag, c)| == |Members(s, g)| {
      forall u | u in Members(s, g) ensures InColl(s.clients[u], tag, c) { assert u in Voters(s, g, tag, c); }
    }
    if AllInColl(s, g, tag, c) { assert Voters(s, g, tag, c) == Members(s, g); }
  }

  lemma RunnersAre(s: State, g: Group)
    ensures Members(s, g) <= Runners(s, g) <==> Members(s, g) <= In(s, g, Running)
  {
  }

  lemma RunnersKept(s: State, s': State, g: Group)
    requires s'.clients == s.clients
    ensures Runners(s', g) == Runners(s, g)
  {
  }

  lemma ProgressIs(s: State, g: Group, tag: Tag)
    ensures InProgress(s, g, tag) <==> exists u :: u in s.clients && s.clients[u].group == g && InColl(s.clients[u], tag, Performing)
  {
  }

  lemma MarkNext(s: State, g: Group, tag: Tag)
    ensures MarkAborted(s, g, tag).Next?
  {
  }

  lemma RecheckNext(s: State, g: Group, tags: seq<Tag>, i: nat, out: seq<Cast>)
    requires i < |tags|
    ensures Before(RecheckAll(s, g, tags[i..]), out) ==
      if Recheck(s, g, tags[i]).Halt? then Recheck(s, g, tags[i])
      else Before(RecheckAll(Recheck(s, g, tags[i]).state, g, tags[i + 1..]), out + Recheck(s, g, tags[i]).out)
  {
    hide Recheck;
    assert tags[i..][1..] == tags[i + 1..];
    var a := Recheck(s, g, tags[i]);
    if a.Next? {
      var b := RecheckAll(a.state, g, tags[i + 1..]);
      if b.Next? { assert out + (a.out + b.out) == (out + a.out) + b.out; }
    }
  }

  function DropOut(s: State): Outcome {
    var a := CheckEstablish(s);
    Before(CheckP2P(a.state.(dropped := true)), a.out)
  }

  /** The votes that a departure can complete, after those of the p2p phases. */
  function Resume(s: State, g: Group, verdict: SyncVerdict): Outcome {
    var c := CheckPending(s);
    var d := CheckSync(c.state, g, verdict);
    if d.Halt? then d else Before(CheckSynced(d.state, g), c.out + d.out)
  }

  lemma DepartedIs(s: State, u: Uuid, verdict: SyncVerdict)
    requires u in s.clients
    ensures
      var b := DropOut(Leave(s, u));
      Departed(s, u, verdict) == if b.Halt? then b else Before(Resume(b.state, s.clients[u].group, verdict), b.out)
  {
    hide Leave, CheckEstablish, CheckP2P, CheckPending, CheckSync, CheckSynced;
    ChecksNext(Leave(s, u));
    var b := DropOut(Leave(s, u));
    if b.Next? {
      ChecksNext(b.state);
      var c := CheckPending(b.state);
      var d := CheckSync(c.state, s.clients[u].group, verdict);
      if d.Next? { assert b.out + c.out + d.out == b.out + (c.out + d.out); }
    }
  }

  lemma SentInOrder(before: seq<Cast>, a: seq<Cast>, b: seq<Cast>, c: seq<Cast>)
    ensures before + a + b + c == before + (a + b + c)
  {
  }

  lemma ChecksNext(s: State)
    ensures CheckEstablish(s).Next? && CheckPending(s).Next?
  {
  }

  lemma FoundMore(m: map<Uuid, Info>, g: Group, before: set<Tag>, found: set<Tag>, rest: set<Uuid>, u: Uuid)
    requires u in rest && rest <= m.Keys
    requires forall t :: t in before <==> exists v :: v in m && v !in rest && m[v].group == g && t in m[v].coll
    requires found == if m[u].group == g then before + m[u].coll.Keys else before
    ensures forall t :: t in found <==> exists v :: v in m && v !in rest - {u} && m[v].group == g && t in m[v].coll
  {
    forall t
      ensures t in found <==> exists v :: v in m && v !in rest - {u} && m[v].group == g && t in m[v].coll
    {
      if t in before {
        var v :| v in m && v !in rest && m[v].group == g && t in m[v].coll;
        assert v !in rest - {u};
      } else if t in found {
        assert u !in rest - {u} && t in m[u].coll;
      }
    }
  }

  lemma FoundAll(s: State, g: Group, found: set<Tag>)
    requires forall t :: t in found <==> exists u :: u in s.clients && s.clients[u].group == g && t in s.clients[u].coll
    ensures found == OngoingTags(s, g)
  {
  }

  // Registration in two parts, and the departure step by step ---------------------------------------

  /** What happens once the first client is entered. */
  function FirstJoins(s: State, u: Uuid): Outcome
    requires u in s.clients
  {
    if u in s.metered then Halt(AlreadyMetered)
    else
      var first := SetInfo(s, u, s.clients[u].(phase := Accepted)).(metered := s.metered + {u});
      var voted := CastVote(first, u, ToAccept);
      if voted.Halt? then voted
      else if !AcceptConsensus(voted.state) then Halt(FirstClient)
      else Stay(OpenP2P(voted.state, true))
  }

  lemma EnrollIs(s: State, addr: Addr, local: bool, group: Group, u: Uuid)
    ensures
      var joined := Join(s, u, Info(Registered, Idle, addr, local, group, map[], false));
      Enroll(s, addr, local, group, u) == if |joined.byAddr| == 1 then FirstJoins(joined, u) else Stay(joined)
  {
    hide Consensus, OpenP2P, CastVote;
  }

  lemma EnrollSilent(s: State, addr: Addr, local: bool, group: Group, u: Uuid)
    ensures var o := Enroll(s, addr, local, group, u); o.Next? ==> o.out == []
  {
  }

  lemma VoteSilent(s: State, u: Uuid, b: Ballot)
    requires u in s.clients
    ensures
      var o := CastVote(s, u, b);
      o.Next? ==> o.out == [] && o.state.strategies == s.strategies && Everyone(o.state) == Everyone(s)
  {
    hide VoteConn, Votes;
    var o := CastVote(s, u, b);
    if o.Next? { assert forall v :: v in s.clients ==> o.state.clients[v].phase == s.clients[v].phase; }
  }

  lemma QueryNext(s: State, u: Uuid)
    requires u in s.clients
    ensures OnQueryPending(s, u).Next?
  {
  }

  function Withdrawn(s: State, b: Ballot, u: Uuid): State { SetVotes(s, b, Votes(s, b) - {u}) }

  function Removed(s: State, u: Uuid): State
    requires u in s.clients
  {
    s.(clients := s.clients - {u}, addrOf := s.addrOf - {u}, byAddr := s.byAddr - {s.clients[u].addr},
       strategies := s.strategies - {u},
       metered := if s.clients[u].phase == Accepted then s.metered - {u} else s.metered)
  }

  lemma OtherVotes(s: State, b: Ballot, c: Ballot, us: set<Uuid>)
    requires b != c
    ensures Votes(SetVotes(s, b, us), c) == Votes(s, c)
  {
  }

  lemma LeaveIs(s: State, u: Uuid)
    requires u in s.clients
    ensures
      var g := s.clients[u].group;
      var s2 := Withdrawn(Withdrawn(Removed(s, u), ToAccept, u), ToEstablish, u);
      var s4 := Withdrawn(Withdrawn(s2, ToOptimize, u), ToEndOptimize, u);
      Leave(s, u) == Withdrawn(Withdrawn(s4, ToSync(g), u), ToEndSync(g), u)
  {
    hide SetVotes, Votes;
    var g, s1 := s.clients[u].group, Removed(s, u);
    OtherVotes(s1, ToAccept, ToEstablish, Votes(s1, ToAccept) - {u});
    var s2 := Withdrawn(Withdrawn(s1, ToAccept, u), ToEstablish, u);
    OtherVotes(s2, ToOptimize, ToEndOptimize, Votes(s2, ToOptimize) - {u});
    var s4 := Withdrawn(Withdrawn(s2, ToOptimize, u), ToEndOptimize, u);
    OtherVotes(s4, ToSync(g), ToEndSync(g), Votes(s4, ToSync(g)) - {u});
  }
}
