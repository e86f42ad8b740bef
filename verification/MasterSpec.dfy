/** The master as a state machine: every packet and every disconnect is one atomic step. */
module MasterSpec {

  type Uuid = nat
  type Addr = nat
  type Group = nat
  type Tag = nat

  datatype Phase = Registered | Accepted

  datatype Conn = Idle | VoteAccept | VoteNoNew | Connecting | ConnectFailed | Waiting
    | VoteOptimize | Optimizing | OptimizeFailed | VoteOptimized
    | VoteSync | Distributing | Requesting | VoteSynced
    | Running

  datatype Coll = VoteInit | Performing | VoteDone

  datatype Info = Info(phase: Phase, conn: Conn, addr: Addr, local: bool, group: Group,
                       coll: map<Tag, Coll>, pending: bool)

  datatype Strategy = EnforcePopular | RxOnly | TxOnly

  /** What a peer can have a standing vote for. */
  datatype Ballot = ToAccept | ToEstablish | ToOptimize | ToEndOptimize | ToSync(group: Group) | ToEndSync(group: Group)

  datatype State = State(
    clients: map<Uuid, Info>,
    byAddr: map<Addr, Uuid>,             // client_uuids
    addrOf: map<Uuid, Addr>,             // uuid_clients
    votes: map<Ballot, set<Uuid>>,
    strategies: map<Uuid, Strategy>,
    aborts: set<(Group, Tag)>,           // operations marked as aborted
    metered: set<Uuid>,                  // peers of the bandwidth store
    nextSeq: nat,
    dropped: bool,                       // a peer left during p2p establishment
    issued: set<Uuid>)                   // every id ever handed out

  datatype Body = Response(accepted: bool) | PeersInfo(registered: bool) | Established(success: bool) | Pending(peers: bool)
    | OptimizeStart | OptimizeEnd | SyncStart | SyncEnd
    | Commence(tag: Tag, nr: nat) | Abort(tag: Tag, aborted: bool) | Completed(tag: Tag) | Kick

  /** One packet to each of several peers. */
  datatype Cast = Cast(to: set<Uuid>, body: Body)

  /** The LOG(BUG) a run ends with. */
  datatype Bug = DoubleVote | DoubleStrategy | CountMismatch | AlreadyMetered | FirstClient
    | EndP2P | StartOptimize | EndOptimize | StartSync | EndSync | StartColl | EndColl
    | StoreBandwidth | RingOptimal | SyncData

  datatype Outcome = Halt(bug: Bug) | Next(state: State, out: seq<Cast>)

  /** How the shared-state election of a group ends; see SharedState. */
  datatype SyncVerdict = NoMask | Mismatch(peer: Uuid) | Assign(distributors: set<Uuid>) | Broken

  /** What becomes of a peer that could not connect: kicked, or a ring around it was found and stored. */
  datatype FailVerdict = KickPeer | NewRing | StillOptimal

  datatype Event =
    | Register(addr: Addr, local: bool, group: Group, id: Uuid)
    | RequestP2P(addr: Addr, accept: bool)
    | ReportP2P(addr: Addr, success: bool, fail: FailVerdict)
    | QueryPending(addr: Addr)
    | RequestOptimize(addr: Addr)
    | ReportBandwidth(addr: Addr, to: Uuid)
    | ReportOptimized(addr: Addr)
    | SyncState(addr: Addr, legal: bool, strategy: Strategy, verdict: SyncVerdict)
    | ReportSynced(addr: Addr)
    | Initiate(addr: Addr, tag: Tag)
    | Complete(addr: Addr, tag: Tag, aborted: bool)
    | Disconnect(addr: Addr, verdict: SyncVerdict, tags: seq<Tag>)

  // Queries -----------------------------------------------------------------------------------------

  function Votes(s: State, b: Ballot): set<Uuid> {
    if b in s.votes then s.votes[b] else {}
  }

  function Everyone(s: State): set<Uuid> {
    set u | u in s.clients && s.clients[u].phase == Accepted
  }

  function Members(s: State, g: Group): set<Uuid> {
    set u | u in s.clients && s.clients[u].phase == Accepted && s.clients[u].group == g
  }

  function In(s: State, g: Group, c: Conn): set<Uuid> {
    set u | u in s.clients && s.clients[u].group == g && s.clients[u].conn == c
  }

  predicate InColl(i: Info, tag: Tag, c: Coll) {
    tag in i.coll && i.coll[tag] == c
  }

  /** Every accepted peer is in state `c`. */
  predicate Unanimous(s: State, c: Conn) {
    forall u :: u in s.clients && s.clients[u].phase == Accepted ==> s.clients[u].conn == c
  }

  function Counted(s: State, c: Conn): set<Uuid> {
    set u | u in s.clients && (s.clients[u].conn == c || s.clients[u].phase == Registered)
  }

  /** The test of the consensus functions: registered peers are counted as if they had voted. */
  predicate Consensus(s: State, c: Conn) {
    |Counted(s, c)| == |s.byAddr|
  }

  predicate AllInColl(s: State, g: Group, tag: Tag, c: Coll) {
    forall u :: u in Members(s, g) ==> InColl(s.clients[u], tag, c)
  }

  predicate Reported(c: Conn) { c == Waiting || c == ConnectFailed }

  // Updates -----------------------------------------------------------------------------------------

  function Stay(s: State): Outcome { Next(s, []) }

  function KickOut(s: State, u: Uuid): Outcome { Next(s, [Cast({u}, Kick)]) }

  function SetInfo(s: State, u: Uuid, i: Info): State {
    s.(clients := s.clients[u := i])
  }

  function SetConn(s: State, u: Uuid, c: Conn): State
    requires u in s.clients
  {
    SetInfo(s, u, s.clients[u].(conn := c))
  }

  function SetVotes(s: State, b: Ballot, us: set<Uuid>): State {
    s.(votes := s.votes[b := us])
  }

  /** The state `u` is in while its vote stands. */
  function VoteConn(b: Ballot): Conn {
    match b
    case ToAccept => VoteAccept
    case ToEstablish => VoteNoNew
    case ToOptimize => VoteOptimize
    case ToEndOptimize => VoteOptimized
    case ToSync(_) => VoteSync
    case ToEndSync(_) => VoteSynced
  }

  /** A vote that was found to be allowed. */
  function CastVote(s: State, u: Uuid, b: Ballot): Outcome
    requires u in s.clients
  {
    if u in Votes(s, b) then Halt(DoubleVote)
    else Stay(SetVotes(SetConn(s, u, VoteConn(b)), b, Votes(s, b) + {u}))
  }

  function Mapped(s: State, f: Info -> Info): State {
    s.(clients := map u | u in s.clients :: f(s.clients[u]))
  }

  // Registration ------------------------------------------------------------------------------------

  predicate Mixes(s: State, local: bool) {
    exists u :: u in s.clients && s.clients[u].local != local
  }

  function Join(s: State, u: Uuid, i: Info): State {
    s.(clients := s.clients[u := i], byAddr := s.byAddr[i.addr := u], addrOf := s.addrOf[u := i.addr],
       issued := s.issued + {u})
  }

  /** A new peer; the first one is accepted at once and opens the p2p phase by itself. */
  function Enroll(s: State, addr: Addr, local: bool, group: Group, u: Uuid): Outcome {
    var i := Info(Registered, Idle, addr, local, group, map[], false);
    var joined := Join(s, u, i);
    if |joined.byAddr| != 1 then Stay(joined)
    else if u in joined.metered then Halt(AlreadyMetered)
    else
      var first := SetInfo(joined, u, i.(phase := Accepted)).(metered := joined.metered + {u});
      var voted := CastVote(first, u, ToAccept);
      if voted.Halt? then voted
      else if !AcceptConsensus(voted.state) then Halt(FirstClient)
      else Stay(OpenP2P(voted.state, true))
  }

  function OnRegister(s: State, addr: Addr, local: bool, group: Group, u: Uuid): Outcome {
    if addr in s.byAddr then KickOut(s, s.byAddr[addr])
    else
      var joined := if Mixes(s, local) then Stay(s) else Enroll(s, addr, local, group, u);
      if joined.Halt? then joined
      else
        Before(if |joined.state.byAddr| == 1
               then Next(joined.state, [Cast(InConn(joined.state, Connecting), PeersInfo(true))])
               else CheckEstablish(joined.state),
               [Cast({u}, Response(!Mixes(s, local)))])
  }

  function Leave(s: State, u: Uuid): State
    requires u in s.clients
  {
    var g := s.clients[u].group;
    var s1 := s.(clients := s.clients - {u}, addrOf := s.addrOf - {u}, byAddr := s.byAddr - {s.clients[u].addr},
                 strategies := s.strategies - {u},
                 metered := if s.clients[u].phase == Accepted then s.metered - {u} else s.metered);
    var s2 := SetVotes(SetVotes(s1, ToAccept, Votes(s1, ToAccept) - {u}), ToEstablish, Votes(s1, ToEstablish) - {u});
    var s3 := SetVotes(SetVotes(s2, ToOptimize, Votes(s2, ToOptimize) - {u}), ToEndOptimize, Votes(s2, ToEndOptimize) - {u});
    SetVotes(SetVotes(s3, ToSync(g), Votes(s3, ToSync(g)) - {u}), ToEndSync(g), Votes(s3, ToEndSync(g)) - {u})
  }

  // Establishing p2p connections --------------------------------------------------------------------

  predicate AcceptConsensus(s: State) { Consensus(s, VoteAccept) }

  predicate EstablishConsensus(s: State) { Consensus(s, VoteNoNew) }

  function OpenP2P(s: State, accept: bool): State {
    if accept then SetVotes(Mapped(s, (i: Info) => i.(conn := Connecting)), ToAccept, {})
    else SetVotes(Mapped(s, (i: Info) => if i.phase == Accepted then i.(conn := Connecting) else i), ToEstablish, {})
  }

  function InConn(s: State, c: Conn): set<Uuid> {
    set u | u in s.clients && s.clients[u].conn == c
  }

  function CheckEstablish(s: State): Outcome {
    var first := if AcceptConsensus(s)
                 then var o := OpenP2P(s, true).(dropped := false); Next(o, [Cast(InConn(o, Connecting), PeersInfo(true))])
                 else Stay(s);
    if EstablishConsensus(first.state)
    then var o := OpenP2P(first.state, false).(dropped := false);
         Next(o, first.out + [Cast(InConn(o, Connecting), PeersInfo(false))])
    else first
  }

  function OnRequestP2P(s: State, u: Uuid, accept: bool): Outcome
    requires u in s.clients
  {
    var i := s.clients[u];
    if i.phase != Accepted || (i.conn != Idle && i.conn != ConnectFailed) then KickOut(s, u)
    else
      var voted := CastVote(s, u, if accept then ToAccept else ToEstablish);
      if voted.Halt? then voted else CheckEstablish(voted.state)
  }

  /** Everybody in the phase has reported, and somebody is in it. */
  predicate P2PConsensus(s: State) {
    && (exists u :: u in s.clients && Reported(s.clients[u].conn))
    && (forall u :: u in s.clients ==> s.clients[u].conn != Connecting)
  }

  predicate LeftOut(i: Info) { i.phase == Registered && i.conn == Idle }

  function Participants(s: State): set<Uuid> { set u | u in s.clients && !LeftOut(s.clients[u]) }

  function EndedInfo(i: Info, failure: bool): Info {
    if i.conn == Waiting then i.(conn := if failure then ConnectFailed else Idle, phase := Accepted) else i
  }

  /** transitionToP2PConnectionsEstablishedPhase succeeds. */
  predicate CanEndP2P(s: State, failure: bool) {
    forall u :: u in s.clients && !LeftOut(s.clients[u]) ==>
      s.clients[u].conn == Waiting || (failure && s.clients[u].conn == ConnectFailed)
  }

  function Newcomers(s: State): set<Uuid> {
    set u | u in s.clients && s.clients[u].conn == Waiting && s.clients[u].phase == Registered
  }

  function CloseP2P(s: State, failure: bool): State {
    Mapped(s, (i: Info) => EndedInfo(i, failure)).(metered := s.metered + Newcomers(s), dropped := false)
  }

  function CheckP2P(s: State): Outcome {
    if !P2PConsensus(s) then Stay(s)
    else
      var failure := s.dropped || exists u :: u in s.clients && s.clients[u].conn == ConnectFailed;
      if !CanEndP2P(s, failure) then Halt(EndP2P)
      else if Newcomers(s) !! s.metered then
        var ended := CloseP2P(s, failure);
        Next(ended, [Cast(Participants(ended), Established(!failure))])
      else Halt(AlreadyMetered)
  }

  function OnReportP2P(s: State, u: Uuid, success: bool, fail: FailVerdict): Outcome
    requires u in s.clients
  {
    if s.clients[u].conn != Connecting then KickOut(s, u)
    else if success then CheckP2P(SetConn(s, u, Waiting))
    else match fail
      case KickPeer => KickOut(s, u)
      case StillOptimal => Halt(RingOptimal)
      case NewRing => CheckP2P(SetConn(s, u, ConnectFailed))
  }

  // Pending peers -----------------------------------------------------------------------------------

  function ResetPendingAll(s: State): State {
    Mapped(s, (i: Info) => if i.phase == Accepted then i.(pending := false) else i)
  }

  predicate PendingConsensus(s: State) {
    s.clients != map[] && forall u :: u in s.clients && s.clients[u].phase == Accepted ==> s.clients[u].pending
  }

  function CheckPending(s: State): Outcome {
    if PendingConsensus(s)
    then Next(ResetPendingAll(s),
              [Cast(Everyone(s), Pending(exists u :: u in s.clients && s.clients[u].phase == Registered))])
    else Stay(s)
  }

  function OnQueryPending(s: State, u: Uuid): Outcome
    requires u in s.clients
  {
    var i := s.clients[u];
    if i.phase != Accepted || i.pending then KickOut(s, u)
    else CheckPending(SetInfo(s, u, i.(pending := true)))
  }

  // Topology optimization ---------------------------------------------------------------------------

  function AllTo(s: State, c: Conn): State {
    Mapped(s, (i: Info) => if i.phase == Accepted then i.(conn := c) else i)
  }

  function OnRequestOptimize(s: State, u: Uuid): Outcome
    requires u in s.clients
  {
    var i := s.clients[u];
    if i.phase != Accepted || (i.conn != Idle && i.conn != OptimizeFailed) then KickOut(s, u)
    else
      var voted := CastVote(s, u, ToOptimize);
      if voted.Halt? || !Consensus(voted.state, VoteOptimize) then voted
      else if !Unanimous(voted.state, VoteOptimize) then Halt(StartOptimize)
      else Next(SetVotes(AllTo(voted.state, Optimizing), ToOptimize, {}), [Cast(Everyone(s), OptimizeStart)])
  }

  function OnReportOptimized(s: State, u: Uuid): Outcome
    requires u in s.clients
  {
    var i := s.clients[u];
    if i.phase != Accepted || i.conn != Optimizing then KickOut(s, u)
    else
      var voted := CastVote(s, u, ToEndOptimize);
      if voted.Halt? || !Consensus(voted.state, VoteOptimized) then voted
      else if !Unanimous(voted.state, VoteOptimized) then Halt(EndOptimize)
      else Next(SetVotes(AllTo(voted.state, Idle), ToEndOptimize, {}), [Cast(Everyone(s), OptimizeEnd)])
  }

  /** A measurement between two clients of one group is stored; both must be known to the bandwidth store. */
  function OnReportBandwidth(s: State, u: Uuid, to: Uuid): Outcome
    requires u in s.clients
  {
    if to !in s.clients || s.clients[to].group != s.clients[u].group then Stay(s)
    else if u in s.metered && to in s.metered then Stay(s)
    else Halt(StoreBandwidth)
  }

  // Shared state ------------------------------------------------------------------------------------

  predicate InRound(c: Conn) { c == VoteSync || c == Distributing || c == Requesting || c == VoteSynced }

  function Assigned(s: State, g: Group, distributors: set<Uuid>): State {
    s.(clients := map u | u in s.clients ::
         if s.clients[u].group == g && s.clients[u].conn == VoteSync
         then s.clients[u].(conn := if u in distributors then Distributing else Requesting)
         else s.clients[u])
  }

  function CheckSync(s: State, g: Group, verdict: SyncVerdict): Outcome {
    if Members(s, g) * In(s, g, VoteSync) == {} then Stay(s)
    else if |In(s, g, VoteSync)| != |Votes(s, ToSync(g))| then Halt(CountMismatch)
    else if |In(s, g, VoteSync)| != |Members(s, g)| then Stay(s)
    else match verdict
      case NoMask => Stay(s)
      case Broken => Halt(SyncData)
      case Mismatch(peer) => KickOut(s, peer)
      case Assign(distributors) =>
        if Members(s, g) <= In(s, g, VoteSync)
        then Next(SetVotes(Assigned(s, g, distributors), ToSync(g), {}), [Cast(Members(s, g), SyncStart)])
        else Halt(Bug.StartSync)
  }

  function OnSyncState(s: State, u: Uuid, legal: bool, strategy: Strategy, verdict: SyncVerdict): Outcome
    requires u in s.clients
  {
    var i := s.clients[u];
    if !legal || i.phase != Accepted || i.conn != Idle then KickOut(s, u)
    else
      var voted := CastVote(s, u, ToSync(i.group));
      if voted.Halt? then voted
      else if u in s.strategies then Halt(DoubleStrategy)
      else CheckSync(voted.state.(strategies := s.strategies[u := strategy]), i.group, verdict)
  }

  function EndRound(s: State, g: Group): State {
    var idle := Mapped(s, (i: Info) => if i.phase == Accepted && i.group == g then i.(conn := Idle) else i);
    SetVotes(idle, ToEndSync(g), {}).(strategies := s.strategies - Members(s, g))
  }

  function CheckSynced(s: State, g: Group): Outcome {
    if |In(s, g, VoteSynced)| != |Votes(s, ToEndSync(g))| then Halt(CountMismatch)
    else if |In(s, g, VoteSynced)| != |Members(s, g)| then Stay(s)
    else if Members(s, g) <= In(s, g, VoteSynced)
    then Next(EndRound(s, g), [Cast(Members(s, g), Body.SyncEnd)])
    else Halt(Bug.EndSync)
  }

  function OnReportSynced(s: State, u: Uuid): Outcome
    requires u in s.clients
  {
    var i := s.clients[u];
    if i.phase != Accepted || (i.conn != Distributing && i.conn != Requesting) then KickOut(s, u)
    else
      var voted := CastVote(s, u, ToEndSync(i.group));
      if voted.Halt? then voted else CheckSynced(voted.state, i.group)
  }

  // Collective operations ---------------------------------------------------------------------------

  /** Peers an abort packet for group `g` is sent to. */
  function Runners(s: State, g: Group): set<Uuid> {
    set u | u in Members(s, g) && s.clients[u].conn == Running
  }

  function Commenced(s: State, g: Group, tag: Tag): State {
    s.(clients := map u | u in s.clients ::
         if u in Members(s, g) then s.clients[u].(coll := s.clients[u].coll[tag := Performing]) else s.clients[u],
       nextSeq := s.nextSeq + 1)
  }

  function CheckInitiate(s: State, g: Group, tag: Tag): Outcome {
    if !AllInColl(s, g, tag, VoteInit) then Stay(s)
    else if Members(s, g) <= Runners(s, g)
    then Next(Commenced(s, g, tag), [Cast(Members(s, g), Commence(tag, s.nextSeq))])
    else Halt(StartColl)
  }

  function WithoutTag(i: Info, tag: Tag): Info {
    var rest := i.coll - {tag};
    i.(coll := rest, conn := if rest == map[] then Idle else i.conn)
  }

  function Concluded(s: State, g: Group, tag: Tag): State {
    s.(clients := map u | u in s.clients :: if u in Members(s, g) then WithoutTag(s.clients[u], tag) else s.clients[u],
       aborts := s.aborts - {(g, tag)})
  }

  function CheckComplete(s: State, g: Group, tag: Tag): Outcome {
    if !AllInColl(s, g, tag, VoteDone) then Stay(s)
    else if !(Members(s, g) <= Runners(s, g)) then Halt(EndColl)
    else
      Next(Concluded(s, g, tag),
           (if (g, tag) in s.aborts then [] else [Cast(Runners(s, g), Abort(tag, false))])
           + [Cast(Members(s, g), Completed(tag))])
  }

  /** The first to notice that an operation failed marks it and tells everybody. */
  function MarkAborted(s: State, g: Group, tag: Tag): Outcome {
    if (g, tag) in s.aborts then Stay(s)
    else Next(s.(aborts := s.aborts + {(g, tag)}), [Cast(Runners(s, g), Abort(tag, true))])
  }

  function Before(o: Outcome, out: seq<Cast>): Outcome {
    if o.Halt? then o else o.(out := out + o.out)
  }

  function OnInitiate(s: State, u: Uuid, tag: Tag): Outcome
    requires u in s.clients
  {
    var i := s.clients[u];
    if i.phase != Accepted || (i.conn != Idle && i.conn != Running) || tag in i.coll then KickOut(s, u)
    else CheckInitiate(SetInfo(s, u, i.(conn := Running, coll := i.coll[tag := VoteInit])), i.group, tag)
  }

  function OnComplete(s: State, u: Uuid, tag: Tag, aborted: bool): Outcome
    requires u in s.clients
  {
    var i := s.clients[u];
    if i.phase != Accepted || !InColl(i, tag, Performing) then KickOut(s, u)
    else
      var voted := SetInfo(s, u, i.(coll := i.coll[tag := VoteDone]));
      var marked := if aborted then MarkAborted(voted, i.group, tag) else Stay(voted);
      Before(CheckComplete(marked.state, i.group, tag), marked.out)
  }

  predicate InProgress(s: State, g: Group, tag: Tag) {
    exists u :: u in s.clients && s.clients[u].group == g && InColl(s.clients[u], tag, Performing)
  }

  /** After a peer of group `g` left: its operation `tag` may start, may end, and is aborted if it runs. */
  function Recheck(s: State, g: Group, tag: Tag): Outcome {
    var a := CheckInitiate(s, g, tag);
    if a.Halt? then a
    else
      var b := CheckComplete(a.state, g, tag);
      if b.Halt? then b
      else
        var c := if InProgress(b.state, g, tag) then MarkAborted(b.state, g, tag) else Stay(b.state);
        Before(c, a.out + b.out)
  }

  function RecheckAll(s: State, g: Group, tags: seq<Tag>): Outcome
    decreases |tags|
  {
    if tags == [] then Stay(s)
    else
      var a := Recheck(s, g, tags[0]);
      if a.Halt? then a else Before(RecheckAll(a.state, g, tags[1..]), a.out)
  }

  function OngoingTags(s: State, g: Group): set<Tag> {
    set u, tag | u in s.clients && s.clients[u].group == g && tag in s.clients[u].coll :: tag
  }

  /** A departure, up to the point where the collective operations are looked at. */
  function Departed(s: State, u: Uuid, verdict: SyncVerdict): Outcome
    requires u in s.clients
  {
    var g := s.clients[u].group;
    var a := CheckEstablish(Leave(s, u));
    var b := CheckP2P(a.state.(dropped := true));
    if b.Halt? then b
    else
      var c := CheckPending(b.state);
      var d := CheckSync(c.state, g, verdict);
      if d.Halt? then d
      else Before(CheckSynced(d.state, g), a.out + b.out + c.out + d.out)
  }

  function OnDisconnect(s: State, u: Uuid, verdict: SyncVerdict, tags: seq<Tag>): Outcome
    requires u in s.clients
  {
    var a := Departed(s, u, verdict);
    if a.Halt? then a else Before(RecheckAll(a.state, s.clients[u].group, tags), a.out)
  }

  // Steps -------------------------------------------------------------------------------------------

  /** Ids are never handed out twice, and the loop over ongoing operations visits each of them once. */
  ghost predicate Legal(s: State, e: Event) {
    match e
    case Register(_, _, _, id) => id !in s.issued
    case Disconnect(addr, verdict, tags) =>
      addr in s.byAddr && s.byAddr[addr] in s.clients ==>
        var u := s.byAddr[addr];
        var a := Departed(s, u, verdict);
        a.Next? ==>
          && (set t | t in tags) == OngoingTags(a.state, s.clients[u].group)
          && forall i, j :: 0 <= i < j < |tags| ==> tags[i] != tags[j]
    case _ => true
  }

  /** Packets of unregistered senders only get the sender kicked. */
  function Step(s: State, e: Event): Outcome {
    if e.Register? then OnRegister(s, e.addr, e.local, e.group, e.id)
    else if e.addr !in s.byAddr || s.byAddr[e.addr] !in s.clients then Stay(s)
    else
      var u := s.byAddr[e.addr];
      match e
      case RequestP2P(_, accept) => OnRequestP2P(s, u, accept)
      case ReportP2P(_, success, fail) => OnReportP2P(s, u, success, fail)
      case QueryPending(_) => OnQueryPending(s, u)
      case RequestOptimize(_) => OnRequestOptimize(s, u)
      case ReportBandwidth(_, to) => OnReportBandwidth(s, u, to)
      case ReportOptimized(_) => OnReportOptimized(s, u)
      case SyncState(_, legal, strategy, verdict) => OnSyncState(s, u, legal, strategy, verdict)
      case ReportSynced(_) => OnReportSynced(s, u)
      case Initiate(_, tag) => OnInitiate(s, u, tag)
      case Complete(_, tag, aborted) => OnComplete(s, u, tag, aborted)
      case Disconnect(_, verdict, tags) => OnDisconnect(s, u, verdict, tags)
  }

  function Start(): State {
    State(map[], map[], map[], map[], map[], {}, {}, 0, false, {})
  }
}
