/** What the master's steps do to one collective operation: everything that matters of the state and of the
    packets sent is a function of the shares the members of the group have in the operation. */
module MasterTags {
  import opened MasterSpec
  import opened MasterInv

  /** A member's share in an operation. */
  datatype Part = None | Some(c: Coll)

  /** The operation `tag` of group `g`: the shares of the accepted peers, and whether it is marked as aborted. */
  datatype View = View(parts: map<Uuid, Part>, flag: bool)

  function PartOf(i: Info, tag: Tag): Part {
    if tag in i.coll then Some(i.coll[tag]) else None
  }

  function ViewOf(s: State, g: Group, tag: Tag): View {
    View(map u | u in Members(s, g) :: PartOf(s.clients[u], tag), (g, tag) in s.aborts)
  }

  predicate About(b: Body, tag: Tag) {
    (b.Commence? || b.Abort? || b.Completed?) && b.tag == tag
  }

  /** The packets about `tag` that `u` gets, in order. */
  function Hears(out: seq<Cast>, u: Uuid, tag: Tag): seq<Body> {
    if out == [] then []
    else (if u in out[0].to && About(out[0].body, tag) then [out[0].body] else []) + Hears(out[1..], u, tag)
  }

  lemma {:induction false} HearsConcat(a: seq<Cast>, b: seq<Cast>, u: Uuid, tag: Tag)
    ensures Hears(a + b, u, tag) == Hears(a, u, tag) + Hears(b, u, tag)
    decreases |a|
  {
    if a == [] {
      assert a + b == b;
    } else {
      assert (a + b)[1..] == a[1..] + b;
      HearsConcat(a[1..], b, u, tag);
    }
  }

  // Abstract steps ----------------------------------------------------------------------------------

  predicate All(v: View, p: Part) { forall u :: u in v.parts ==> v.parts[u] == p }

  predicate Any(v: View, p: Part) { exists u :: u in v.parts && v.parts[u] == p }

  function SetAll(v: View, p: Part): View { v.(parts := map u | u in v.parts :: p) }

  datatype Change = Change(view: View, heard: seq<Body>)

  /** The operation starts when all members voted for it. */
  function Begin(v: View, tag: Tag, n: nat): Change {
    if All(v, Some(VoteInit)) then Change(SetAll(v, Some(Performing)), [Commence(tag, n)]) else Change(v, [])
  }

  /** It ends when all members are done; members that were not told of an abort are told that there was none. */
  function Finish(v: View, tag: Tag): Change {
    if All(v, Some(VoteDone))
    then Change(SetAll(v, None).(flag := false), (if v.flag then [] else [Abort(tag, false)]) + [Completed(tag)])
    else Change(v, [])
  }

  function Mark(v: View, tag: Tag): Change {
    if v.flag then Change(v, []) else Change(v.(flag := true), [Abort(tag, true)])
  }

  function AfterInitiate(v: View, u: Uuid, tag: Tag, n: nat): Change {
    Begin(v.(parts := v.parts[u := Some(VoteInit)]), tag, n)
  }

  function AfterComplete(v: View, u: Uuid, tag: Tag, aborted: bool): Change {
    var voted := v.(parts := v.parts[u := Some(VoteDone)]);
    var marked := if aborted then Mark(voted, tag) else Change(voted, []);
    var done := Finish(marked.view, tag);
    Change(done.view, marked.heard + done.heard)
  }

  /** A member left: the operation may start or end without it, and is aborted if it runs. */
  function AfterRecheck(v: View, tag: Tag, n: nat): Change {
    var a := Begin(v, tag, n);
    var b := Finish(a.view, tag);
    var c := if Any(b.view, Some(Performing)) then Mark(b.view, tag) else Change(b.view, []);
    Change(c.view, a.heard + b.heard + c.heard)
  }

  function AfterLeave(v: View, u: Uuid, tag: Tag, n: nat): Change {
    var rest := v.(parts := v.parts - {u});
    if All(rest, None) then Change(rest, []) else AfterRecheck(rest, tag, n)
  }

  // Concrete checks of this operation ---------------------------------------------------------------

  lemma MembersPart(s: State, g: Group, tag: Tag, c: Coll)
    ensures AllInColl(s, g, tag, c) <==> All(ViewOf(s, g, tag), Some(c))
  {
    forall u | u in Members(s, g)
      ensures InColl(s.clients[u], tag, c) <==> ViewOf(s, g, tag).parts[u] == Some(c)
    {
    }
  }

  lemma HearsOne(c: Cast, u: Uuid, tag: Tag)
    ensures Hears([c], u, tag) == if u in c.to && About(c.body, tag) then [c.body] else []
  {
    assert [c][1..] == [];
  }

  /** Clients of the group keep their identity while their shares change. */
  ghost predicate Reshaped(s: State, s': State, g: Group, tag: Tag, v: View) {
    Members(s', g) == Members(s, g) && ViewOf(s', g, tag) == v
  }

  lemma CommencedView(s: State, g: Group, tag: Tag)
    ensures Reshaped(s, Commenced(s, g, tag), g, tag, SetAll(ViewOf(s, g, tag), Some(Performing)))
  {
    var s' := Commenced(s, g, tag);
    assert Members(s', g) == Members(s, g);
    assert ViewOf(s', g, tag).parts == SetAll(ViewOf(s, g, tag), Some(Performing)).parts;
  }

  lemma ConcludedView(s: State, g: Group, tag: Tag)
    ensures Reshaped(s, Concluded(s, g, tag), g, tag, SetAll(ViewOf(s, g, tag), None).(flag := false))
  {
    var s' := Concluded(s, g, tag);
    assert Members(s', g) == Members(s, g);
    assert ViewOf(s', g, tag).parts == SetAll(ViewOf(s, g, tag), None).parts;
  }

  lemma MarkedView(s: State, g: Group, tag: Tag)
    ensures Reshaped(s, s.(aborts := s.aborts + {(g, tag)}), g, tag, ViewOf(s, g, tag).(flag := true))
  {
    var s' := s.(aborts := s.aborts + {(g, tag)});
    assert Members(s', g) == Members(s, g);
    assert ViewOf(s', g, tag).parts == ViewOf(s, g, tag).parts;
  }

  lemma InitiateView(s: State, g: Group, tag: Tag)
    requires Inv(s)
    ensures
      var o := CheckInitiate(s, g, tag);
      var c := Begin(ViewOf(s, g, tag), tag, s.nextSeq);
      && o.Next? && Reshaped(s, o.state, g, tag, c.view)
      && s.nextSeq <= o.state.nextSeq && (c.heard != [] ==> s.nextSeq < o.state.nextSeq)
      && (forall u :: u in Members(s, g) ==> Hears(o.out, u, tag) == c.heard)
  {
    hide Inv, Hears, ViewOf, SetAll, AllInColl, All, Members, Runners;
    MembersPart(s, g, tag, VoteInit);
    CheckInitiateInv(s, g, tag);
    CommencedView(s, g, tag);
    forall u ensures Hears([], u, tag) == [] { HearsNone(u, tag); }
    forall u ensures Hears([Cast(Members(s, g), Commence(tag, s.nextSeq))], u, tag)
      == if u in Members(s, g) then [Commence(tag, s.nextSeq)] else []
    {
      HearsOne(Cast(Members(s, g), Commence(tag, s.nextSeq)), u, tag);
    }
  }

  lemma HearsNone(u: Uuid, tag: Tag)
    ensures Hears([], u, tag) == []
  {
  }

  lemma HearsEnd(s: State, g: Group, tag: Tag, u: Uuid, flag: bool)
    requires u in Members(s, g) && Runners(s, g) == Members(s, g)
    ensures Hears((if flag then [] else [Cast(Runners(s, g), Abort(tag, false))]) + [Cast(Members(s, g), Completed(tag))], u, tag)
         == (if flag then [] else [Abort(tag, false)]) + [Completed(tag)]
  {
    hide Members, Runners, Hears;
    var a, b := Cast(Runners(s, g), Abort(tag, false)), Cast(Members(s, g), Completed(tag));
    HearsOne(a, u, tag);
    HearsOne(b, u, tag);
    HearsNone(u, tag);
    HearsConcat(if flag then [] else [a], [b], u, tag);
  }

  lemma CompleteView(s: State, g: Group, tag: Tag)
    requires Inv(s)
    ensures
      var o := CheckComplete(s, g, tag);
      var c := Finish(ViewOf(s, g, tag), tag);
      && o.Next? && Reshaped(s, o.state, g, tag, c.view) && o.state.nextSeq == s.nextSeq
      && (forall u :: u in Members(s, g) ==> Hears(o.out, u, tag) == c.heard)
  {
    hide Inv, Hears, SetAll, AllInColl, All, Members, Runners;
    MembersPart(s, g, tag, VoteDone);
    CheckCompleteInv(s, g, tag);
    ConcludedView(s, g, tag);
    forall u ensures Hears([], u, tag) == [] { HearsNone(u, tag); }
    if AllInColl(s, g, tag, VoteDone) {
      MembersRunning(s, g, tag, VoteDone);
      forall u | u in Members(s, g)
        ensures Hears(CheckComplete(s, g, tag).out, u, tag) == Finish(ViewOf(s, g, tag), tag).heard
      {
        HearsEnd(s, g, tag, u, (g, tag) in s.aborts);
      }
    }
  }

  lemma MembersRunning(s: State, g: Group, tag: Tag, c: Coll)
    requires Inv(s) && AllInColl(s, g, tag, c)
    ensures Runners(s, g) == Members(s, g)
  {
    MembersRun(s, g, tag, c);
  }

  /** Once one member performs, all are in the operation, so an abort packet reaches all of them. */
  lemma ActiveRunners(s: State, g: Group, tag: Tag, u: Uuid)
    requires Inv(s) && u in Members(s, g) && Active(s.clients[u], tag)
    ensures Runners(s, g) == Members(s, g)
  {
    hide VotesOk, StrategiesOk, MeteredOk, Addresses;
    forall v | v in Members(s, g)
      ensures s.clients[v].conn == Running
    {
      assert PairOk(s.clients[u], s.clients[v]) && ClientOk(s.clients[v]);
      assert Active(s.clients[v], tag);
    }
  }

  lemma MarkView(s: State, g: Group, tag: Tag, u: Uuid)
    requires Inv(s) && u in Members(s, g) && Active(s.clients[u], tag)
    ensures
      var o := MarkAborted(s, g, tag);
      var c := Mark(ViewOf(s, g, tag), tag);
      && o.Next? && Reshaped(s, o.state, g, tag, c.view) && o.state.nextSeq == s.nextSeq
      && (forall v :: v in Members(s, g) ==> Hears(o.out, v, tag) == c.heard)
  {
    hide Inv, Hears, Members, Runners;
    ActiveRunners(s, g, tag, u);
    MarkedView(s, g, tag);
    forall v ensures Hears([], v, tag) == [] { HearsNone(v, tag); }
    forall v | v in Members(s, g)
      ensures Hears([Cast(Runners(s, g), Abort(tag, true))], v, tag) == [Abort(tag, true)]
    {
      HearsOne(Cast(Runners(s, g), Abort(tag, true)), v, tag);
    }
  }

  /** Somebody performs the operation exactly when an accepted member does. */
  lemma InProgressAny(s: State, g: Group, tag: Tag)
    requires Inv(s)
    ensures InProgress(s, g, tag) <==> Any(ViewOf(s, g, tag), Some(Performing))
  {
    hide PairOk, VotesOk, StrategiesOk, MeteredOk, Addresses;
    if InProgress(s, g, tag) {
      var u :| u in s.clients && s.clients[u].group == g && InColl(s.clients[u], tag, Performing);
      assert ClientOk(s.clients[u]);
      assert u in Members(s, g) && ViewOf(s, g, tag).parts[u] == Some(Performing);
    }
    if Any(ViewOf(s, g, tag), Some(Performing)) {
      var u :| u in ViewOf(s, g, tag).parts && ViewOf(s, g, tag).parts[u] == Some(Performing);
      assert u in Members(s, g);
    }
  }

  lemma PerformerActive(s: State, g: Group, tag: Tag) returns (u: Uuid)
    requires Any(ViewOf(s, g, tag), Some(Performing))
    ensures u in Members(s, g) && Active(s.clients[u], tag)
  {
    u :| u in ViewOf(s, g, tag).parts && ViewOf(s, g, tag).parts[u] == Some(Performing);
  }

  ghost predicate Told(s: State, g: Group, out: seq<Cast>, tag: Tag, heard: seq<Body>) {
    forall u :: u in Members(s, g) ==> Hears(out, u, tag) == heard
  }

  lemma TellMore(s: State, g: Group, a: seq<Cast>, b: seq<Cast>, tag: Tag, x: seq<Body>, y: seq<Body>)
    requires Told(s, g, a, tag, x) && Told(s, g, b, tag, y)
    ensures Told(s, g, a + b, tag, x + y)
  {
    forall u | u in Members(s, g)
      ensures Hears(a + b, u, tag) == x + y
    {
      HearsConcat(a, b, u, tag);
    }
  }

  lemma RecheckView(s: State, g: Group, tag: Tag)
    requires Inv(s)
    ensures
      var o := Recheck(s, g, tag);
      var c := AfterRecheck(ViewOf(s, g, tag), tag, s.nextSeq);
      && o.Next? && Reshaped(s, o.state, g, tag, c.view) && Told(s, g, o.out, tag, c.heard)
      && s.nextSeq <= o.state.nextSeq && (Begin(ViewOf(s, g, tag), tag, s.nextSeq).heard != [] ==> s.nextSeq < o.state.nextSeq)
  {
    hide Inv, CheckInitiate, CheckComplete, MarkAborted, InProgress, ViewOf, Members, Hears, Any, Begin, Finish, Mark;
    var v := ViewOf(s, g, tag);
    InitiateView(s, g, tag);
    CheckInitiateInv(s, g, tag);
    var a := CheckInitiate(s, g, tag);
    CompleteView(a.state, g, tag);
    CheckCompleteInv(a.state, g, tag);
    var b := CheckComplete(a.state, g, tag);
    InProgressAny(b.state, g, tag);
    var x, y := Begin(v, tag, s.nextSeq), Finish(ViewOf(a.state, g, tag), tag);
    TellMore(s, g, a.out, b.out, tag, x.heard, y.heard);
    if InProgress(b.state, g, tag) {
      var u := PerformerActive(b.state, g, tag);
      MarkView(b.state, g, tag, u);
      var c := MarkAborted(b.state, g, tag);
      TellMore(s, g, a.out + b.out, c.out, tag, x.heard + y.heard, Mark(ViewOf(b.state, g, tag), tag).heard);
    } else {
      assert a.out + b.out + [] == a.out + b.out;
      assert x.heard + y.heard + [] == x.heard + y.heard;
    }
  }

  // Everything else is silent -----------------------------------------------------------------------

  /** No packet about `tag`. */
  ghost predicate Mute(out: seq<Cast>, tag: Tag) {
    forall i :: 0 <= i < |out| ==> !About(out[i].body, tag)
  }

  lemma {:induction false} MuteHears(out: seq<Cast>, u: Uuid, tag: Tag)
    requires Mute(out, tag)
    ensures Hears(out, u, tag) == []
    decreases |out|
  {
    if out != [] { MuteHears(out[1..], u, tag); }
  }

  ghost predicate SameColl(s: State, s': State) {
    && s'.clients.Keys == s.clients.Keys && s'.aborts == s.aborts && s'.nextSeq == s.nextSeq
    && forall u :: u in s.clients ==>
         s'.clients[u].group == s.clients[u].group && s'.clients[u].phase == s.clients[u].phase
         && s'.clients[u].coll == s.clients[u].coll
  }

  lemma SameCollView(s: State, s': State, g: Group, tag: Tag)
    requires SameColl(s, s')
    ensures Reshaped(s, s', g, tag, ViewOf(s, g, tag))
  {
    assert Members(s', g) == Members(s, g);
    assert ViewOf(s', g, tag).parts == ViewOf(s, g, tag).parts;
  }

  lemma OpenColl(s: State, accept: bool)
    ensures SameColl(s, OpenP2P(s, accept).(dropped := false))
  {
  }

  lemma EstablishSilent(s: State, tag: Tag)
    ensures CheckEstablish(s).Next? && SameColl(s, CheckEstablish(s).state) && Mute(CheckEstablish(s).out, tag)
  {
    hide OpenP2P, Consensus;
    OpenColl(s, true);
    var first := if AcceptConsensus(s) then OpenP2P(s, true).(dropped := false) else s;
    OpenColl(first, false);
  }

  lemma PendingSilent(s: State, tag: Tag)
    ensures CheckPending(s).Next? && SameColl(s, CheckPending(s).state) && Mute(CheckPending(s).out, tag)
  {
    hide ResetPendingAll;
    Resets(s);
  }

  lemma SyncSilent(s: State, g: Group, verdict: SyncVerdict, tag: Tag)
    ensures CheckSync(s, g, verdict).Next? ==>
      SameColl(s, CheckSync(s, g, verdict).state) && Mute(CheckSync(s, g, verdict).out, tag)
  {
    hide Members, In, Votes;
  }

  lemma SyncedSilent(s: State, g: Group, tag: Tag)
    ensures CheckSynced(s, g).Next? ==> SameColl(s, CheckSynced(s, g).state) && Mute(CheckSynced(s, g).out, tag)
  {
    hide Members, In, Votes;
  }

  /** Peers may have been accepted, but then nobody takes part in any operation. */
  ghost predicate Grown(s: State, s': State) {
    && s'.clients.Keys == s.clients.Keys && s'.aborts == s.aborts && s'.nextSeq == s.nextSeq
    && (forall u :: u in s.clients ==>
          s'.clients[u].group == s.clients[u].group && s'.clients[u].coll == s.clients[u].coll
          && (s.clients[u].phase == Accepted ==> s'.clients[u].phase == Accepted))
    && ((forall u :: u in s.clients ==> s'.clients[u].phase == s.clients[u].phase)
        || forall u :: u in s.clients ==> s.clients[u].coll == map[])
  }

  lemma EndGrown(s: State, s': State, failure: bool)
    requires Inv(s) && CanEndP2P(s, failure) && EndTo(s, s', failure)
    ensures Grown(s, s')
  {
    hide PairOk, ClientOk, VotesOk, StrategiesOk, MeteredOk, Addresses, LeftOut, Newcomers;
    forall u | u in s.clients
      ensures s.clients[u].coll == map[]
    {
      EndClient(s.clients[u], failure);
    }
  }

  lemma P2PSilent(s: State, tag: Tag)
    requires Inv(s)
    ensures CheckP2P(s).Next? ==> Grown(s, CheckP2P(s).state) && Mute(CheckP2P(s).out, tag)
  {
    hide Inv, P2PConsensus, CloseP2P, LeftOut, EndTo, CanEndP2P, Newcomers;
    var failure := s.dropped || exists u :: u in s.clients && s.clients[u].conn == ConnectFailed;
    Ends(s, failure);
    if CanEndP2P(s, failure) { EndGrown(s, CloseP2P(s, failure), failure); }
  }

  /** A view with more members, none of which takes part. */
  ghost predicate Widened(v: View, w: View) {
    && v.flag == w.flag && v.parts.Keys <= w.parts.Keys
    && (forall u :: u in v.parts ==> w.parts[u] == v.parts[u])
    && (v.parts.Keys == w.parts.Keys || (All(v, None) && All(w, None)))
  }

  lemma GrownView(s: State, s': State, g: Group, tag: Tag)
    requires Grown(s, s')
    ensures Widened(ViewOf(s, g, tag), ViewOf(s', g, tag))
  {
    var v, w := ViewOf(s, g, tag), ViewOf(s', g, tag);
    assert v.parts.Keys == Members(s, g) && w.parts.Keys == Members(s', g);
    if forall u :: u in s.clients ==> s'.clients[u].phase == s.clients[u].phase {
      assert Members(s, g) == Members(s', g);
    }
  }

  // Other operations --------------------------------------------------------------------------------

  /** The operation and the packets about it are as they were. */
  ghost predicate Untouched(s: State, o: Outcome, g: Group, tag: Tag) {
    o.Next? && Reshaped(s, o.state, g, tag, ViewOf(s, g, tag)) && Told(s, g, o.out, tag, []) && s.nextSeq <= o.state.nextSeq
  }

  /** No packet about `tag` to `u`. */
  ghost predicate Deaf(out: seq<Cast>, u: Uuid, tag: Tag) {
    forall i :: 0 <= i < |out| ==> !(u in out[i].to && About(out[i].body, tag))
  }

  lemma {:induction false} DeafHears(out: seq<Cast>, u: Uuid, tag: Tag)
    requires Deaf(out, u, tag)
    ensures Hears(out, u, tag) == []
    decreases |out|
  {
    if out != [] { DeafHears(out[1..], u, tag); }
  }

  lemma OtherCommenced(s: State, h: Group, t: Tag, g: Group, tag: Tag)
    requires h != g || t != tag
    ensures Reshaped(s, Commenced(s, h, t), g, tag, ViewOf(s, g, tag))
  {
    var s' := Commenced(s, h, t);
    assert Members(s', g) == Members(s, g);
    assert ViewOf(s', g, tag).parts == ViewOf(s, g, tag).parts;
  }

  lemma OtherConcluded(s: State, h: Group, t: Tag, g: Group, tag: Tag)
    requires h != g || t != tag
    ensures Reshaped(s, Concluded(s, h, t), g, tag, ViewOf(s, g, tag))
  {
    var s' := Concluded(s, h, t);
    assert Members(s', g) == Members(s, g);
    assert ViewOf(s', g, tag).parts == ViewOf(s, g, tag).parts;
  }

  lemma OtherMarked(s: State, h: Group, t: Tag, g: Group, tag: Tag)
    requires h != g || t != tag
    ensures Reshaped(s, s.(aborts := s.aborts + {(h, t)}), g, tag, ViewOf(s, g, tag))
  {
    var s' := s.(aborts := s.aborts + {(h, t)});
    assert Members(s', g) == Members(s, g);
    assert ViewOf(s', g, tag).parts == ViewOf(s, g, tag).parts;
  }

  lemma Apart(s: State, h: Group, g: Group)
    ensures Runners(s, h) <= Members(s, h)
    ensures h != g ==> Members(s, h) !! Members(s, g)
  {
  }

  lemma OtherInitiate(s: State, h: Group, t: Tag, g: Group, tag: Tag)
    requires Inv(s) && (h != g || t != tag)
    ensures Untouched(s, CheckInitiate(s, h, t), g, tag)
  {
    hide Inv, Runners, Members, ViewOf, AllInColl, Hears, Commenced;
    CheckInitiateInv(s, h, t);
    OtherCommenced(s, h, t, g, tag);
    Apart(s, h, g);
    CommencedSeq(s, h, t);
    forall u | u in Members(s, g) ensures Hears(CheckInitiate(s, h, t).out, u, tag) == [] {
      DeafHears(CheckInitiate(s, h, t).out, u, tag);
    }
  }

  lemma CommencedSeq(s: State, h: Group, t: Tag)
    ensures Commenced(s, h, t).nextSeq == s.nextSeq + 1
  {
  }

  lemma OtherComplete(s: State, h: Group, t: Tag, g: Group, tag: Tag)
    requires Inv(s) && (h != g || t != tag)
    ensures Untouched(s, CheckComplete(s, h, t), g, tag)
  {
    hide Inv, Runners, Members, ViewOf, AllInColl, Hears;
    CheckCompleteInv(s, h, t);
    OtherConcluded(s, h, t, g, tag);
    Apart(s, h, g);
    forall u | u in Members(s, g) ensures Hears(CheckComplete(s, h, t).out, u, tag) == [] {
      DeafHears(CheckComplete(s, h, t).out, u, tag);
    }
  }

  lemma OtherMark(s: State, h: Group, t: Tag, g: Group, tag: Tag)
    requires h != g || t != tag
    ensures Untouched(s, MarkAborted(s, h, t), g, tag)
  {
    hide Runners, Members, ViewOf, Hears;
    OtherMarked(s, h, t, g, tag);
    Apart(s, h, g);
    forall u | u in Members(s, g) ensures Hears(MarkAborted(s, h, t).out, u, tag) == [] {
      DeafHears(MarkAborted(s, h, t).out, u, tag);
    }
  }

  lemma OtherRecheck(s: State, h: Group, t: Tag, g: Group, tag: Tag)
    requires Inv(s) && (h != g || t != tag)
    ensures Untouched(s, Recheck(s, h, t), g, tag)
  {
    hide Inv, CheckInitiate, CheckComplete, MarkAborted, InProgress, ViewOf, Members, Hears;
    OtherInitiate(s, h, t, g, tag);
    CheckInitiateInv(s, h, t);
    var a := CheckInitiate(s, h, t);
    OtherComplete(a.state, h, t, g, tag);
    var b := CheckComplete(a.state, h, t);
    OtherMark(b.state, h, t, g, tag);
    var c := if InProgress(b.state, h, t) then MarkAborted(b.state, h, t) else Stay(b.state);
    TellMore(s, g, a.out, b.out, tag, [], []);
    TellNothing(s, g, tag);
    TellMore(s, g, a.out + b.out, c.out, tag, [], []);
  }

  lemma TellNothing(s: State, g: Group, tag: Tag)
    ensures Told(s, g, [], tag, [])
  {
  }

  /** All operations of the group are rechecked, this one at most once. */
  lemma {:induction false} RecheckAllView(s: State, g: Group, tags: seq<Tag>, tag: Tag) returns (n: nat)
    requires Inv(s) && forall i, j :: 0 <= i < j < |tags| ==> tags[i] != tags[j]
    ensures s.nextSeq <= n
    ensures
      var o := RecheckAll(s, g, tags);
      var v := ViewOf(s, g, tag);
      var c := if tag in tags then AfterRecheck(v, tag, n) else Change(v, []);
      && o.Next? && Reshaped(s, o.state, g, tag, c.view) && Told(s, g, o.out, tag, c.heard)
      && s.nextSeq <= o.state.nextSeq && (tag in tags && Begin(v, tag, n).heard != [] ==> n < o.state.nextSeq)
    decreases |tags|
  {
    hide Inv, Recheck, ViewOf, Members, Hears, AfterRecheck;
    TellNothing(s, g, tag);
    n := s.nextSeq;
    if tags != [] {
      var a := Recheck(s, g, tags[0]);
      RecheckInv(s, g, tags[0]);
      var m := RecheckAllView(a.state, g, tags[1..], tag);
      var b := RecheckAll(a.state, g, tags[1..]);
      if tags[0] == tag {
        RecheckView(s, g, tag);
        var c := AfterRecheck(ViewOf(s, g, tag), tag, n);
        TellMore(s, g, a.out, b.out, tag, c.heard, []);
        assert c.heard + [] == c.heard;
      } else {
        OtherRecheck(s, g, tags[0], g, tag);
        n := m;
        var v := ViewOf(s, g, tag);
        var c := if tag in tags[1..] then AfterRecheck(v, tag, n) else Change(v, []);
        TellMore(s, g, a.out, b.out, tag, [], c.heard);
        assert [] + c.heard == c.heard;
        assert tag in tags <==> tag in tags[1..];
      }
    }
  }

  lemma {:induction false} OtherRecheckAll(s: State, h: Group, tags: seq<Tag>, g: Group, tag: Tag)
    requires Inv(s) && h != g
    ensures Untouched(s, RecheckAll(s, h, tags), g, tag)
    decreases |tags|
  {
    hide Inv, Recheck, ViewOf, Members, Hears;
    TellNothing(s, g, tag);
    if tags != [] {
      var a := Recheck(s, h, tags[0]);
      OtherRecheck(s, h, tags[0], g, tag);
      RecheckInv(s, h, tags[0]);
      OtherRecheckAll(a.state, h, tags[1..], g, tag);
      TellMore(s, g, a.out, RecheckAll(a.state, h, tags[1..]).out, tag, [], []);
    }
  }

  // Events ------------------------------------------------------------------------------------------

  /** A step changes the operation, and tells its members, as described by `c`; peers that are accepted in the
      same step do not take part. */
  ghost predicate Follows(s: State, o: Outcome, g: Group, tag: Tag, c: Change) {
    && o.Next? && Widened(c.view, ViewOf(o.state, g, tag)) && s.nextSeq <= o.state.nextSeq
    && Told(o.state, g, o.out, tag, c.heard)
    && (c.heard == [] || c.view.parts.Keys == Members(o.state, g))
    && Members(o.state, g) * Members(s, g) <= c.view.parts.Keys
  }

  lemma FollowsIntro(s: State, o: Outcome, g: Group, tag: Tag, c: Change)
    requires o.Next? && Reshaped(s, o.state, g, tag, c.view) && Told(s, g, o.out, tag, c.heard)
    requires s.nextSeq <= o.state.nextSeq
    ensures Follows(s, o, g, tag, c)
  {
    hide Hears;
    assert ViewOf(o.state, g, tag).parts.Keys == Members(o.state, g);
  }

  /** A single client moves on. */
  lemma SetInfoView(s: State, u: Uuid, i: Info, g: Group, tag: Tag)
    requires u in s.clients && i.phase == s.clients[u].phase && i.group == s.clients[u].group
    ensures
      var v := ViewOf(s, g, tag);
      Reshaped(s, SetInfo(s, u, i), g, tag,
               if u in Members(s, g) then v.(parts := v.parts[u := PartOf(i, tag)]) else v)
  {
    var s', v := SetInfo(s, u, i), ViewOf(s, g, tag);
    assert Members(s', g) == Members(s, g);
    if u in Members(s, g) {
      assert ViewOf(s', g, tag).parts == v.parts[u := PartOf(i, tag)];
    } else {
      assert ViewOf(s', g, tag).parts == v.parts;
    }
  }

  predicate MayInitiate(i: Info, tag: Tag) {
    i.phase == Accepted && (i.conn == Idle || i.conn == Running) && tag !in i.coll
  }

  lemma KickFollows(s: State, u: Uuid, g: Group, tag: Tag)
    ensures Follows(s, KickOut(s, u), g, tag, Change(ViewOf(s, g, tag), []))
    ensures Follows(s, Stay(s), g, tag, Change(ViewOf(s, g, tag), []))
  {
    hide ViewOf, Members, Hears;
    forall v ensures Hears(KickOut(s, u).out, v, tag) == [] && Hears([], v, tag) == [] {
      DeafHears(KickOut(s, u).out, v, tag);
      HearsNone(v, tag);
    }
    FollowsIntro(s, KickOut(s, u), g, tag, Change(ViewOf(s, g, tag), []));
    FollowsIntro(s, Stay(s), g, tag, Change(ViewOf(s, g, tag), []));
  }

  lemma InitiateFollows(s: State, u: Uuid, t: Tag, g: Group, tag: Tag)
    requires Inv(s) && u in s.clients
    ensures
      var v := ViewOf(s, g, tag);
      var c := if t == tag && u in Members(s, g) && MayInitiate(s.clients[u], tag)
               then AfterInitiate(v, u, tag, s.nextSeq) else Change(v, []);
      && Follows(s, OnInitiate(s, u, t), g, tag, c)
      && (c.heard != [] ==> s.nextSeq < OnInitiate(s, u, t).state.nextSeq)
  {
    hide Inv, ClientOk, Quiet, Standing, InRound, CheckInitiate, Begin, Hears, ViewOf, Follows;
    var i := s.clients[u];
    if !MayInitiate(i, t) {
      KickFollows(s, u, g, tag);
    } else {
      EachClientOk(s, u);
      var i' := i.(conn := Running, coll := i.coll[t := VoteInit]);
      VoteInitQuiet(i, t);
      QuietInv(s, u, i');
      var s1 := SetInfo(s, u, i');
      var v := ViewOf(s, g, tag);
      SetInfoView(s, u, i', g, tag);
      var o := CheckInitiate(s1, i.group, t);
      if i.group == g && t == tag {
        InitiateView(s1, g, tag);
        FollowsIntro(s, o, g, tag, AfterInitiate(v, u, tag, s.nextSeq));
      } else {
        SamePart(s, u, i', g, tag);
        OtherInitiate(s1, i.group, t, g, tag);
        FollowsIntro(s, o, g, tag, Change(v, []));
      }
    }
  }

  lemma SamePart(s: State, u: Uuid, i: Info, g: Group, tag: Tag)
    requires u in s.clients && (u in Members(s, g) ==> PartOf(i, tag) == PartOf(s.clients[u], tag))
    ensures
      var v := ViewOf(s, g, tag);
      u in Members(s, g) ==> v.(parts := v.parts[u := PartOf(i, tag)]) == v
  {
    var v := ViewOf(s, g, tag);
    if u in Members(s, g) { assert v.parts[u := PartOf(i, tag)] == v.parts; }
  }

  lemma CompleteFollows(s: State, u: Uuid, t: Tag, aborted: bool, g: Group, tag: Tag)
    requires Inv(s) && u in s.clients
    ensures
      var v := ViewOf(s, g, tag);
      var c := if t == tag && u in Members(s, g) && InColl(s.clients[u], tag, Performing)
               then AfterComplete(v, u, tag, aborted) else Change(v, []);
      Follows(s, OnComplete(s, u, t, aborted), g, tag, c)
  {
    hide Inv, ClientOk, Quiet, Standing, InRound, CheckComplete, MarkAborted, Finish, Mark, Hears, ViewOf, Follows;
    var i := s.clients[u];
    if i.phase != Accepted || !InColl(i, t, Performing) {
      KickFollows(s, u, g, tag);
    } else {
      EachClientOk(s, u);
      var i' := i.(coll := i.coll[t := VoteDone]);
      VoteDoneQuiet(i, t);
      QuietInv(s, u, i');
      var s1 := SetInfo(s, u, i');
      SetInfoView(s, u, i', g, tag);
      MarkAbortedInv(s1, i.group, t);
      var m := if aborted then MarkAborted(s1, i.group, t) else Stay(s1);
      var o := CheckComplete(m.state, i.group, t);
      TellNothing(s1, g, tag);
      if i.group == g && t == tag {
        MarkView(s1, g, tag, u);
        CompleteView(m.state, g, tag);
        var c := AfterComplete(ViewOf(s, g, tag), u, tag, aborted);
        TellMore(s, g, m.out, o.out, tag, if aborted then Mark(ViewOf(s1, g, tag), tag).heard else [],
                 Finish(ViewOf(m.state, g, tag), tag).heard);
        FollowsIntro(s, Before(o, m.out), g, tag, c);
      } else {
        SamePart(s, u, i', g, tag);
        OtherMark(s1, i.group, t, g, tag);
        OtherComplete(m.state, i.group, t, g, tag);
        TellMore(s, g, m.out, o.out, tag, [], []);
        FollowsIntro(s, Before(o, m.out), g, tag, Change(ViewOf(s, g, tag), []));
      }
    }
  }

  function Without(v: View, u: Uuid): View { v.(parts := v.parts - {u}) }

  lemma LeaveView(s: State, u: Uuid, g: Group, tag: Tag)
    requires u in s.clients
    ensures
      var s' := Leave(s, u);
      && ViewOf(s', g, tag) == Without(ViewOf(s, g, tag), u) && Members(s', g) == Members(s, g) - {u}
      && s'.nextSeq == s.nextSeq && u !in s'.clients
  {
    hide Votes;
    var s' := Leave(s, u);
    LeaveFields(s, u);
    assert Members(s', g) == Members(s, g) - {u};
    assert ViewOf(s', g, tag).parts == ViewOf(s, g, tag).parts - {u};
  }

  lemma {:induction false} MuteConcat(a: seq<Cast>, b: seq<Cast>, tag: Tag)
    requires Mute(a, tag) && Mute(b, tag)
    ensures Mute(a + b, tag)
  {
  }

  lemma WidenedSame(a: View, b: View, c: View)
    requires Widened(a, b) && b == c
    ensures Widened(a, c)
  {
  }

  /** A departure changes nothing but the set of members until the operations are looked at. */
  lemma DepartedView(s: State, u: Uuid, verdict: SyncVerdict, g: Group, tag: Tag)
    requires Inv(s) && u in s.clients
    ensures
      var o := Departed(s, u, verdict);
      o.Next? ==>
        && Widened(Without(ViewOf(s, g, tag), u), ViewOf(o.state, g, tag)) && Mute(o.out, tag)
        && o.state.nextSeq == s.nextSeq && u !in Members(o.state, g)
  {
    hide Inv, Leave, CheckEstablish, CheckP2P, CheckPending, CheckSync, CheckSynced, ViewOf, Members, Widened, SameColl,
         Mute, Without, Grown;
    var h := s.clients[u].group;
    LeaveView(s, u, g, tag);
    LeaveInv(s, u);
    var s0 := Leave(s, u);
    EstablishSilent(s0, tag);
    CheckEstablishInv(s0);
    var a := CheckEstablish(s0);
    SameCollView(s0, a.state, g, tag);
    var s1 := a.state.(dropped := true);
    DroppedInv(a.state, true);
    DroppedView(a.state, g, tag);
    P2PSilent(s1, tag);
    var b := CheckP2P(s1);
    if b.Next? {
      GrownView(s1, b.state, g, tag);
      PendingSilent(b.state, tag);
      var c := CheckPending(b.state);
      SameCollView(b.state, c.state, g, tag);
      SyncSilent(c.state, h, verdict, tag);
      var d := CheckSync(c.state, h, verdict);
      if d.Next? {
        SameCollView(c.state, d.state, g, tag);
        SyncedSilent(d.state, h, tag);
        var e := CheckSynced(d.state, h);
        if e.Next? {
          SameCollView(d.state, e.state, g, tag);
          MuteConcat(a.out, b.out, tag);
          MuteConcat(a.out + b.out, c.out, tag);
          MuteConcat(a.out + b.out + c.out, d.out, tag);
          MuteConcat(a.out + b.out + c.out + d.out, e.out, tag);
          SeqKept(s0, a.state, s1, b.state, c.state, d.state, e.state, u, g);
        }
      }
    }
  }

  lemma SeqKept(s0: State, a: State, s1: State, b: State, c: State, d: State, e: State, u: Uuid, g: Group)
    requires u !in s0.clients
    requires SameColl(s0, a) && s1 == a.(dropped := true) && Grown(s1, b) && SameColl(b, c) && SameColl(c, d) && SameColl(d, e)
    ensures e.nextSeq == s0.nextSeq && u !in Members(e, g)
  {
    assert e.clients.Keys == s0.clients.Keys;
  }

  lemma DroppedView(s: State, g: Group, tag: Tag)
    ensures ViewOf(s.(dropped := true), g, tag) == ViewOf(s, g, tag)
  {
    assert Members(s.(dropped := true), g) == Members(s, g);
  }

  /** The operations that are looked at after a departure are the ones some member takes part in. */
  lemma OngoingAny(s: State, g: Group, tag: Tag)
    requires Inv(s)
    ensures tag in OngoingTags(s, g) <==> !All(ViewOf(s, g, tag), None)
  {
    hide PairOk, VotesOk, StrategiesOk, MeteredOk, Addresses;
    var v := ViewOf(s, g, tag);
    if tag in OngoingTags(s, g) {
      var u :| u in s.clients && s.clients[u].group == g && tag in s.clients[u].coll;
      assert ClientOk(s.clients[u]);
      assert u in v.parts && v.parts[u] != None;
    }
    if !All(v, None) {
      var u :| u in v.parts && v.parts[u] != None;
      assert u in Members(s, g);
    }
  }

  lemma DisconnectFollows(s: State, u: Uuid, verdict: SyncVerdict, tags: seq<Tag>, g: Group, tag: Tag) returns (n: nat)
    requires Inv(s) && u in s.clients && OnDisconnect(s, u, verdict, tags).Next?
    requires (set t | t in tags) == OngoingTags(Departed(s, u, verdict).state, s.clients[u].group)
    requires forall i, j :: 0 <= i < j < |tags| ==> tags[i] != tags[j]
    ensures s.nextSeq <= n
    ensures
      var v := ViewOf(s, g, tag);
      var here := s.clients[u].group == g;
      var c := if here then AfterLeave(v, u, tag, n) else Change(Without(v, u), []);
      && Follows(s, OnDisconnect(s, u, verdict, tags), g, tag, c)
      && (here && !All(Without(v, u), None) && Begin(Without(v, u), tag, n).heard != [] ==>
            n < OnDisconnect(s, u, verdict, tags).state.nextSeq)
  {
    hide Inv, Departed, RecheckAll, ViewOf, Hears, AfterRecheck, Begin, Without, OngoingTags, Members;
    var h := s.clients[u].group;
    var a := Departed(s, u, verdict);
    DepartedInv(s, u, verdict);
    DepartedView(s, u, verdict, g, tag);
    MuteTold(a.state, g, a.out, tag);
    var b := RecheckAll(a.state, h, tags);
    if h == g {
      n := RecheckAllView(a.state, g, tags, tag);
      OngoingAny(a.state, g, tag);
      assert tag in tags <==> tag in (set t | t in tags);
      AfterLeaveFollows(s, u, a, b, tags, g, tag, n);
    } else {
      n := s.nextSeq;
      OtherRecheckAll(a.state, h, tags, g, tag);
      TellMore(a.state, g, a.out, b.out, tag, [], []);
      MembersKeys(b.state, g, tag);
      WithoutKeys(s, u, g, tag);
    }
  }

  lemma WithoutKeys(s: State, u: Uuid, g: Group, tag: Tag)
    ensures Without(ViewOf(s, g, tag), u).parts.Keys == Members(s, g) - {u}
  {
  }

  lemma MembersKeys(s: State, g: Group, tag: Tag)
    ensures ViewOf(s, g, tag).parts.Keys == Members(s, g)
  {
  }

  lemma MuteTold(s: State, g: Group, out: seq<Cast>, tag: Tag)
    requires Mute(out, tag)
    ensures Told(s, g, out, tag, [])
  {
    forall u | u in Members(s, g) ensures Hears(out, u, tag) == [] { MuteHears(out, u, tag); }
  }

  lemma LeaveKeys(v: View, u: Uuid, tag: Tag, n: nat)
    ensures AfterLeave(v, u, tag, n).view.parts.Keys == Without(v, u).parts.Keys
  {
  }

  lemma AfterLeaveFollows(s: State, u: Uuid, a: Outcome, b: Outcome, tags: seq<Tag>, g: Group, tag: Tag, n: nat)
    requires a.Next? && b.Next? && u !in Members(a.state, g)
    requires Told(a.state, g, a.out, tag, []) && a.state.nextSeq == s.nextSeq <= b.state.nextSeq
    requires Widened(Without(ViewOf(s, g, tag), u), ViewOf(a.state, g, tag))
    requires tag in tags <==> !All(ViewOf(a.state, g, tag), None)
    requires
      var v := ViewOf(a.state, g, tag);
      var c := if tag in tags then AfterRecheck(v, tag, n) else Change(v, []);
      Reshaped(a.state, b.state, g, tag, c.view) && Told(a.state, g, b.out, tag, c.heard)
    ensures
      var v := ViewOf(s, g, tag);
      && Follows(s, Before(b, a.out), g, tag, AfterLeave(v, u, tag, n))
      && (tag in tags <==> !All(Without(v, u), None)) && (tag in tags ==> ViewOf(a.state, g, tag) == Without(v, u))
  {
    hide ViewOf, Hears, AfterRecheck, Members;
    var rest, w := Without(ViewOf(s, g, tag), u), ViewOf(a.state, g, tag);
    assert tag in tags ==> w == rest by {
      if tag in tags { assert w.parts == rest.parts; }
    }
    var c := if tag in tags then AfterRecheck(w, tag, n) else Change(w, []);
    TellMore(a.state, g, a.out, b.out, tag, [], c.heard);
    assert [] + c.heard == c.heard;
    MembersKeys(b.state, g, tag);
    WithoutKeys(s, u, g, tag);
    LeaveKeys(ViewOf(s, g, tag), u, tag, n);
    WidenedSame(c.view, c.view, ViewOf(b.state, g, tag));
  }

  // The remaining events ----------------------------------------------------------------------------

  /** Nothing happens to any operation, except that peers may be accepted. */
  ghost predicate Silent(s: State, o: Outcome, tag: Tag) {
    o.Next? ==> Grown(s, o.state) && Mute(o.out, tag)
  }

  lemma SilentFollows(s: State, o: Outcome, g: Group, tag: Tag)
    requires o.Next? && Silent(s, o, tag)
    ensures Follows(s, o, g, tag, Change(ViewOf(s, g, tag), []))
  {
    hide ViewOf, Hears;
    MembersKeys(s, g, tag);
    GrownView(s, o.state, g, tag);
    MuteTold(o.state, g, o.out, tag);
  }

  lemma SameThenGrown(a: State, b: State, c: State)
    requires SameColl(a, b) && Grown(b, c)
    ensures Grown(a, c)
  {
  }

  lemma SameIsGrown(a: State, b: State)
    requires SameColl(a, b)
    ensures Grown(a, b)
  {
  }

  lemma SameSame(a: State, b: State, c: State)
    requires SameColl(a, b) && SameColl(b, c)
    ensures SameColl(a, c)
  {
  }

  lemma SetConnColl(s: State, u: Uuid, c: Conn, pending: bool)
    requires u in s.clients
    ensures SameColl(s, SetInfo(s, u, s.clients[u].(conn := c, pending := pending)))
    ensures SetConn(s, u, c) == SetInfo(s, u, s.clients[u].(conn := c, pending := s.clients[u].pending))
  {
  }

  lemma CastVoteColl(s: State, u: Uuid, b: Ballot, x: map<Uuid, Strategy>)
    requires u in s.clients && CastVote(s, u, b).Next?
    ensures SameColl(s, CastVote(s, u, b).state) && SameColl(s, CastVote(s, u, b).state.(strategies := x))
    ensures CastVote(s, u, b).out == []
  {
  }

  lemma RequestP2PSilent(s: State, u: Uuid, accept: bool, tag: Tag)
    requires u in s.clients
    ensures Silent(s, OnRequestP2P(s, u, accept), tag)
  {
    hide CastVote, CheckEstablish, SameColl, Grown;
    var b := if accept then ToAccept else ToEstablish;
    KeepColl(s);
    if CastVote(s, u, b).Next? {
      CastVoteColl(s, u, b, map[]);
      EstablishSilent(CastVote(s, u, b).state, tag);
      SameSame(s, CastVote(s, u, b).state, CheckEstablish(CastVote(s, u, b).state).state);
      SameIsGrown(s, CheckEstablish(CastVote(s, u, b).state).state);
    }
  }

  lemma KeepColl(s: State)
    ensures SameColl(s, s) && Grown(s, s)
  {
  }

  lemma ReportP2PSilent(s: State, u: Uuid, success: bool, fail: FailVerdict, tag: Tag)
    requires Inv(s) && u in s.clients
    ensures Silent(s, OnReportP2P(s, u, success, fail), tag)
  {
    hide Inv, CheckP2P, SameColl, Grown, ClientOk, Quiet, Standing, InRound, SetInfo;
    KeepColl(s);
    var i := s.clients[u];
    if i.conn == Connecting {
      var c := if success then Waiting else ConnectFailed;
      EachClientOk(s, u);
      ReportQuiet(i, c);
      QuietInv(s, u, i.(conn := c));
      SetConnColl(s, u, c, i.pending);
      P2PSilent(SetConn(s, u, c), tag);
      if CheckP2P(SetConn(s, u, c)).Next? {
        SameThenGrown(s, SetConn(s, u, c), CheckP2P(SetConn(s, u, c)).state);
      }
    }
  }

  lemma ReportQuiet(i: Info, c: Conn)
    requires ClientOk(i) && i.conn == Connecting && (c == Waiting || c == ConnectFailed)
    ensures Quiet(i, i.(conn := c)) && ClientOk(i.(conn := c)) && Standing(i.(conn := c)) == Standing(i)
    ensures InRound(c) == InRound(i.conn)
  {
  }

  lemma QueryPendingSilent(s: State, u: Uuid, tag: Tag)
    requires u in s.clients
    ensures Silent(s, OnQueryPending(s, u), tag)
  {
    hide CheckPending, SameColl, Grown, SetInfo;
    KeepColl(s);
    var s1 := SetInfo(s, u, s.clients[u].(pending := true));
    assert s.clients[u].(pending := true) == s.clients[u].(conn := s.clients[u].conn, pending := true);
    SetConnColl(s, u, s.clients[u].conn, true);
    PendingSilent(s1, tag);
    SameSame(s, s1, CheckPending(s1).state);
    SameIsGrown(s, CheckPending(s1).state);
  }

  lemma AllToColl(s: State, c: Conn, b: Ballot)
    ensures SameColl(s, SetVotes(AllTo(s, c), b, {}))
  {
  }

  lemma OptimizeSilent(s: State, u: Uuid, tag: Tag)
    requires u in s.clients
    ensures Silent(s, OnRequestOptimize(s, u), tag) && Silent(s, OnReportOptimized(s, u), tag)
  {
    hide CastVote, SameColl, Grown, AllTo, SetVotes, Consensus, Unanimous, Everyone;
    KeepColl(s);
    VoteMoveColl(s, u, ToOptimize, Optimizing);
    VoteMoveColl(s, u, ToEndOptimize, Idle);
  }

  lemma VoteMoveColl(s: State, u: Uuid, b: Ballot, c: Conn)
    requires u in s.clients
    ensures CastVote(s, u, b).Next? ==>
      && CastVote(s, u, b).out == [] && Grown(s, CastVote(s, u, b).state)
      && Grown(s, SetVotes(AllTo(CastVote(s, u, b).state, c), b, {}))
  {
    hide CastVote, SameColl, Grown, AllTo, SetVotes;
    if CastVote(s, u, b).Next? {
      var v := CastVote(s, u, b).state;
      CastVoteColl(s, u, b, map[]);
      AllToColl(v, c, b);
      SameSame(s, v, SetVotes(AllTo(v, c), b, {}));
      SameIsGrown(s, v);
      SameIsGrown(s, SetVotes(AllTo(v, c), b, {}));
    }
  }

  lemma SyncStateSilent(s: State, u: Uuid, legal: bool, strategy: Strategy, verdict: SyncVerdict, tag: Tag)
    requires u in s.clients
    ensures Silent(s, OnSyncState(s, u, legal, strategy, verdict), tag)
  {
    hide CastVote, CheckSync, SameColl, Grown;
    KeepColl(s);
    var g := s.clients[u].group;
    if CastVote(s, u, ToSync(g)).Next? {
      var v := CastVote(s, u, ToSync(g)).state.(strategies := s.strategies[u := strategy]);
      CastVoteColl(s, u, ToSync(g), s.strategies[u := strategy]);
      SyncSilent(v, g, verdict, tag);
      if CheckSync(v, g, verdict).Next? {
        SameSame(s, v, CheckSync(v, g, verdict).state);
        SameIsGrown(s, CheckSync(v, g, verdict).state);
      }
    }
  }

  lemma ReportSyncedSilent(s: State, u: Uuid, tag: Tag)
    requires u in s.clients
    ensures Silent(s, OnReportSynced(s, u), tag)
  {
    hide CastVote, CheckSynced, SameColl, Grown;
    KeepColl(s);
    var g := s.clients[u].group;
    if CastVote(s, u, ToEndSync(g)).Next? {
      var v := CastVote(s, u, ToEndSync(g)).state;
      CastVoteColl(s, u, ToEndSync(g), map[]);
      SyncedSilent(v, g, tag);
      if CheckSynced(v, g).Next? {
        SameSame(s, v, CheckSynced(v, g).state);
        SameIsGrown(s, CheckSynced(v, g).state);
      }
    }
  }

  lemma JoinView(s: State, u: Uuid, i: Info, g: Group, tag: Tag)
    requires u !in s.clients && i.phase == Registered
    ensures Reshaped(s, Join(s, u, i), g, tag, ViewOf(s, g, tag))
  {
    assert Members(Join(s, u, i), g) == Members(s, g);
    assert ViewOf(Join(s, u, i), g, tag).parts == ViewOf(s, g, tag).parts;
  }

  lemma FirstView(s: State, u: Uuid, i: Info, g: Group, tag: Tag)
    requires s.clients == map[] && i.coll == map[]
    ensures Widened(ViewOf(s, g, tag), ViewOf(FirstState(s, u, i), g, tag)) && FirstState(s, u, i).nextSeq == s.nextSeq
  {
  }

  lemma EnrollView(s: State, addr: Addr, local: bool, group: Group, u: Uuid, g: Group, tag: Tag)
    requires Inv(s) && u !in s.issued && addr !in s.byAddr && !Mixes(s, local)
    ensures
      var o := Enroll(s, addr, local, group, u);
      o.Next? && Widened(ViewOf(s, g, tag), ViewOf(o.state, g, tag)) && o.state.nextSeq == s.nextSeq
  {
    hide Inv, CastVote, OpenP2P, Consensus, FirstState, Alone, Mixes, ViewOf, Members;
    var i := Info(Registered, Idle, addr, local, group, map[], false);
    EnrollInv(s, addr, local, group, u);
    if s.clients == map[] {
      EmptyState(s);
      EnrollFirst(s, addr, local, group, u);
      FirstView(s, u, i, g, tag);
    } else {
      NotFirst(s, u, i);
      FreshClient(s, u);
      JoinView(s, u, i, g, tag);
    }
  }

  lemma FreshClient(s: State, u: Uuid)
    requires Inv(s) && u !in s.issued
    ensures u !in s.clients
  {
    IssuedClients(s, u);
  }

  lemma RegisterFollows(s: State, addr: Addr, local: bool, group: Group, u: Uuid, g: Group, tag: Tag)
    requires Inv(s) && u !in s.issued
    ensures Follows(s, OnRegister(s, addr, local, group, u), g, tag, Change(ViewOf(s, g, tag), []))
  {
    hide Inv, Enroll, CheckEstablish, Mixes, ViewOf, Members, Hears, SameColl, Widened, InConn;
    KickFollows(s, if addr in s.byAddr then s.byAddr[addr] else 0, g, tag);
    if addr !in s.byAddr {
      if !Mixes(s, local) { EnrollView(s, addr, local, group, u, g, tag); }
      var joined := if Mixes(s, local) then s else Enroll(s, addr, local, group, u).state;
      WidenedSelf(ViewOf(s, g, tag));
      var o := if |joined.byAddr| == 1 then Next(joined, [Cast(InConn(joined, Connecting), PeersInfo(true))]) else CheckEstablish(joined);
      EstablishSilent(joined, tag);
      KeepColl(joined);
      SameCollView(joined, o.state, g, tag);
      SameSeq(joined, o.state);
      var end := OnRegister(s, addr, local, group, u);
      MuteConcat([Cast({u}, Response(!Mixes(s, local)))], o.out, tag);
      MuteTold(end.state, g, end.out, tag);
      MembersKeys(s, g, tag);
    }
  }

  lemma WidenedSelf(v: View)
    ensures Widened(v, v)
  {
  }

  lemma SameSeq(s: State, s': State)
    requires SameColl(s, s')
    ensures s'.nextSeq == s.nextSeq
  {
  }

  // One step ----------------------------------------------------------------------------------------

  /** What an event means for the operation `tag` of group `g`; `n` numbers the operation if it starts. */
  ghost function Meaning(s: State, e: Event, g: Group, tag: Tag, n: nat): Change {
    var v := ViewOf(s, g, tag);
    if e.Register? || e.addr !in s.byAddr || s.byAddr[e.addr] !in s.clients then Change(v, [])
    else
      var u := s.byAddr[e.addr];
      if e.Initiate? && e.tag == tag && u in Members(s, g) && MayInitiate(s.clients[u], tag)
      then AfterInitiate(v, u, tag, n)
      else if e.Complete? && e.tag == tag && u in Members(s, g) && InColl(s.clients[u], tag, Performing)
      then AfterComplete(v, u, tag, e.aborted)
      else if e.Disconnect? && s.clients[u].group == g then AfterLeave(v, u, tag, n)
      else if e.Disconnect? then Change(Without(v, u), [])
      else Change(v, [])
  }

  /** Every step of the master, seen from one operation. */
  lemma StepFollows(s: State, e: Event, g: Group, tag: Tag) returns (n: nat)
    requires Inv(s) && MasterSpec.Legal(s, e) && Step(s, e).Next?
    ensures s.nextSeq <= n && Follows(s, Step(s, e), g, tag, Meaning(s, e, g, tag, n))
    ensures Commence(tag, n) in Meaning(s, e, g, tag, n).heard ==> n < Step(s, e).state.nextSeq
  {
    hide Inv, OnRegister, OnRequestP2P, OnReportP2P, OnQueryPending, OnRequestOptimize, OnReportOptimized, OnSyncState,
         OnReportSynced, OnInitiate, OnComplete, OnDisconnect, ViewOf, Members, Follows, AfterInitiate, AfterComplete,
         MayInitiate, InColl, Silent, Grown, Departed, OngoingTags, AfterLeave, All, Begin;
    n := s.nextSeq;
    if e.Register? {
      RegisterFollows(s, e.addr, e.local, e.group, e.id, g, tag);
    } else if e.addr !in s.byAddr || s.byAddr[e.addr] !in s.clients {
      KickFollows(s, 0, g, tag);
    } else {
      var u := s.byAddr[e.addr];
      if e.Initiate? {
        InitiateFollows(s, u, e.tag, g, tag);
      } else if e.Complete? {
        CompleteFollows(s, u, e.tag, e.aborted, g, tag);
        CompleteStartsNothing(ViewOf(s, g, tag), u, tag, e.aborted, n);
      } else if e.Disconnect? {
        LegalTags(s, e, u);
        n := DisconnectFollows(s, u, e.verdict, e.tags, g, tag);
        LeaveStarts(ViewOf(s, g, tag), u, tag, n);
      } else {
        QuietFollows(s, e, u, g, tag);
      }
    }
  }

  lemma LegalTags(s: State, e: Event, u: Uuid)
    requires e.Disconnect? && e.addr in s.byAddr && s.byAddr[e.addr] == u && u in s.clients
    requires MasterSpec.Legal(s, e) && OnDisconnect(s, u, e.verdict, e.tags).Next?
    ensures Departed(s, u, e.verdict).Next?
    ensures (set t | t in e.tags) == OngoingTags(Departed(s, u, e.verdict).state, s.clients[u].group)
    ensures forall i, j :: 0 <= i < j < |e.tags| ==> e.tags[i] != e.tags[j]
  {
    hide Departed, OngoingTags, RecheckAll;
  }

  lemma CompleteStartsNothing(v: View, u: Uuid, tag: Tag, aborted: bool, n: nat)
    ensures Commence(tag, n) !in AfterComplete(v, u, tag, aborted).heard
  {
  }

  lemma LeaveStarts(v: View, u: Uuid, tag: Tag, n: nat)
    ensures Commence(tag, n) in AfterLeave(v, u, tag, n).heard ==>
      !All(Without(v, u), None) && Begin(Without(v, u), tag, n).heard != []
  {
  }

  lemma QuietFollows(s: State, e: Event, u: Uuid, g: Group, tag: Tag)
    requires Inv(s) && u in s.clients && Step(s, e).Next?
    requires !e.Register? && e.addr in s.byAddr && s.byAddr[e.addr] == u
    requires !e.Initiate? && !e.Complete? && !e.Disconnect?
    ensures Follows(s, Step(s, e), g, tag, Change(ViewOf(s, g, tag), []))
  {
    hide Inv, OnRequestP2P, OnReportP2P, OnQueryPending, OnRequestOptimize, OnReportOptimized, OnSyncState,
         OnReportSynced, OnInitiate, OnComplete, OnDisconnect, ViewOf, Members, Follows, Grown;
    KeepColl(s);
    match e {
      case RequestP2P(_, accept) => RequestP2PSilent(s, u, accept, tag);
      case ReportP2P(_, success, fail) => ReportP2PSilent(s, u, success, fail, tag);
      case QueryPending(_) => QueryPendingSilent(s, u, tag);
      case RequestOptimize(_) => OptimizeSilent(s, u, tag);
      case ReportBandwidth(_, _) =>
      case ReportOptimized(_) => OptimizeSilent(s, u, tag);
      case SyncState(_, legal, strategy, verdict) => SyncStateSilent(s, u, legal, strategy, verdict, tag);
      case ReportSynced(_) => ReportSyncedSilent(s, u, tag);
    }
    SilentFollows(s, Step(s, e), g, tag);
  }
}
