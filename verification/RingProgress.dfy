/** No interleaving of the ring deadlocks, and every fair one finishes. */
module RingProgress {
  import opened Streaming
  import opened RingSpec
  import opened Ring
  import opened RingProof

  ghost predicate Finished<E(!new), M>(J: Job<E, M>, s: Net<E, M>)
    requires Valid(J) && |s.ranks| == J.world
  {
    forall r :: 0 <= r < J.world ==> s.ranks[r].step >= Last(J)
  }

  // A measure ---------------------------------------------------------------------------------------

  function Sum(s: seq<nat>): nat {
    if s == [] then 0 else s[0] + Sum(s[1..])
  }

  lemma {:induction false} SumUpdate(s: seq<nat>, i: nat, v: nat)
    requires i < |s|
    ensures Sum(s[i := v]) == Sum(s) - s[i] + v
    decreases |s|
  {
    if i == 0 {
      assert s[0 := v][1..] == s[1..];
    } else {
      SumUpdate(s[1..], i - 1, v);
      assert s[i := v][1..] == s[1..][i - 1 := v];
    }
  }

  /** Frames of other operations on a link. */
  function Stale<M>(ctr: nat, link: seq<Frame<M>>): nat {
    if link == [] then 0 else (if link[0].ctr == ctr then 0 else 1) + Stale(ctr, link[1..])
  }

  lemma {:induction false} StaleAppend<M>(ctr: nat, link: seq<Frame<M>>, f: Frame<M>)
    requires f.ctr == ctr
    ensures Stale(ctr, link + [f]) == Stale(ctr, link)
    decreases |link|
  {
    if link == [] {
      assert [f][1..] == [];
    } else {
      StaleAppend(ctr, link[1..], f);
      assert (link + [f])[1..] == link[1..] + [f];
    }
  }

  /** How much rank `r` still has to do. */
  ghost function Weight<E(!new), M>(J: Job<E, M>, r: nat, k: Rank<E, M>): nat
    requires Valid(J) && r < J.world
  {
    2 * |ToSend(J, r, k)| + 2 * |ToReceive(J, Prev(J.world, r), k)|
    + (if k.step < Last(J) then Last(J) - k.step else 0)
    + if k.sendTurn then 0 else 1
  }

  ghost function Weights<E(!new), M>(J: Job<E, M>, ranks: seq<Rank<E, M>>): (w: seq<nat>)
    requires Valid(J) && |ranks| == J.world
    ensures |w| == J.world
  {
    seq(J.world, r requires 0 <= r < J.world => Weight(J, r, ranks[r]))
  }

  function Stales<M>(ctr: nat, links: seq<seq<Frame<M>>>): (w: seq<nat>)
    ensures |w| == |links|
  {
    seq(|links|, r requires 0 <= r < |links| => Stale(ctr, links[r]))
  }

  ghost function Measure<E(!new), M>(J: Job<E, M>, s: Net<E, M>): nat
    requires Valid(J) && |s.ranks| == |s.links| == J.world
  {
    Sum(Weights(J, s.ranks)) + Sum(Stales(J.ctr, s.links))
  }

  lemma WeightsUpdate<E(!new), M>(J: Job<E, M>, ranks: seq<Rank<E, M>>, r: nat, k: Rank<E, M>)
    requires Valid(J) && |ranks| == J.world && r < J.world
    ensures Sum(Weights(J, ranks[r := k])) == Sum(Weights(J, ranks)) - Weight(J, r, ranks[r]) + Weight(J, r, k)
  {
    hide Weight;
    assert Weights(J, ranks[r := k]) == Weights(J, ranks)[r := Weight(J, r, k)];
    SumUpdate(Weights(J, ranks), r, Weight(J, r, k));
  }

  lemma StalesUpdate<M>(ctr: nat, links: seq<seq<Frame<M>>>, i: nat, link: seq<Frame<M>>)
    requires i < |links|
    ensures Sum(Stales(ctr, links[i := link])) == Sum(Stales(ctr, links)) - Stale(ctr, links[i]) + Stale(ctr, link)
  {
    hide Stale;
    assert Stales(ctr, links[i := link]) == Stales(ctr, links)[i := Stale(ctr, link)];
    SumUpdate(Stales(ctr, links), i, Stale(ctr, link));
  }

  lemma PutMeasure<E(!new), M>(J: Job<E, M>, s: Net<E, M>, r: nat, k: Rank<E, M>, f: Frame<M>)
    requires Valid(J) && |s.ranks| == |s.links| == J.world && r < J.world && f.ctr == J.ctr
    ensures Measure(J, Put(s, r, k, f)) == Measure(J, s) - Weight(J, r, s.ranks[r]) + Weight(J, r, k)
  {
    hide Weight, Weights, Stales;
    WeightsUpdate(J, s.ranks, r, k);
    StalesUpdate(J.ctr, s.links, r, s.links[r] + [f]);
    StaleAppend(J.ctr, s.links[r], f);
  }

  lemma PopMeasure<E(!new), M>(J: Job<E, M>, s: Net<E, M>, r: nat, k: Rank<E, M>)
    requires Valid(J) && |s.ranks| == |s.links| == J.world && r < J.world && s.links[Prev(J.world, r)] != []
    ensures
      var p := Prev(J.world, r);
      Measure(J, Pop(s, r, p, k))
      == Measure(J, s) - Weight(J, r, s.ranks[r]) + Weight(J, r, k) - if s.links[p][0].ctr == J.ctr then 0 else 1
  {
    hide Weight, Weights, Stales;
    var p := Prev(J.world, r);
    WeightsUpdate(J, s.ranks, r, k);
    StalesUpdate(J.ctr, s.links, p, s.links[p][1..]);
  }

  lemma MoveMeasure<E(!new), M>(J: Job<E, M>, s: Net<E, M>, r: nat, k: Rank<E, M>)
    requires Valid(J) && |s.ranks| == |s.links| == J.world && r < J.world
    ensures Measure(J, Move(s, r, k)) == Measure(J, s) - Weight(J, r, s.ranks[r]) + Weight(J, r, k)
  {
    hide Weight, Weights, Stales;
    WeightsUpdate(J, s.ranks, r, k);
  }

  // Every move makes progress -----------------------------------------------------------------------

  lemma SendDecreases<E(!new), M>(J: Job<E, M>, s: Net<E, M>, r: nat)
    requires Valid(J) && Shaped(J, s) && r < J.world && RankOk(J, r, s.ranks[r])
    requires s.ranks[r].step < Last(J) && (J.quant ==> s.ranks[r].metaOut && s.ranks[r].metaIn)
    requires s.ranks[r].sendTurn && s.ranks[r].sent < Bytes(J, s.ranks[r].tx)
    ensures Measure(J, Put(s, r, AfterSend(J, r, s.ranks[r]), Piece(J, r, s.ranks[r]))) < Measure(J, s)
  {
    hide Measure, Future, RankOk, PackLaws, TxBytes, Wire;
    var k := s.ranks[r];
    SendsData(J, r, k);
    PutMeasure(J, s, r, AfterSend(J, r, k), Piece(J, r, k));
  }

  lemma AdvanceDecreases<E(!new), M>(J: Job<E, M>, s: Net<E, M>, r: nat)
    requires Valid(J) && Shaped(J, s) && r < J.world && RankOk(J, r, s.ranks[r]) && StepDone(J, s.ranks[r])
    ensures Measure(J, Move(s, r, AfterStep(J, r, s.ranks[r]))) < Measure(J, s)
  {
    hide Measure, Future, RankOk, PackLaws, Enter, ToSend, ToReceive;
    var k := s.ranks[r];
    Advances(J, r, k);
    MoveMeasure(J, s, r, AfterStep(J, r, k));
  }

  lemma ExchangeDecreases<E(!new), M>(J: Job<E, M>, s: Net<E, M>, r: nat)
    requires Valid(J) && Inv(J, s) && Shaped(J, s) && r < J.world && RankOk(J, r, s.ranks[r])
    requires s.ranks[r].step < Last(J) && (J.quant ==> s.ranks[r].metaOut && s.ranks[r].metaIn)
    requires Exchange(J, s, r) != s
    ensures Measure(J, Exchange(J, s, r)) < Measure(J, s)
  {
    hide Inv, Measure, Future, RankOk, PackLaws, OnData, Enter, Piece;
    var k, p := s.ranks[r], Prev(J.world, r);
    if k.sendTurn && k.sent < Bytes(J, k.tx) {
      SendDecreases(J, s, r);
    } else if k.recvd < Bytes(J, k.rx) && s.links[p] != [] {
      ReceiveDecreases(J, s, r);
    } else if k.recvd < Bytes(J, k.rx) || k.sent < Bytes(J, k.tx) {
      MoveMeasure(J, s, r, k.(sendTurn := true));
      assert !k.sendTurn by { SameRank(s, r); }
    } else {
      AdvanceDecreases(J, s, r);
    }
  }

  lemma SameRank<E, M>(s: Net<E, M>, r: nat)
    requires r < |s.ranks|
    ensures s.ranks[r].sendTurn ==> Move(s, r, s.ranks[r].(sendTurn := true)) == s
  {
  }

  lemma ReceiveDecreases<E(!new), M>(J: Job<E, M>, s: Net<E, M>, r: nat)
    requires Valid(J) && Inv(J, s) && Shaped(J, s) && r < J.world && RankOk(J, r, s.ranks[r])
    requires s.ranks[r].step < Last(J) && (J.quant ==> s.ranks[r].metaOut && s.ranks[r].metaIn)
    requires s.ranks[r].recvd < Bytes(J, s.ranks[r].rx)
    requires s.links[Prev(J.world, r)] != []
    ensures Measure(J, Pop(s, r, Prev(J.world, r), OnData(J, s.ranks[r], s.links[Prev(J.world, r)][0]))) < Measure(J, s)
  {
    hide Inv, Measure, Future, BytesOk, HeldOk, MetaOk, Chosen, PackLaws, Awaits, Absorb, Overwrite;
    var k, f := s.ranks[r], s.links[Prev(J.world, r)][0];
    PopMeasure(J, s, r, OnData(J, k, f));
    if f.ctr == J.ctr {
      Awaited(J, s, r);
      TakesData(J, r, k, f);
    }
  }

  lemma MetaDecreases<E(!new), M>(J: Job<E, M>, s: Net<E, M>, r: nat)
    requires Valid(J) && Inv(J, s) && Shaped(J, s) && r < J.world && RankOk(J, r, s.ranks[r])
    requires s.ranks[r].step < Last(J) && J.quant && s.ranks[r].metaOut && !s.ranks[r].metaIn
    requires s.links[Prev(J.world, r)] != []
    ensures Measure(J, Pop(s, r, Prev(J.world, r), OnMeta(J, s.ranks[r], s.links[Prev(J.world, r)][0]))) < Measure(J, s)
  {
    hide Inv, Measure, Future, BytesOk, HeldOk, MetaOk, Chosen, PackLaws, Awaits;
    var k, f := s.ranks[r], s.links[Prev(J.world, r)][0];
    PopMeasure(J, s, r, OnMeta(J, k, f));
    if f.ctr == J.ctr {
      Awaited(J, s, r);
      TakesMeta(J, r, k, f);
    }
  }

  /** A move that changes the state brings the end closer. */
  lemma ActDecreases<E(!new), M>(J: Job<E, M>, s: Net<E, M>, r: nat)
    requires Valid(J) && Inv(J, s) && Shaped(J, s) && r < J.world
    requires Act(J, s, r) != s
    ensures Measure(J, Act(J, s, r)) < Measure(J, s)
  {
    hide Inv, Measure, Exchange, OnMeta, Future, BytesOk, HeldOk, MetaOk, Chosen, PackLaws, Fits;
    InvShaped(J, s);
    var k, p := s.ranks[r], Prev(J.world, r);
    if J.quant && !k.metaOut {
      SendsMeta(J, r, k);
      PutMeasure(J, s, r, k.(metaOut := true), Frame(J.ctr, k.step, Meta(k.meta)));
    } else if J.quant && !k.metaIn {
      MetaDecreases(J, s, r);
    } else {
      ExchangeDecreases(J, s, r);
    }
  }

  // Some rank can always move -----------------------------------------------------------------------

  ghost predicate CanMove<E(!new), M>(J: Job<E, M>, s: Net<E, M>, r: nat)
    requires Valid(J) && Shaped(J, s)
  {
    r < J.world && Act(J, s, r) != s
  }

  lemma {:induction false} CutSteps<M>(ctr: nat, step: nat, w: seq<Byte>, piece: nat, b: nat)
    requires piece > 0
    ensures forall i :: 0 <= i < |Cut<M>(ctr, step, w, piece, b)| ==>
      Cut<M>(ctr, step, w, piece, b)[i].step == step && Cut<M>(ctr, step, w, piece, b)[i].body.Data?
    decreases |w| - b
  {
    if b < |w| { CutSteps<M>(ctr, step, w, piece, b + Min(piece, |w| - b)); }
  }

  /** What is sent from step `t` on is sent for step `t` or a later one. */
  lemma {:induction false} FutureSteps<E(!new), M>(J: Job<E, M>, r: nat, t: nat, m: bool, b: nat)
    requires Valid(J) && r < J.world
    ensures forall i :: 0 <= i < |Future(J, r, t, m, b)| ==> Future(J, r, t, m, b)[i].step >= t
    decreases Last(J) - t
  {
    hide Cut, Wire, WireMeta, PackLaws;
    if t < Last(J) {
      FutureSteps(J, r, t + 1, false, 0);
      CutSteps<M>(J.ctr, t, Wire(J, r, t), J.pieces[r], b);
    }
  }

  /** A rank's predecessor owes it a frame of its own step. */
  ghost predicate Owed<E(!new), M>(J: Job<E, M>, s: Net<E, M>, r: nat, data: bool)
    requires Valid(J) && |s.ranks| == |s.links| == J.world && r < J.world
  {
    var p := Prev(J.world, r);
    var fs := ToSend(J, p, s.ranks[p]);
    fs != [] && fs[0].step == s.ranks[r].step && fs[0].body.Data? == data
  }

  lemma EmptyLink<E(!new), M>(J: Job<E, M>, s: Net<E, M>, r: nat)
    requires Valid(J) && Inv(J, s) && r < J.world && s.links[Prev(J.world, r)] == []
    ensures ToSend(J, Prev(J.world, r), s.ranks[Prev(J.world, r)]) == ToReceive(J, Prev(J.world, r), s.ranks[r])
  {
    hide RankOk, Fits, ToSend, ToReceive, PackLaws;
    InvShaped(J, s);
    var p := Prev(J.world, r);
    assert LinkOk(J, p, s.links[p], s.ranks[p], s.ranks[r]);
    assert [] + ToSend(J, p, s.ranks[p]) == ToSend(J, p, s.ranks[p]);
  }

  lemma OwedMeta<E(!new), M>(J: Job<E, M>, s: Net<E, M>, r: nat)
    requires Valid(J) && Inv(J, s) && r < J.world && s.links[Prev(J.world, r)] == []
    requires s.ranks[r].step < Last(J) && J.quant && !s.ranks[r].metaIn
    ensures Owed(J, s, r, false)
  {
    hide RankOk, Cut, Wire, WireMeta, PackLaws, RankPred, LinkPred;
    EmptyLink(J, s, r);
  }

  lemma OwedData<E(!new), M>(J: Job<E, M>, s: Net<E, M>, r: nat)
    requires Valid(J) && Inv(J, s) && Shaped(J, s) && r < J.world && s.links[Prev(J.world, r)] == []
    requires s.ranks[r].step < Last(J) && (J.quant ==> s.ranks[r].metaIn)
    requires s.ranks[r].recvd < Bytes(J, s.ranks[r].rx)
    ensures Owed(J, s, r, true)
  {
    hide Inv, Fits, Future, Wire, Cut, WireMeta, PackLaws, HeldOk, MetaOk, BytesOk, Chosen;
    EmptyLink(J, s, r);
    InvShaped(J, s);
    var p, k := Prev(J.world, r), s.ranks[r];
    RankBytes(J, r, k);
    FutureData(J, p, k.step, k.metaIn, k.recvd);
    CutStep<M>(J.ctr, k.step, Wire(J, p, k.step), J.pieces[p], k.recvd, Future(J, p, k.step + 1, false, 0));
  }

  /** The first frame a rank has to send tells where the rank is. */
  lemma FirstFrame<E(!new), M>(J: Job<E, M>, p: nat, t: nat, m: bool, b: nat)
    requires Valid(J) && p < J.world && t < Last(J) && b <= |Wire(J, p, t)|
    requires var fs := Future(J, p, t, m, b); fs != [] && fs[0].step == t
    ensures
      var data := Future(J, p, t, m, b)[0].body.Data?;
      && (J.quant ==> m == data)
      && (data ==> b < |Wire(J, p, t)|)
  {
    hide Cut, Wire, WireMeta, PackLaws;
    if J.quant ==> m {
      FutureSteps(J, p, t + 1, false, 0);
      CutSteps<M>(J.ctr, t, Wire(J, p, t), J.pieces[p], b);
      if b == |Wire(J, p, t)| { FutureDone(J, p, t, m, b); }
    }
  }

  /** A rank that owes a frame to a successor that is not ahead of it has not left the frame's step. */
  lemma OwesInStep<E(!new), M>(J: Job<E, M>, s: Net<E, M>, r: nat, data: bool)
    requires Valid(J) && Inv(J, s) && Shaped(J, s) && r < J.world && Owed(J, s, r, data)
    requires s.ranks[r].step <= s.ranks[Prev(J.world, r)].step
    ensures
      var k := s.ranks[Prev(J.world, r)];
      && k.step == s.ranks[r].step < Last(J)
      && (J.quant ==> k.metaOut == data)
      && (data ==> k.sent < Bytes(J, k.tx))
  {
    hide Inv, Wire, Cut, PackLaws, HeldOk, MetaOk, BytesOk, Chosen;
    InvShaped(J, s);
    var p := Prev(J.world, r);
    var k := s.ranks[p];
    FutureSteps(J, p, k.step, k.metaOut, k.sent);
    RankBytes(J, p, k);
    FirstFrame(J, p, k.step, k.metaOut, k.sent);
  }

  ghost predicate Slowest<E, M>(s: Net<E, M>, r: nat)
  {
    r < |s.ranks| && forall j :: 0 <= j < |s.ranks| ==> s.ranks[r].step <= s.ranks[j].step
  }

  lemma {:induction false} SlowestExists<E, M>(s: Net<E, M>, n: nat) returns (r: nat)
    requires 0 < n <= |s.ranks|
    ensures r < n && forall j :: 0 <= j < n ==> s.ranks[r].step <= s.ranks[j].step
  {
    if n == 1 {
      r := 0;
    } else {
      r := SlowestExists(s, n - 1);
      if s.ranks[n - 1].step < s.ranks[r].step { r := n - 1; }
    }
  }

  lemma PutMoves<E, M>(s: Net<E, M>, r: nat, k: Rank<E, M>, f: Frame<M>)
    requires r < |s.ranks| && r < |s.links|
    ensures Put(s, r, k, f) != s
  {
    assert |Put(s, r, k, f).links[r]| == |s.links[r]| + 1;
  }

  lemma PopMoves<E, M>(s: Net<E, M>, r: nat, p: nat, k: Rank<E, M>)
    requires r < |s.ranks| && p < |s.links| && s.links[p] != []
    ensures Pop(s, r, p, k) != s
  {
    assert |Pop(s, r, p, k).links[p]| == |s.links[p]| - 1;
  }

  lemma MoveMoves<E, M>(s: Net<E, M>, r: nat, k: Rank<E, M>)
    requires r < |s.ranks| && k != s.ranks[r]
    ensures Move(s, r, k) != s
  {
    assert Move(s, r, k).ranks[r] == k;
  }

  /** Waiting for metadata at the slowest step: the frame is there, or its sender can send it. */
  lemma MetaProgress<E(!new), M>(J: Job<E, M>, s: Net<E, M>, r: nat)
    requires Valid(J) && Inv(J, s) && Shaped(J, s) && r < J.world && Slowest(s, r)
    requires !s.ranks[r].failed && s.ranks[r].step < Last(J) && J.quant && s.ranks[r].metaOut && !s.ranks[r].metaIn
    ensures
      var p := Prev(J.world, r);
      CanMove(J, s, r) || (CanMove(J, s, p) && s.ranks[p].step == s.ranks[r].step && !s.ranks[p].metaOut)
  {
    hide Inv, Exchange, OnMeta, PackLaws, Fits, Owed;
    var p := Prev(J.world, r);
    if s.links[p] != [] {
      PopMoves(s, r, p, OnMeta(J, s.ranks[r], s.links[p][0]));
    } else {
      OwedMeta(J, s, r);
      OwesInStep(J, s, r, false);
      InvShaped(J, s);
      var k := s.ranks[p];
      PutMoves(s, p, k.(metaOut := true), Frame(J.ctr, k.step, Meta(k.meta)));
    }
  }

  /** A rank with data left to send moves. */
  lemma SenderMoves<E(!new), M>(J: Job<E, M>, s: Net<E, M>, r: nat)
    requires Valid(J) && Shaped(J, s) && r < J.world
    requires s.ranks[r].sent < Bytes(J, s.ranks[r].tx)
    ensures Exchange(J, s, r) != s
  {
    hide OnData, Piece, PackLaws, Enter;
    var k, p := s.ranks[r], Prev(J.world, r);
    if k.sendTurn {
      PutMoves(s, r, AfterSend(J, r, k), Piece(J, r, k));
    } else {
      MoveMoves(s, r, k.(sendTurn := true));
      if s.links[p] != [] { PopMoves(s, r, p, OnData(J, k, s.links[p][0])); }
    }
  }

  /** A rank that has sent everything moves unless it waits for data. */
  lemma DoneMoves<E(!new), M>(J: Job<E, M>, s: Net<E, M>, r: nat)
    requires Valid(J) && Shaped(J, s) && r < J.world
    requires s.ranks[r].sent >= Bytes(J, s.ranks[r].tx)
    requires s.ranks[r].recvd >= Bytes(J, s.ranks[r].rx) || s.links[Prev(J.world, r)] != []
    ensures Exchange(J, s, r) != s
  {
    hide OnData, Piece, PackLaws;
    var k, p := s.ranks[r], Prev(J.world, r);
    if k.recvd < Bytes(J, k.rx) {
      PopMoves(s, r, p, OnData(J, k, s.links[p][0]));
    } else {
      MoveMoves(s, r, AfterStep(J, r, k));
    }
  }

  lemma DataProgress<E(!new), M>(J: Job<E, M>, s: Net<E, M>, r: nat) returns (j: nat)
    requires Valid(J) && Inv(J, s) && Shaped(J, s) && r < J.world && Slowest(s, r)
    requires !s.ranks[r].failed && s.ranks[r].step < Last(J) && (J.quant ==> s.ranks[r].metaOut && s.ranks[r].metaIn)
    ensures CanMove(J, s, j) && s.ranks[j].step == s.ranks[r].step
  {
    hide Inv, Exchange, PackLaws, Owed;
    var k, p := s.ranks[r], Prev(J.world, r);
    j := r;
    if k.sent < Bytes(J, k.tx) {
      SenderMoves(J, s, r);
    } else if k.recvd >= Bytes(J, k.rx) || s.links[p] != [] {
      DoneMoves(J, s, r);
    } else {
      OwedData(J, s, r);
      OwesInStep(J, s, r, true);
      InvShaped(J, s);
      j := p;
      if J.quant && !s.ranks[p].metaIn {
        MetaProgress(J, s, p);
        if !CanMove(J, s, p) { j := Prev(J.world, p); }
      } else {
        SenderMoves(J, s, p);
      }
    }
  }

  /** Deadlock freedom: as long as some rank has not finished, some rank can move, one that is behind all others or
      level with them. */
  lemma Progress<E(!new), M>(J: Job<E, M>, s: Net<E, M>) returns (j: nat)
    requires Valid(J) && Inv(J, s) && Shaped(J, s) && !Finished(J, s)
    ensures CanMove(J, s, j) && Slowest(s, j)
  {
    hide Inv, Exchange, Fits, Chosen, MetaOk, BytesOk, HeldOk, PackLaws;
    InvShaped(J, s);
    var r := SlowestExists(s, J.world);
    var k := s.ranks[r];
    if J.quant && !k.metaOut {
      j := r;
      PutMoves(s, r, k.(metaOut := true), Frame(J.ctr, k.step, Meta(k.meta)));
    } else if J.quant && !k.metaIn {
      MetaProgress(J, s, r);
      j := if CanMove(J, s, r) then r else Prev(J.world, r);
    } else {
      j := DataProgress(J, s, r);
    }
  }

  // Fair schedules ----------------------------------------------------------------------------------

  ghost predicate Legal<E, M>(J: Job<E, M>, schedule: seq<nat>) {
    forall i :: 0 <= i < |schedule| ==> schedule[i] < J.world
  }

  lemma {:induction false} RunAppend<E(!new), M>(J: Job<E, M>, s: Net<E, M>, a: seq<nat>, b: seq<nat>)
    requires Valid(J) && Shaped(J, s) && Legal(J, a) && Legal(J, b)
    ensures Legal(J, a + b) && Run(J, s, a + b) == Run(J, Run(J, s, a), b)
    decreases |b|
  {
    hide Act, Shaped, Valid;
    if b == [] {
      assert a + b == a;
    } else {
      var front := b[..|b| - 1];
      RunAppend(J, s, a, front);
      assert (a + b)[..|a + b| - 1] == a + front;
    }
  }

  /** A schedule that brings the end no closer did not move any rank. */
  lemma {:induction false} RunDecreases<E(!new), M>(J: Job<E, M>, s: Net<E, M>, schedule: seq<nat>)
    requires Valid(J) && Safe(J) && Calm(J, s) && Legal(J, schedule)
    ensures Measure(J, Run(J, s, schedule)) <= Measure(J, s)
    ensures Measure(J, Run(J, s, schedule)) == Measure(J, s) ==>
      Run(J, s, schedule) == s && forall i :: 0 <= i < |schedule| ==> Act(J, s, schedule[i]) == s
    decreases |schedule|
  {
    hide Inv, Act, Measure, Fits, PackLaws, Safe, Paced;
    if schedule != [] {
      var front, last := schedule[..|schedule| - 1], schedule[|schedule| - 1];
      RunDecreases(J, s, front);
      RunInv(J, s, front);
      var mid := Run(J, s, front);
      if Act(J, mid, last) != mid { ActDecreases(J, mid, last); }
    }
  }

  /** Every rank gets a turn. */
  ghost predicate Round<E, M>(J: Job<E, M>, block: seq<nat>) {
    Legal(J, block) && forall r :: 0 <= r < J.world ==> r in block
  }

  lemma RoundProgress<E(!new), M>(J: Job<E, M>, s: Net<E, M>, block: seq<nat>)
    requires Valid(J) && Safe(J) && Calm(J, s) && Round(J, block) && !Finished(J, s)
    ensures Measure(J, Run(J, s, block)) < Measure(J, s)
  {
    hide Inv, Act, Measure, Fits, PackLaws, Safe, Paced;
    RunDecreases(J, s, block);
    var j := Progress(J, s);
    assert j in block;
  }

  lemma {:induction false} FinishedStays<E(!new), M>(J: Job<E, M>, s: Net<E, M>, schedule: seq<nat>)
    requires Valid(J) && Shaped(J, s) && Legal(J, schedule) && Finished(J, s)
    ensures Run(J, s, schedule) == s
    decreases |schedule|
  {
    hide Exchange, OnMeta, Fits, PackLaws;
    if schedule != [] { FinishedStays(J, s, schedule[..|schedule| - 1]); }
  }

  function Flat(blocks: seq<seq<nat>>): seq<nat> {
    if blocks == [] then [] else blocks[0] + Flat(blocks[1..])
  }

  lemma {:induction false} FlatLegal<E, M>(J: Job<E, M>, blocks: seq<seq<nat>>)
    requires forall i :: 0 <= i < |blocks| ==> Round(J, blocks[i])
    ensures Legal(J, Flat(blocks))
    decreases |blocks|
  {
    if blocks != [] { FlatLegal(J, blocks[1..]); }
  }

  /** Whatever the interleaving, once every rank has had enough turns all of them have finished. */
  lemma {:induction false} FairFinishes<E(!new), M>(J: Job<E, M>, s: Net<E, M>, blocks: seq<seq<nat>>)
    requires Valid(J) && Safe(J) && Calm(J, s)
    requires forall i :: 0 <= i < |blocks| ==> Round(J, blocks[i])
    requires |blocks| >= Measure(J, s)
    ensures Legal(J, Flat(blocks)) && Finished(J, Run(J, s, Flat(blocks)))
    decreases |blocks|
  {
    hide Inv, Act, Measure, Fits, PackLaws, Safe, Paced;
    FlatLegal(J, blocks);
    if Finished(J, s) {
      FinishedStays(J, s, Flat(blocks));
    } else {
      var j := Progress(J, s);
      ActDecreases(J, s, j);
      var next := Run(J, s, blocks[0]);
      RoundProgress(J, s, blocks[0]);
      RunInv(J, s, blocks[0]);
      FairFinishes(J, next, blocks[1..]);
      RunAppend(J, s, blocks[0], Flat(blocks[1..]));
    }
  }
}
