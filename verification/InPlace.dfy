/** Why piece sizes matter with quantization: a rank forwards a chunk from the buffer it receives the next one into.
    In every run the bytes yet to be sent are intact, whatever the contents, exactly if every forwarding step meets
    its size condition. */
module InPlace {
  import opened Streaming
  import opened RingSpec
  import opened Ring
  import opened RingProof
  import opened RingProgress
  import opened AllReduce

  // Lengths of what is left to send -----------------------------------------------------------------

  lemma {:induction false} CutShrinks<M>(ctr: nat, step: nat, w: seq<Byte>, piece: nat, a: nat, b: nat)
    requires piece > 0 && a <= b
    ensures |Cut<M>(ctr, step, w, piece, b)| <= |Cut<M>(ctr, step, w, piece, a)|
    decreases |w| - a
  {
    if b < |w| { CutShrinks<M>(ctr, step, w, piece, a + Min(piece, |w| - a), b + Min(piece, |w| - b)); }
  }

  lemma FutureParts<E(!new), M>(J: Job<E, M>, p: nat, t: nat, m: bool, b: nat)
    requires Valid(J) && p < J.world && t < Last(J) && J.quant
    ensures |Future(J, p, t, m, b)|
         == |Cut<M>(J.ctr, t, Wire(J, p, t), J.pieces[p], b)| + |Future(J, p, t + 1, false, 0)| + if m then 0 else 1
  {
    hide Cut, Wire, WireMeta, PackLaws;
  }

  lemma {:induction false} FutureShrinks<E(!new), M>(J: Job<E, M>, p: nat, t: nat, t': nat, m: bool, b: nat)
    requires Valid(J) && p < J.world && t <= t' <= Last(J) && J.quant
    ensures |Future(J, p, t', m, b)| <= |Future(J, p, t, false, 0)|
    decreases t' - t
  {
    hide Cut, Wire, WireMeta, PackLaws, Future;
    if t == Last(J) {
      FutureEnd(J, p, t, m, b);
    } else {
      FutureParts(J, p, t, false, 0);
      if t < t' {
        FutureShrinks(J, p, t + 1, t', m, b);
      } else {
        FutureParts(J, p, t, m, b);
        CutShrinks<M>(J.ctr, t, Wire(J, p, t), J.pieces[p], 0, b);
      }
    }
  }

  lemma FutureEnd<E(!new), M>(J: Job<E, M>, p: nat, t: nat, m: bool, b: nat)
    requires Valid(J) && p < J.world && t >= Last(J)
    ensures Future(J, p, t, m, b) == []
  {
  }

  lemma {:induction false} PackedSome(n: nat, q: nat)
    requires ValidWidth(q) && Aligned(n, q) && n > 0
    ensures PackedBytes(n, q) > 0
  {
    PackedCount(n, q);
  }

  lemma ChunkSome<E(!new), M>(J: Job<E, M>, c: nat)
    requires Valid(J) && J.quant && c < J.world
    ensures Bytes(J, c) > 0
  {
    hide PackLaws;
    PackedSome(J.sizes[c], J.q);
  }

  // Letting the others go on ------------------------------------------------------------------------

  /** The predecessor of `r` has not put the first data of step `t` on the link. */
  ghost predicate Behind<E(!new), M>(J: Job<E, M>, s: Net<E, M>, r: nat, t: nat)
    requires Valid(J) && |s.ranks| == J.world && r < J.world
  {
    var p := Prev(J.world, r);
    |ToSend(J, p, s.ranks[p])| >= |Future(J, p, t, true, 0)|
  }

  /** Then it is in step `t` or before, and in step `t` it has data left to send. */
  lemma BehindWhere<E(!new), M>(J: Job<E, M>, s: Net<E, M>, r: nat, t: nat)
    requires Valid(J) && J.quant && Inv(J, s) && Shaped(J, s) && r < J.world && t < Last(J) && Behind(J, s, r, t)
    ensures
      var k := s.ranks[Prev(J.world, r)];
      k.step <= t && (k.step == t ==> k.sent < Bytes(J, k.tx))
  {
    hide Inv, Future, Cut, Wire, PackLaws, BytesOk, HeldOk, MetaOk, Chosen, Fits;
    InvShaped(J, s);
    var p := Prev(J.world, r);
    var k := s.ranks[p];
    FutureParts(J, p, t, true, 0);
    WireSome(J, p, t);
    if k.step > t {
      FutureShrinks(J, p, t + 1, k.step, k.metaOut, k.sent);
    } else if k.step == t {
      RankBytes(J, p, k);
      FutureParts(J, p, t, k.metaOut, k.sent);
      MetaFirst(J, p, k);
      CutEnd<M>(J.ctr, t, Wire(J, p, t), J.pieces[p], k.sent);
    }
  }

  lemma WireSome<E(!new), M>(J: Job<E, M>, p: nat, t: nat)
    requires Valid(J) && J.quant && p < J.world && t < Last(J)
    ensures |Wire(J, p, t)| > 0 && Cut<M>(J.ctr, t, Wire(J, p, t), J.pieces[p], 0) != []
  {
    hide PackLaws, Partial;
    ChunkSome(J, TxChunk(J.world, p, t));
  }

  lemma CutEnd<M>(ctr: nat, step: nat, w: seq<Byte>, piece: nat, b: nat)
    requires piece > 0
    ensures b >= |w| ==> Cut<M>(ctr, step, w, piece, b) == []
  {
  }

  /** Data is sent after the metadata was sent and received. */
  lemma MetaFirst<E(!new), M>(J: Job<E, M>, p: nat, k: Rank<E, M>)
    requires Valid(J) && J.quant && p < J.world && k.step < Last(J) && RankOk(J, p, k)
    ensures k.sent > 0 ==> k.metaOut && k.metaIn
  {
    hide PackLaws, WireMeta, BytesOk, HeldOk, Chosen, Fits;
  }

  /** While `r` stands still after its metadata, some other rank can move until the first data is on its link. */
  lemma OthersMove<E(!new), M>(J: Job<E, M>, s: Net<E, M>, r: nat) returns (j: nat)
    requires Valid(J) && J.quant && Inv(J, s) && Shaped(J, s) && r < J.world && s.ranks[r].step < Last(J)
    requires s.ranks[r].metaOut && Behind(J, s, r, s.ranks[r].step)
    ensures CanMove(J, s, j) && j != r
  {
    hide Inv, Behind, Exchange, PackLaws, Fits, BytesOk, HeldOk, MetaOk, Chosen, Measure;
    var t, p := s.ranks[r].step, Prev(J.world, r);
    BehindWhere(J, s, r, t);
    InvShaped(J, s);
    var low := SlowestExists(s, J.world);
    if s.ranks[low].step < t {
      j := Progress(J, s);
    } else {
      var k := s.ranks[p];
      j := p;
      if !k.metaOut {
        PutMoves(s, p, k.(metaOut := true), Frame(J.ctr, k.step, Meta(k.meta)));
      } else if !k.metaIn {
        MetaProgress(J, s, p);
        if !CanMove(J, s, p) { j := Prev(J.world, p); }
      } else {
        SenderMoves(J, s, p);
      }
    }
  }

  // A run in which a rank is overtaken --------------------------------------------------------------

  /** Nobody was overtaken so far, and the next move of `q` receives over unsent bytes. */
  ghost predicate Overtakes<E(!new), M>(J: Job<E, M>, s: Net<E, M>, q: nat)
    requires Valid(J)
  {
    && Inv(J, s) && Shaped(J, s) && q < J.world && s.ranks[q].step < Last(J)
    && Overtaken(J, Act(J, s, q).ranks[q])
  }

  lemma MoversGo<E(!new), M>(J: Job<E, M>, s: Net<E, M>, j: nat)
    requires Valid(J) && Shaped(J, s) && CanMove(J, s, j)
    ensures s.ranks[j].step < Last(J)
  {
  }

  ghost predicate Fresh<E, M>(k: Rank<E, M>) { !k.metaOut && !k.metaIn && k.sent == 0 == k.recvd && k.sendTurn }

  lemma StepByOne<E(!new), M>(J: Job<E, M>, s: Net<E, M>, j: nat, r: nat)
    requires Valid(J) && Shaped(J, s) && j < J.world && r < J.world
    ensures
      var k, k' := s.ranks[r], Act(J, s, j).ranks[r];
      && (j != r ==> k' == k)
      && (k'.step == k.step || (k'.step == k.step + 1 && Fresh(k')))
  {
    hide PackLaws, Fits, Piece, Absorb, Overwrite;
    ActOthers(J, s, j);
  }

  lemma RunCons<E(!new), M>(J: Job<E, M>, s: Net<E, M>, j: nat, a: seq<nat>)
    requires Valid(J) && Shaped(J, s) && j < J.world && Legal(J, a)
    ensures Legal(J, [j] + a) && Run(J, s, [j] + a) == Run(J, Act(J, s, j), a)
  {
    hide Act, Shaped, Valid;
    assert [j][..0] == [];
    assert Run(J, s, [j]) == Act(J, s, j);
    RunAppend(J, s, [j], a);
  }

  /** Either somebody is overtaken before, or rank `r` comes to step `t`. */
  lemma {:induction false} Approach<E(!new), M>(J: Job<E, M>, s: Net<E, M>, r: nat, t: nat)
    returns (a: seq<nat>, hit: bool, q: nat)
    requires Valid(J) && Inv(J, s) && Shaped(J, s) && r < J.world && t < Last(J)
    requires s.ranks[r].step < t || (s.ranks[r].step == t && Fresh(s.ranks[r]))
    ensures Legal(J, a)
    ensures var s' := Run(J, s, a);
      if hit then Overtakes(J, s', q) else Inv(J, s') && s'.ranks[r].step == t && Fresh(s'.ranks[r])
    decreases Measure(J, s)
  {
    hide Inv, Act, Measure, Fits, PackLaws, Overtaken;
    a, hit, q := [], false, 0;
    if s.ranks[r].step < t {
      var j := Progress(J, s);
      q := j;
      MoversGo(J, s, j);
      hit := Overtaken(J, Act(J, s, j).ranks[j]);
      if !hit {
        ActInv(J, s, j);
        ActDecreases(J, s, j);
        StepByOne(J, s, j, r);
        a, hit, q := Approach(J, Act(J, s, j), r, t);
        RunCons(J, s, j, a);
        a := [j] + a;
      }
    }
  }

  /** Rank `r` stands still until its predecessor's first data is on the link. */
  lemma {:induction false} StandStill<E(!new), M>(J: Job<E, M>, s: Net<E, M>, r: nat)
    returns (a: seq<nat>, hit: bool, q: nat)
    requires Valid(J) && J.quant && Inv(J, s) && Shaped(J, s) && r < J.world && s.ranks[r].step < Last(J)
    requires s.ranks[r].metaOut
    ensures Legal(J, a)
    ensures var s' := Run(J, s, a);
      if hit then Overtakes(J, s', q)
      else Inv(J, s') && s'.ranks[r] == s.ranks[r] && !Behind(J, s', r, s.ranks[r].step)
    decreases Measure(J, s)
  {
    hide Inv, Act, Measure, Fits, PackLaws, Overtaken, Behind;
    a, hit, q := [], false, 0;
    if Behind(J, s, r, s.ranks[r].step) {
      var j := OthersMove(J, s, r);
      q := j;
      MoversGo(J, s, j);
      hit := Overtaken(J, Act(J, s, j).ranks[j]);
      if !hit {
        ActInv(J, s, j);
        ActDecreases(J, s, j);
        StepByOne(J, s, j, r);
        a, hit, q := StandStill(J, Act(J, s, j), r);
        RunCons(J, s, j, a);
        a := [j] + a;
      }
    }
  }

  /** Nothing of the step was received, and nothing sent but the first piece. */
  ghost predicate Poised<E(!new), M>(J: Job<E, M>, r: nat, k: Rank<E, M>)
    requires Valid(J) && r < J.world && Fits(J, k)
  {
    && k.step < Last(J) && k.metaOut && k.recvd == 0
    && if k.sendTurn then k.sent == 0 else k.metaIn && k.sent == Min(J.pieces[r], Bytes(J, k.tx))
  }

  /** The link holds what the rank waits for. */
  lemma LinkFilled<E(!new), M>(J: Job<E, M>, s: Net<E, M>, r: nat)
    requires Valid(J) && J.quant && Inv(J, s) && Shaped(J, s) && r < J.world && Poised(J, r, s.ranks[r])
    requires !Behind(J, s, r, s.ranks[r].step)
    ensures s.links[Prev(J.world, r)] != []
  {
    hide Inv, Future, Cut, Wire, PackLaws, RankOk, Fits;
    var p, k := Prev(J.world, r), s.ranks[r];
    if s.links[p] == [] {
      EmptyLink(J, s, r);
      FutureParts(J, p, k.step, k.metaIn, 0);
      FutureParts(J, p, k.step, true, 0);
    }
  }

  /** Then the rank receives the first piece, which is longer than the one it sent. */
  lemma {:induction false} Receive<E(!new), M>(J: Job<E, M>, s: Net<E, M>, r: nat) returns (a: seq<nat>)
    requires Valid(J) && J.quant && Inv(J, s) && Shaped(J, s) && r < J.world && Poised(J, r, s.ranks[r])
    requires !Behind(J, s, r, s.ranks[r].step)
    requires J.world <= s.ranks[r].step < Last(J) && !Meets(J, r, s.ranks[r].step)
    ensures Legal(J, a) && Overtakes(J, Run(J, s, a), r)
    decreases Measure(J, s)
  {
    hide Inv, Act, Measure, Fits, PackLaws, Overtaken, Behind, Poised, Meets;
    a := [];
    if !Overtaken(J, Act(J, s, r).ranks[r]) {
      LinkFilled(J, s, r);
      PoisedMove(J, s, r);
      ActInv(J, s, r);
      ActDecreases(J, s, r);
      SameBehind(J, s, r);
      a := Receive(J, Act(J, s, r), r);
      RunCons(J, s, r, a);
      a := [r] + a;
    }
  }

  lemma SameBehind<E(!new), M>(J: Job<E, M>, s: Net<E, M>, r: nat)
    requires Valid(J) && Shaped(J, s) && r < J.world
    ensures forall t :: Behind(J, Act(J, s, r), r, t) <==> Behind(J, s, r, t)
  {
    hide Act, Fits, PackLaws, Future;
    ActOthers(J, s, r);
  }

  /** What a move of a poised rank is. */
  lemma PoisedAct<E(!new), M>(J: Job<E, M>, s: Net<E, M>, r: nat)
    requires Valid(J) && J.quant && Shaped(J, s) && r < J.world && Poised(J, r, s.ranks[r]) && !s.ranks[r].failed
    requires s.links[Prev(J.world, r)] != []
    ensures
      var k, p := s.ranks[r], Prev(J.world, r);
      && k.recvd < Bytes(J, k.rx)
      && Act(J, s, r) == if !k.metaIn then Pop(s, r, p, OnMeta(J, k, s.links[p][0]))
                         else if k.sendTurn then Put(s, r, AfterSend(J, r, k), Piece(J, r, k))
                         else Pop(s, r, p, OnData(J, k, s.links[p][0]))
  {
    hide PackLaws, OnData, OnMeta, Piece;
    ChunkSome(J, s.ranks[r].tx);
    ChunkSome(J, s.ranks[r].rx);
  }

  lemma PoisedMeta<E(!new), M>(J: Job<E, M>, s: Net<E, M>, r: nat)
    requires Valid(J) && J.quant && Inv(J, s) && Shaped(J, s) && r < J.world && Poised(J, r, s.ranks[r])
    requires s.links[Prev(J.world, r)] != [] && !s.ranks[r].metaIn
    ensures
      var k' := OnMeta(J, s.ranks[r], s.links[Prev(J.world, r)][0]);
      Fits(J, k') && Poised(J, r, k') && k'.step == s.ranks[r].step
  {
    hide Inv, PackLaws, BytesOk, HeldOk, Awaits;
    InvShaped(J, s);
    var k, f := s.ranks[r], s.links[Prev(J.world, r)][0];
    if f.ctr == J.ctr {
      Awaited(J, s, r);
      TakesMeta(J, r, k, f);
    }
  }

  lemma PoisedSend<E(!new), M>(J: Job<E, M>, r: nat, k: Rank<E, M>)
    requires Valid(J) && r < J.world && Fits(J, k) && Poised(J, r, k) && k.metaIn && k.sendTurn
    ensures Fits(J, AfterSend(J, r, k)) && Poised(J, r, AfterSend(J, r, k))
  {
    hide PackLaws;
  }

  lemma PoisedTake<E(!new), M>(J: Job<E, M>, s: Net<E, M>, r: nat)
    requires Valid(J) && J.quant && Inv(J, s) && Shaped(J, s) && r < J.world && Poised(J, r, s.ranks[r])
    requires s.links[Prev(J.world, r)] != [] && s.ranks[r].metaIn && !s.ranks[r].sendTurn
    requires s.ranks[r].recvd < Bytes(J, s.ranks[r].rx)
    requires s.ranks[r].step >= J.world && !Meets(J, r, s.ranks[r].step)
    ensures
      var k' := OnData(J, s.ranks[r], s.links[Prev(J.world, r)][0]);
      Overtaken(J, k') || k' == s.ranks[r]
  {
    hide Inv, PackLaws, OnData, Awaits, Overtaken, Meets, Poised, Fits, RankOk;
    InvShaped(J, s);
    var k, f := s.ranks[r], s.links[Prev(J.world, r)][0];
    StaleData(J, k, f);
    if f.ctr == J.ctr {
      Awaited(J, s, r);
      FirstOvertakes(J, r, k, f);
    }
  }

  /** A move of the poised rank takes one frame from the link or sends the first piece; the first data overtakes. */
  lemma PoisedMove<E(!new), M>(J: Job<E, M>, s: Net<E, M>, r: nat)
    requires Valid(J) && J.quant && Inv(J, s) && Shaped(J, s) && r < J.world && Poised(J, r, s.ranks[r])
    requires s.links[Prev(J.world, r)] != []
    requires s.ranks[r].step >= J.world && !Meets(J, r, s.ranks[r].step)
    requires !Overtaken(J, Act(J, s, r).ranks[r])
    ensures
      var s' := Act(J, s, r);
      s' != s && Poised(J, r, s'.ranks[r]) && s'.ranks[r].step == s.ranks[r].step
  {
    hide Inv, PackLaws, OnData, OnMeta, Piece, Act, Meets, Overtaken, Poised, Fits;
    InvShaped(J, s);
    var k, p := s.ranks[r], Prev(J.world, r);
    assert !k.failed by { assert RankOk(J, r, k); }
    hide RankOk;
    PoisedAct(J, s, r);
    if !k.metaIn {
      PoisedMeta(J, s, r);
      PopMoves(s, r, p, OnMeta(J, k, s.links[p][0]));
    } else if k.sendTurn {
      PoisedSend(J, r, k);
      PutMoves(s, r, AfterSend(J, r, k), Piece(J, r, k));
    } else {
      PoisedTake(J, s, r);
      PopMoves(s, r, p, OnData(J, k, s.links[p][0]));
    }
  }

  lemma FirstOvertakes<E(!new), M>(J: Job<E, M>, r: nat, k: Rank<E, M>, f: Frame<M>)
    requires Valid(J) && J.quant && r < J.world && RankOk(J, r, k) && Poised(J, r, k) && k.metaIn && !k.sendTurn
    requires k.step >= J.world && !Meets(J, r, k.step) && Awaits(J, r, k, f) && k.recvd < Bytes(J, k.rx)
    ensures Overtaken(J, OnData(J, k, f))
  {
    hide PackLaws, OnData, Overwrite, HeldOk, Wire, Future, Awaits;
    HeadData(J, r, k, f);
    TakenFields(J, k, f.body.bytes);
  }

  /** A step that does not meet the condition: from every start some run overtakes a rank. */
  lemma SomeRunOvertakes<E(!new), M>(J: Job<E, M>, s: Net<E, M>, r: nat, t: nat) returns (a: seq<nat>, q: nat)
    requires Valid(J) && J.quant && Init(J, s) && r < J.world && J.world <= t < Last(J) && !Meets(J, r, t)
    ensures Shaped(J, s) && Legal(J, a) && Overtakes(J, Run(J, s, a), q)
  {
    hide Inv, Act, Measure, Fits, PackLaws, Overtaken, Behind, Poised, Meets;
    InitCalm(J, s);
    var hit;
    assert s.ranks[r].step == 0;
    a, hit, q := Approach(J, s, r, t);
    if !hit {
      var s1 := Run(J, s, a);
      var b, c;
      Announces(J, s1, r);
      var s2 := Act(J, s1, r);
      b, hit, q := StandStill(J, s2, r);
      RunCons(J, s1, r, b);
      if hit {
        RunAppend(J, s, a, [r] + b);
        a := a + ([r] + b);
      } else {
        var s3 := Run(J, s2, b);
        c := Receive(J, s3, r);
        q := r;
        RunAppend(J, s2, b, c);
        RunCons(J, s1, r, b + c);
        RunAppend(J, s, a, [r] + (b + c));
        a := a + ([r] + (b + c));
      }
    }
  }

  lemma Announces<E(!new), M>(J: Job<E, M>, s: Net<E, M>, r: nat)
    requires Valid(J) && J.quant && Inv(J, s) && Shaped(J, s) && r < J.world && s.ranks[r].step < Last(J) && Fresh(s.ranks[r])
    ensures
      var s' := Act(J, s, r);
      Inv(J, s') && s'.ranks[r].step == s.ranks[r].step && s'.ranks[r].metaOut && Poised(J, r, s'.ranks[r])
  {
    hide Inv, PackLaws, Exchange;
    InvShaped(J, s);
    ActInv(J, s, r);
  }

  // What that does to the bytes ---------------------------------------------------------------------

  /** What a rank has yet to send in its step is what the step set out to send. */
  ghost predicate Intact<E(!new), M>(J: Job<E, M>, s: Net<E, M>, r: nat)
    requires Valid(J) && Shaped(J, s) && r < J.world
  {
    var k := s.ranks[r];
    k.step < Last(J) ==>
      k.sent <= |Wire(J, r, k.step)| == |TxBytes(J, k)| && TxBytes(J, k)[k.sent..] == Wire(J, r, k.step)[k.sent..]
  }

  /** The rank after a move that is not the receipt of a live frame is not overtaken if it was not before. */
  lemma OtherMoves<E(!new), M>(J: Job<E, M>, s: Net<E, M>, q: nat)
    requires Valid(J) && Shaped(J, s) && q < J.world && !Overtaken(J, s.ranks[q])
    ensures
      var k, link := s.ranks[q], s.links[Prev(J.world, q)];
      Overtaken(J, Act(J, s, q).ranks[q]) ==>
        && k.step < Last(J) && (J.quant ==> k.metaOut && k.metaIn) && k.recvd < Bytes(J, k.rx)
        && link != [] && Act(J, s, q).ranks[q] == OnData(J, k, link[0])
  {
    hide PackLaws, OnData, Piece, Enter;
  }

  /** Only receiving data overtakes. */
  lemma OvertakenBy<E(!new), M>(J: Job<E, M>, s: Net<E, M>, q: nat)
    requires Valid(J) && Overtakes(J, s, q)
    ensures
      var k, link := s.ranks[q], s.links[Prev(J.world, q)];
      && k.step < Last(J) && (J.quant ==> k.metaOut && k.metaIn) && k.recvd < Bytes(J, k.rx)
      && link != [] && link[0].ctr == J.ctr && Act(J, s, q).ranks[q] == OnData(J, k, link[0])
  {
    hide Inv, PackLaws, OnData, Act, Fits, HeldOk, MetaOk, Chosen, Overtaken;
    InvShaped(J, s);
    var k, p := s.ranks[q], Prev(J.world, q);
    assert !Overtaken(J, k) by { assert RankOk(J, q, k); }
    OtherMoves(J, s, q);
    StaleData(J, k, s.links[p][0]);
  }

  lemma TakenByte<E(!new), M>(J: Job<E, M>, r: nat, k: Rank<E, M>, bytes: seq<Byte>)
    requires Valid(J) && r < J.world && k.step < Last(J) && Fits(J, k) && BytesOk(J, r, k)
    requires k.recvd + |bytes| <= Bytes(J, k.rx) && Overtaken(J, AfterTake(J, k, bytes))
    requires bytes == Wire(J, Prev(J.world, r), k.step)[k.recvd..k.recvd + |bytes|]
    ensures
      var k' := AfterTake(J, k, bytes);
      && k'.step == k.step && k'.sent == k.sent < |Wire(J, r, k.step)| == |TxBytes(J, k')|
      && k.sent < |Wire(J, Prev(J.world, r), k.step)|
      && TxBytes(J, k')[k.sent] == Wire(J, Prev(J.world, r), k.step)[k.sent]
  {
    hide PackLaws, OnData, Wire, Overwrite;
    TakenFields(J, k, bytes);
    var room := Overwrite(k.room, k.recvd, bytes);
    assert room[..k.recvd + |bytes|][k.sent] == bytes[k.sent - k.recvd];
  }

  /** In the overtaking move the byte due next is replaced by one of the chunk being received. */
  lemma OvertakenByte<E(!new), M>(J: Job<E, M>, s: Net<E, M>, q: nat)
    requires Valid(J) && Overtakes(J, s, q)
    ensures
      var k, k' := s.ranks[q], Act(J, s, q).ranks[q];
      && k.step < Last(J) && k'.step == k.step && k.sent == k'.sent < |Wire(J, q, k.step)| == |TxBytes(J, k')|
      && k.sent < |Wire(J, Prev(J.world, q), k.step)|
      && TxBytes(J, k')[k.sent] == Wire(J, Prev(J.world, q), k.step)[k.sent]
  {
    hide Inv, PackLaws, OnData, Wire, Awaits, Fits, BytesOk, HeldOk, MetaOk, Chosen, TxBytes, Overtaken, Act;
    InvShaped(J, s);
    var k, p := s.ranks[q], Prev(J.world, q);
    OvertakenBy(J, s, q);
    var f := s.links[p][0];
    Awaited(J, s, q);
    HeadData(J, q, k, f);
    TakenByte(J, q, k, f.body.bytes);
  }

  // Contents that show it ---------------------------------------------------------------------------

  /** Neighbouring chunks have different bytes. */
  function Stripe(world: nat, c: nat): Byte { if c + 1 == world then 2 else c % 2 }

  lemma StripesDiffer(world: nat, r: nat, t: nat)
    requires world > 2 && r < world && world <= t < 2 * (world - 1)
    ensures Stripe(world, TxChunk(world, r, t)) != Stripe(world, RxChunk(world, r, t))
  {
  }

  function Filled(q: nat, v: seq<Byte>): seq<Byte>
    requires ValidWidth(q)
  {
    seq(PackedBytes(|v|, q), i => if v == [] then 0 else v[0])
  }

  function Filler(q: nat): seq<Byte> -> seq<Byte>
    requires ValidWidth(q)
  {
    (v: seq<Byte>) => Filled(q, v)
  }

  /** An all-reduce of the sizes, widths and pieces of `J`, in which chunk `c` is made of the byte `Stripe(c)` at
      every rank and stays so. */
  ghost function Striped<E(!new), M>(J: Job<E, M>): Job<Byte, ()>
    requires Valid(J)
  {
    var input: seq<seq<seq<Byte>>> := seq(J.world, r => seq(J.world, c requires 0 <= c < J.world => seq(J.sizes[c], i => Stripe(J.world, c))));
    Job(J.world, J.sizes, input, true, J.q, Filler(J.q), (v: seq<Byte>) => (), (), (m: (), s: Slot) => 0, (a: Byte, b: Byte) => a,
        J.pieces, J.ctr, J.room)
  }

  lemma StripedValid<E(!new), M>(J: Job<E, M>)
    requires Valid(J) && J.quant
    ensures Valid(Striped(J))
  {
    var K := Striped(J);
    assert forall v: seq<Byte> :: PackLaw(K, v);
    forall c | 0 <= c < J.world ensures Bytes(K, c) == Bytes(J, c) { }
  }

  ghost predicate AllAre(v: seq<Byte>, b: Byte) { forall i :: 0 <= i < |v| ==> v[i] == b }

  lemma {:induction false} StripedPartial<E(!new), M>(J: Job<E, M>, c: nat, d: nat)
    requires Valid(J) && J.quant && Valid(Striped(J)) && c < J.world && d < J.world
    ensures AllAre(Partial(Striped(J), c, d), Stripe(J.world, c))
    decreases d
  {
    hide Slots;
    var K := Striped(J);
    assert forall r :: 0 <= r < J.world ==> AllAre(K.input[r][c], Stripe(J.world, c));
    if d > 0 {
      var prev := Partial(K, c, d - 1);
      PackCount(K, prev);
      var r := if c + d < J.world then c + d else c + d - J.world;
      var f := Combine(K, true, MetaFor(K, prev));
      forall a: Byte, s: Slot ensures f(a, s) == a { assert K.op(a, K.unpack((), s)) == a; }
      assert AllAre(K.input[r][c], Stripe(J.world, c));
    }
  }

  lemma StripedWire<E(!new), M>(J: Job<E, M>, r: nat, t: nat)
    requires Valid(J) && J.quant && Valid(Striped(J)) && r < J.world && t < Last(J)
    ensures AllAre(Wire(Striped(J), r, t), Stripe(J.world, TxChunk(J.world, r, t)))
  {
    hide Partial;
    var K, c := Striped(J), TxChunk(J.world, r, t);
    StripedPartial(J, c, if t < J.world - 1 then t else J.world - 1);
    assert K.sizes[c] > 0;
  }

  /** The start of a run on clean links. */
  lemma Starts<E(!new), M>(J: Job<E, M>) returns (s: Net<E, M>)
    requires Valid(J)
    ensures Init(J, s) && forall r :: 0 <= r < |s.links| ==> s.links[r] == []
  {
    hide PackLaws, Enter;
    var room: seq<Byte> := seq(J.room, _ => 0);
    s := Net(seq(J.world, r requires 0 <= r < J.world => Enter(J, r, 0, J.input[r], room, J.noMeta, 0)),
             seq(J.world, _ => []));
    forall r | 0 <= r < J.world ensures s.ranks[r].room == room { EnterRoom(J, r, room); }
  }

  lemma EnterRoom<E(!new), M>(J: Job<E, M>, r: nat, room: seq<Byte>)
    requires Valid(J) && r < J.world && |room| == J.room
    ensures Enter(J, r, 0, J.input[r], room, J.noMeta, 0).room == room
  {
    hide PackLaws;
  }

  ghost predicate IntactAfter<E(!new), M>(J: Job<E, M>, s: Net<E, M>, schedule: seq<nat>, r: nat)
    requires Valid(J)
  {
    Init(J, s) && Legal(J, schedule) && r < J.world ==> Shaped(J, s) && Intact(J, Run(J, s, schedule), r)
  }

  /** In every run, at every rank. */
  ghost predicate AlwaysIntact<E(!new), M(!new)>(J: Job<E, M>)
    requires Valid(J)
  {
    forall s: Net<E, M>, schedule: seq<nat>, r: nat :: IntactAfter(J, s, schedule, r)
  }

  /** The same all-reduce with other contents. */
  ghost predicate Alike<E(!new), M>(J: Job<E, M>, K: Job<Byte, ()>)
    requires Valid(J)
  {
    && Valid(K) && K.world == J.world && K.sizes == J.sizes && K.quant == J.quant && K.q == J.q
    && K.pieces == J.pieces && K.ctr == J.ctr && K.room == J.room
  }

  lemma RunIntact<E(!new), M>(J: Job<E, M>, s: Net<E, M>, schedule: seq<nat>, r: nat)
    requires Valid(J) && Safe(J)
    ensures IntactAfter(J, s, schedule, r)
  {
    hide Valid, Safe, Init, Run, Fits, Wire, TxBytes;
    if Init(J, s) && Legal(J, schedule) && r < J.world { UnsentIntact(J, s, schedule, r); }
  }

  lemma SafeIntact<E(!new), M(!new)>(J: Job<E, M>)
    requires Valid(J) && Safe(J)
    ensures AlwaysIntact(J)
  {
    hide Valid, Safe, IntactAfter;
    forall s: Net<E, M>, schedule: seq<nat>, r: nat ensures IntactAfter(J, s, schedule, r) { RunIntact(J, s, schedule, r); }
  }

  lemma AlikeSafe<E(!new), M>(J: Job<E, M>, K: Job<Byte, ()>)
    requires Valid(J) && Alike(J, K)
    ensures Safe(J) <==> Safe(K)
  {
    hide PackLaws;
    forall r, t | 0 <= r < J.world && J.world <= t < Last(J)
      ensures Meets(J, r, t) <==> Meets(K, r, t)
    {
      assert Bytes(J, TxChunk(J.world, r, t)) == Bytes(K, TxChunk(J.world, r, t));
      assert Bytes(J, RxChunk(J.world, r, t)) == Bytes(K, RxChunk(J.world, r, t));
    }
  }

  lemma UnsafeStep<E(!new), M>(J: Job<E, M>) returns (r: nat, t: nat)
    requires Valid(J) && !Safe(J)
    ensures J.quant && r < J.world && J.world <= t < Last(J) && !Meets(J, r, t)
  {
    hide PackLaws, Meets;
    var r0, t0 :| 0 <= r0 < J.world && J.world <= t0 < Last(J) && !Meets(J, r0, t0);
    r, t := r0, t0;
  }

  lemma StripedAlike<E(!new), M>(J: Job<E, M>)
    requires Valid(J) && J.quant
    ensures Alike(J, Striped(J))
  {
    hide PackLaws;
    StripedValid(J);
  }

  /** With striped contents the overtaken byte is wrong. */
  lemma StripedBroken<E(!new), M>(J: Job<E, M>, s: Net<Byte, ()>, q: nat)
    requires Valid(J) && J.quant && Alike(J, Striped(J)) && Overtakes(Striped(J), s, q)
    ensures !Intact(Striped(J), Act(Striped(J), s, q), q)
  {
    hide Striped, Valid, Inv, Act, Wire, TxBytes, Overtaken, Fits, Stripe;
    var K := Striped(J);
    var t := s.ranks[q].step;
    OvertakenByte(K, s, q);
    OvertakenLate(K, s, q);
    StripedWire(J, q, t);
    StripedWire(J, Prev(J.world, q), t);
    ChunksMatch(J.world, q, t);
    StripesDiffer(J.world, q, t);
    var k' := Act(K, s, q).ranks[q];
    assert TxBytes(K, k')[k'.sent..][0] != Wire(K, q, t)[k'.sent..][0];
  }

  lemma OvertakenLate<E(!new), M>(J: Job<E, M>, s: Net<E, M>, q: nat)
    requires Valid(J) && Overtakes(J, s, q)
    ensures J.world <= s.ranks[q].step < Last(J)
  {
    hide Inv, PackLaws, OnData, Wire, Awaits, BytesOk, HeldOk, MetaOk, TxBytes, Act, WireMeta, Absorb, Overwrite;
    InvShaped(J, s);
    var k, p := s.ranks[q], Prev(J.world, q);
    OvertakenBy(J, s, q);
    var f := s.links[p][0];
    Awaited(J, s, q);
    HeadData(J, q, k, f);
    TakenFields(J, k, f.body.bytes);
  }

  /** Contents and a run in which what is yet to be sent is not what should be. */
  lemma Corrupts<E(!new), M>(J: Job<E, M>) returns (s: Net<Byte, ()>, schedule: seq<nat>, q: nat)
    requires Valid(J) && !Safe(J)
    ensures var K := Striped(J);
      && Alike(J, K) && Init(K, s) && Legal(K, schedule) && q < K.world
      && Shaped(K, s) && !Intact(K, Run(K, s, schedule), q)
  {
    var r, t := UnsafeStep(J);
    StripedAlike(J);
    var K := Striped(J);
    AlikeSafe(J, K);
    r, t := UnsafeStep(K);
    s := Starts(K);
    hide Striped, Safe, Valid, Inv, Init, Act, Meets, Intact;
    var a: seq<nat>;
    a, q := SomeRunOvertakes(K, s, r, t);
    StripedBroken(J, Run(K, s, a), q);
    RunLast(K, s, a, q);
    schedule := a + [q];
  }

  lemma RunLast<E(!new), M>(J: Job<E, M>, s: Net<E, M>, a: seq<nat>, q: nat)
    requires Valid(J) && Shaped(J, s) && Legal(J, a) && q < J.world
    ensures Legal(J, a + [q]) && Run(J, s, a + [q]) == Act(J, Run(J, s, a), q)
  {
    hide Act, Shaped, Valid;
    assert (a + [q])[..|a|] == a;
  }

  /** For every all-reduce: what is yet to be sent is intact in every run and whatever the contents, if and only if
      every forwarding step meets the size condition on its two chunks. */
  lemma InPlaceIff<E(!new), M(!new)>(J: Job<E, M>)
    requires Valid(J)
    ensures Safe(J) <==> forall K: Job<Byte, ()> :: Alike(J, K) ==> AlwaysIntact(K)
    ensures Safe(J) ==> AlwaysIntact(J)
  {
    hide Safe, Valid, AlwaysIntact;
    if Safe(J) {
      SafeIntact(J);
      forall K: Job<Byte, ()> | Alike(J, K) ensures AlwaysIntact(K) {
        AlikeSafe(J, K);
        SafeIntact(K);
      }
    } else {
      var s, schedule, q := Corrupts(J);
      NotAlways(Striped(J), s, schedule, q);
    }
  }

  lemma NotAlways<E(!new), M(!new)>(J: Job<E, M>, s: Net<E, M>, schedule: seq<nat>, q: nat)
    requires Valid(J) && Init(J, s) && Legal(J, schedule) && q < J.world && Shaped(J, s) && !Intact(J, Run(J, s, schedule), q)
    ensures !AlwaysIntact(J)
  {
    hide Valid, Init, Run, Shaped, Intact;
    assert !IntactAfter(J, s, schedule, q);
  }
}
