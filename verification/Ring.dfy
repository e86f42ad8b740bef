/** The ring as a distributed system: every rank runs its own exchange steps, one FIFO link per ring edge.
    A rank's behaviour is a function of its state and its incoming link, so an interleaving of the ranks is a
    schedule: the sequence of ranks that move. */
module Ring {
  import opened Streaming
  import opened RingSpec

  datatype Body<M> = Meta(meta: M) | Data(bytes: seq<Byte>)

  /** `step` records what the frame was sent for; receivers do not look at it. */
  datatype Frame<M> = Frame(ctr: nat, step: nat, body: Body<M>)

  /** Where the bytes of the current step are read from. */
  datatype Source = Snapshot(bytes: seq<Byte>) | FromBuffer | FromRoom

  datatype Rank<E, M> = Rank(
    step: nat,
    buf: seq<seq<E>>,      // dst_buf
    room: seq<Byte>,       // receive buffer; in the second phase also what is forwarded
    tx: nat, rx: nat,
    src: Source,
    meta: M, got: M,
    metaOut: bool, metaIn: bool,
    sent: nat, recvd: nat,
    sendTurn: bool,        // the send half of the loop is next
    failed: bool)

  datatype Net<E, M> = Net(ranks: seq<Rank<E, M>>, links: seq<seq<Frame<M>>>)

  function Min(a: nat, b: nat): nat { if a < b then a else b }

  ghost predicate Fits<E(!new), M>(J: Job<E, M>, k: Rank<E, M>)
    requires Valid(J)
  {
    && |k.buf| == J.world && k.tx < J.world && k.rx < J.world
    && (forall c :: 0 <= c < J.world ==> |k.buf[c]| == J.sizes[c])
    && |k.room| == J.room
    && (k.src.Snapshot? ==> |k.src.bytes| == Bytes(J, k.tx))
    && k.sent <= Bytes(J, k.tx) && k.recvd <= Bytes(J, k.rx)
  }

  ghost predicate Shaped<E(!new), M>(J: Job<E, M>, s: Net<E, M>)
    requires Valid(J)
  {
    && |s.ranks| == |s.links| == J.world
    && forall r :: 0 <= r < J.world ==> Fits(J, s.ranks[r])
  }

  /** The bytes the current step sends, as they are in memory now. */
  ghost function TxBytes<E(!new), M>(J: Job<E, M>, k: Rank<E, M>): (w: seq<Byte>)
    requires Valid(J) && Fits(J, k)
    ensures |w| == Bytes(J, k.tx)
  {
    match k.src
    case Snapshot(bytes) => bytes
    case FromBuffer => (PackCount(J, k.buf[k.tx]); J.pack(k.buf[k.tx]))
    case FromRoom => k.room[..Bytes(J, k.tx)]
  }

  /** Bytes were received over bytes that are yet to be sent. */
  ghost predicate Overtaken<E(!new), M>(J: Job<E, M>, k: Rank<E, M>)
    requires Valid(J) && Fits(J, k)
  {
    k.src.FromRoom? && k.sent < Bytes(J, k.tx) && k.sent < k.recvd
  }

  // Starting a step ---------------------------------------------------------------------------------

  function ChooseTx(world: nat, r: nat, step: nat, prevRx: nat): (c: nat)
    requires world >= 2 && r < world && step < 2 * (world - 1) && prevRx < world
    ensures c < world
  {
    if step < world - 1 then (r + world - step) % world
    else if step == world - 1 then (r + 1) % world
    else prevRx
  }

  function ChooseRx(world: nat, r: nat, step: nat, tx: nat): (c: nat)
    requires world >= 2 && r < world && step < 2 * (world - 1) && tx < world
    ensures c < world
  {
    if step < world - 1 then (r + world - step - 1) % world
    else (tx + world - 1) % world
  }

  lemma ChosenChunks(world: nat, r: nat, step: nat, prevRx: nat)
    requires world >= 2 && r < world && step < 2 * (world - 1) && prevRx < world
    requires step >= world ==> prevRx == RxChunk(world, r, step - 1)
    ensures ChooseTx(world, r, step, prevRx) == TxChunk(world, r, step)
    ensures ChooseRx(world, r, step, TxChunk(world, r, step)) == RxChunk(world, r, step)
  {
    if step < world - 1 {
      BackIsMod(world, r, step);
      BackIsMod(world, r, step + 1);
    } else {
      ChunksMatch(world, r, if step >= world then step - 1 else step);
      OneMore(world, r);
      BackIsMod(world, TxChunk(world, r, step), 1);
    }
  }

  lemma OneMore(world: nat, r: nat)
    requires world >= 2 && r < world
    ensures (r + 1) % world == Back(world, r, world - 1)
  {
    if r + 1 == world { OverflowMod(0, world); }
  }

  /** Rank `r` enters `step`; with quantization it packs the chunk it will send, or forwards what it received,
      and at the start of the second phase replaces its own finished chunk by the unpacked form. */
  ghost function Enter<E(!new), M>(J: Job<E, M>, r: nat, step: nat, buf: seq<seq<E>>, room: seq<Byte>,
                                   prevMeta: M, prevRx: nat): (k: Rank<E, M>)
    requires Valid(J) && r < J.world && prevRx < J.world
    requires |buf| == J.world && (forall c :: 0 <= c < J.world ==> |buf[c]| == J.sizes[c])
    requires |room| == J.room
    ensures Fits(J, k)
    ensures k.step == step && !k.metaOut && !k.metaIn && k.sent == k.recvd == 0 && k.sendTurn && !k.failed
  {
    if step >= Last(J) then
      Rank(step, buf, room, 0, 0, FromBuffer, J.noMeta, J.noMeta, false, false, 0, 0, true, false)
    else
      var tx := ChooseTx(J.world, r, step, prevRx);
      var rx := ChooseRx(J.world, r, step, tx);
      var base := Rank(step, buf, room, tx, rx, FromBuffer, J.noMeta, J.noMeta, false, false, 0, 0, true, false);
      if !J.quant then base
      else if step < J.world - 1 then
        PackCount(J, buf[tx]);
        base.(src := Snapshot(J.pack(buf[tx])), meta := MetaFor(J, buf[tx]))
      else if step == J.world - 1 then
        PackCount(J, buf[tx]);
        base.(src := Snapshot(J.pack(buf[tx])), meta := MetaFor(J, buf[tx]), buf := buf[tx := Received(J, buf[tx])])
      else base.(src := FromRoom, meta := prevMeta)
  }

  // One move ----------------------------------------------------------------------------------------

  function Move<E, M>(s: Net<E, M>, r: nat, k: Rank<E, M>): Net<E, M>
    requires r < |s.ranks|
  {
    s.(ranks := s.ranks[r := k])
  }

  function Put<E, M>(s: Net<E, M>, r: nat, k: Rank<E, M>, f: Frame<M>): Net<E, M>
    requires r < |s.ranks| && r < |s.links|
  {
    Net(s.ranks[r := k], s.links[r := s.links[r] + [f]])
  }

  function Pop<E, M>(s: Net<E, M>, r: nat, p: nat, k: Rank<E, M>): Net<E, M>
    requires r < |s.ranks| && p < |s.links| && s.links[p] != []
  {
    Net(s.ranks[r := k], s.links[p := s.links[p][1..]])
  }

  function OnMeta<E, M>(J: Job<E, M>, k: Rank<E, M>, f: Frame<M>): Rank<E, M> {
    if f.ctr != J.ctr then k
    else match f.body
      case Meta(m) => k.(metaIn := true, got := m)
      case Data(_) => k.(failed := true)
  }

  lemma RoomCount<E(!new), M>(J: Job<E, M>, w: seq<Byte>, c: nat)
    requires Valid(J) && c < J.world && |w| <= Bytes(J, c)
    ensures |Slots(w, J.q)| <= J.sizes[c]
  {
    SlotsLength(w, J.q);
    CountMonotone(|w|, Bytes(J, c), J.q);
    PackedCount(J.sizes[c], J.q);
  }

  function Overwrite<T>(room: seq<T>, at: nat, bytes: seq<T>): (room': seq<T>)
    requires at + |bytes| <= |room|
    ensures |room'| == |room|
    ensures room'[..at] == room[..at] && room'[..at + |bytes|] == room[..at] + bytes
    ensures forall i :: at + |bytes| <= i <= |room| ==> room'[i..] == room[i..]
  {
    room[..at] + bytes + room[at + |bytes|..]
  }

  ghost function OnData<E(!new), M>(J: Job<E, M>, k: Rank<E, M>, f: Frame<M>): (k': Rank<E, M>)
    requires Valid(J) && Fits(J, k)
    ensures Fits(J, k')
  {
    if f.ctr != J.ctr then k
    else match f.body
      case Meta(_) => k.(failed := true)
      case Data(bytes) =>
        if |bytes| > Bytes(J, k.rx) - k.recvd then k.(failed := true)
        else
          var room := Overwrite(k.room, k.recvd, bytes);
          RoomCount(J, room[..k.recvd + |bytes|], k.rx);
          var chunk := Absorb(k.buf[k.rx], room, k.recvd, |bytes|, J.q, Combine(J, k.step < J.world - 1, k.got));
          k.(room := room, buf := k.buf[k.rx := chunk], recvd := k.recvd + |bytes|, sendTurn := true)
  }

  /** The frame the send half of the loop puts on the wire. */
  ghost function Piece<E(!new), M>(J: Job<E, M>, r: nat, k: Rank<E, M>): Frame<M>
    requires Valid(J) && r < J.world && Fits(J, k)
  {
    var n := Min(J.pieces[r], Bytes(J, k.tx) - k.sent);
    Frame(J.ctr, k.step, Data(TxBytes(J, k)[k.sent..k.sent + n]))
  }

  /** One turn of the loop that exchanges the chunk: the send half, then the receive half. */
  ghost function Exchange<E(!new), M>(J: Job<E, M>, s: Net<E, M>, r: nat): (s': Net<E, M>)
    requires Valid(J) && Shaped(J, s) && r < J.world
    ensures Shaped(J, s')
  {
    var k := s.ranks[r];
    var p := Prev(J.world, r);
    if k.sendTurn && k.sent < Bytes(J, k.tx) then
      var n := Min(J.pieces[r], Bytes(J, k.tx) - k.sent);
      Put(s, r, k.(sent := k.sent + n, sendTurn := false), Piece(J, r, k))
    else if k.recvd < Bytes(J, k.rx) then
      if s.links[p] == [] then Move(s, r, k.(sendTurn := true))
      else Pop(s, r, p, OnData(J, k, s.links[p][0]))
    else if k.sent < Bytes(J, k.tx) then Move(s, r, k.(sendTurn := true))
    else Move(s, r, Enter(J, r, k.step + 1, k.buf, k.room, k.got, k.rx))
  }

  /** Rank `r` moves. A rank that has to wait leaves the state as it is. */
  ghost function Act<E(!new), M>(J: Job<E, M>, s: Net<E, M>, r: nat): (s': Net<E, M>)
    requires Valid(J) && Shaped(J, s) && r < J.world
    ensures Shaped(J, s')
  {
    var k := s.ranks[r];
    var p := Prev(J.world, r);
    if k.failed || k.step >= Last(J) then s
    else if J.quant && !k.metaOut then Put(s, r, k.(metaOut := true), Frame(J.ctr, k.step, Meta(k.meta)))
    else if J.quant && !k.metaIn then
      if s.links[p] == [] then s else Pop(s, r, p, OnMeta(J, k, s.links[p][0]))
    else Exchange(J, s, r)
  }

  /** Every rank before its first step; the links may still hold frames of earlier, aborted operations. */
  ghost predicate Init<E(!new), M>(J: Job<E, M>, s: Net<E, M>)
    requires Valid(J)
  {
    && |s.ranks| == |s.links| == J.world
    && (forall r :: 0 <= r < J.world ==>
          && |s.ranks[r].room| == J.room
          && s.ranks[r] == Enter(J, r, 0, J.input[r], s.ranks[r].room, J.noMeta, 0))
    && (forall r, i :: 0 <= r < J.world && 0 <= i < |s.links[r]| ==> s.links[r][i].ctr != J.ctr)
  }

  /** The state after the ranks of `schedule` have moved, in this order. */
  ghost function Run<E(!new), M>(J: Job<E, M>, s: Net<E, M>, schedule: seq<nat>): (s': Net<E, M>)
    requires Valid(J) && Shaped(J, s)
    requires forall i :: 0 <= i < |schedule| ==> schedule[i] < J.world
    ensures Shaped(J, s')
  {
    if schedule == [] then s
    else Act(J, Run(J, s, schedule[..|schedule| - 1]), schedule[|schedule| - 1])
  }
}
