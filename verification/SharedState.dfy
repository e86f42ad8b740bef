/** One round of shared-state synchronization of a peer group: revisions, the election of the popular content,
    and what every peer has to fetch. */
module SharedState {

  type Uuid = nat
  type Key = nat

  /** What a peer reports about one entry of its shared state. */
  datatype Entry = Entry(key: Key, hash: nat, hashType: nat, size: nat, dataType: nat, allow: bool)

  datatype Status = Match | KeySetMismatch | ContentMismatch | Outdated | Violation

  datatype Strategy = EnforcePopular | RxOnly | TxOnly

  type Content = seq<Entry>

  datatype Ballot = Ballot(who: Uuid, content: Content)

  // The election ------------------------------------------------------------------------------------

  function VotesFor(bs: seq<Ballot>, c: Content): nat {
    if bs == [] then 0
    else VotesFor(bs[..|bs| - 1], c) + if bs[|bs| - 1].content == c then 1 else 0
  }

  function Rank(st: Status): int {
    match st
    case Match => 1
    case Outdated => -2
    case _ => -1
  }

  /** Priority of a candidate: the last of its voters that has a status decides. */
  function Priority(bs: seq<Ballot>, statuses: map<Uuid, Status>, c: Content): int {
    if bs == [] then 0
    else
      var b := bs[|bs| - 1];
      if b.content == c && b.who in statuses then Rank(statuses[b.who])
      else Priority(bs[..|bs| - 1], statuses, c)
  }

  ghost predicate Stands(bs: seq<Ballot>, c: Content) {
    exists i :: 0 <= i < |bs| && bs[i].content == c
  }

  /** Highest priority first, then most votes. */
  ghost predicate Wins(bs: seq<Ballot>, statuses: map<Uuid, Status>, c: Content) {
    && Stands(bs, c)
    && (forall d :: Stands(bs, d) ==> Priority(bs, statuses, d) <= Priority(bs, statuses, c))
    && (forall d :: Stands(bs, d) && Priority(bs, statuses, d) == Priority(bs, statuses, c) ==>
          VotesFor(bs, d) <= VotesFor(bs, c))
  }

  /** INT32_MIN, below every priority. */
  const LOWEST: int := -0x8000_0000

  datatype Stats = Stats(votes: nat, priority: int)

  ghost predicate Tallied(stats: map<Content, Stats>, bs: seq<Ballot>, statuses: map<Uuid, Status>) {
    && (forall c :: c in stats <==> Stands(bs, c))
    && (forall c :: c in stats ==> stats[c] == Stats(VotesFor(bs, c), Priority(bs, statuses, c)))
  }

  lemma {:induction false} NoVotes(bs: seq<Ballot>, statuses: map<Uuid, Status>, c: Content)
    ensures VotesFor(bs, c) > 0 <==> Stands(bs, c)
    ensures !Stands(bs, c) ==> Priority(bs, statuses, c) == 0
    decreases |bs|
  {
    if bs != [] {
      var front := bs[..|bs| - 1];
      NoVotes(front, statuses, c);
      if Stands(front, c) {
        var i :| 0 <= i < |front| && front[i].content == c;
        assert bs[i].content == c;
      }
    }
  }

  lemma StandsMore(bs: seq<Ballot>, b: Ballot, c: Content)
    ensures Stands(bs + [b], c) <==> Stands(bs, c) || b.content == c
  {
    var more := bs + [b];
    assert more[|bs|] == b;
    forall i | 0 <= i < |bs| ensures more[i] == bs[i] { }
    if Stands(bs, c) {
      var i :| 0 <= i < |bs| && bs[i].content == c;
      assert more[i].content == c;
    }
  }

  lemma {:induction false} PriorityAbove(bs: seq<Ballot>, statuses: map<Uuid, Status>, c: Content)
    ensures Priority(bs, statuses, c) >= -2
    decreases |bs|
  {
    if bs != [] { PriorityAbove(bs[..|bs| - 1], statuses, c); }
  }

  /** The counting loop of electSharedStateMask. */
  method Tally(bs: seq<Ballot>, statuses: map<Uuid, Status>) returns (stats: map<Content, Stats>)
    ensures Tallied(stats, bs, statuses)
  {
    stats := map[];
    for n := 0 to |bs|
      invariant Tallied(stats, bs[..n], statuses)
    {
      var b := bs[n];
      ghost var front := bs[..n];
      assert bs[..n + 1] == front + [b];
      assert (front + [b])[..|front + [b]| - 1] == front;
      NoVotes(front, statuses, b.content);
      forall c ensures Stands(front + [b], c) <==> Stands(front, c) || b.content == c { StandsMore(front, b, c); }
      var old_ := if b.content in stats then stats[b.content] else Stats(0, 0);
      stats := stats[b.content := Stats(old_.votes + 1,
                                        if b.who in statuses then Rank(statuses[b.who]) else old_.priority)];
    }
    assert bs[..|bs|] == bs;
  }

  /** The two loops that pick the winner; ties are broken by the order of iteration. */
  method Pick(stats: map<Content, Stats>) returns (found: bool, winner: Content)
    requires forall c :: c in stats ==> stats[c].votes > 0 && stats[c].priority > LOWEST
    ensures found <==> stats != map[]
    ensures found ==> winner in stats
    ensures found ==> forall d :: d in stats ==> stats[d].priority <= stats[winner].priority
    ensures found ==> forall d :: d in stats && stats[d].priority == stats[winner].priority ==>
      stats[d].votes <= stats[winner].votes
  {
    found, winner := false, [];
    var top, rest := LOWEST, stats.Keys;
    while rest != {}
      invariant rest <= stats.Keys
      invariant forall d :: d in stats && d !in rest ==> stats[d].priority <= top
      invariant top == LOWEST ==> rest == stats.Keys
      invariant top != LOWEST ==> exists d :: d in stats && stats[d].priority == top
      decreases |rest|
    {
      var c :| c in rest;
      rest := rest - {c};
      if stats[c].priority > top {
        top := stats[c].priority;
      }
    }
    rest := stats.Keys;
    var most := 0;
    while rest != {}
      invariant rest <= stats.Keys
      invariant most > 0 ==> winner in stats && stats[winner] == Stats(most, top)
      invariant forall d :: d in stats && d !in rest && stats[d].priority == top ==> 0 < stats[d].votes <= most
      decreases |rest|
    {
      var c :| c in rest;
      rest := rest - {c};
      if stats[c].priority == top && stats[c].votes > most {
        most, winner := stats[c].votes, c;
      }
    }
    if stats != map[] {
      ghost var some :| some in stats.Keys;
      ghost var d :| d in stats && stats[d].priority == top;
      assert 0 < stats[d].votes <= most;
    }
    found := most > 0;
  }

  /** electSharedStateMask. */
  method Elect(bs: seq<Ballot>, statuses: map<Uuid, Status>) returns (found: bool, mask: Content)
    ensures found <==> bs != []
    ensures found ==> Wins(bs, statuses, mask)
  {
    var stats := Tally(bs, statuses);
    forall c | c in stats ensures stats[c].votes > 0 && stats[c].priority > LOWEST {
      NoVotes(bs, statuses, c);
      PriorityAbove(bs, statuses, c);
    }
    found, mask := Pick(stats);
    if bs != [] { assert Stands(bs, bs[0].content); }
  }

  // Comparing with the mask -------------------------------------------------------------------------

  predicate SameShape(a: Entry, b: Entry) {
    a.key == b.key && a.allow == b.allow && a.dataType == b.dataType && a.hashType == b.hashType
  }

  datatype Comparison = Comparison(status: Status, dirty: seq<Key>) | OutOfBounds

  /** The entry loop of checkMaskSharedStateMismatches from index `i` on; entries are read by the mask's index. */
  function CompareFrom(mask: Content, mine: Content, i: nat, so: Comparison): Comparison
    requires so.Comparison?
    decreases |mask| - i
  {
    if i >= |mask| then so
    else if i >= |mine| then OutOfBounds
    else if !SameShape(mask[i], mine[i]) then Comparison(KeySetMismatch, so.dirty)
    else if mask[i].hash != mine[i].hash then
      CompareFrom(mask, mine, i + 1, Comparison(ContentMismatch, so.dirty + [mask[i].key]))
    else CompareFrom(mask, mine, i + 1, so)
  }

  function Compare(mask: Content, mine: Content): Comparison {
    CompareFrom(mask, mine, 0, Comparison(Match, []))
  }

  /** Entry `i` is in both lists, and differs in key, type or policy. */
  ghost predicate Clashes(mask: Content, mine: Content, i: nat) {
    && i < |mask| && i < |mine|
    && (mask[i].key != mine[i].key || mask[i].allow != mine[i].allow || mask[i].dataType != mine[i].dataType
        || mask[i].hashType != mine[i].hashType)
  }

  lemma {:induction false} CompareMeansFrom(mask: Content, mine: Content, i: nat, so: Comparison)
    requires so.Comparison? && so.status in {Match, ContentMismatch} && i <= |mask|
    ensures
      var c := CompareFrom(mask, mine, i, so);
      && (c == OutOfBounds <==> i < |mask| && |mine| < |mask| && forall j: nat :: i <= j ==> !Clashes(mask, mine, j))
      && (c.Comparison? ==> c.status in {Match, ContentMismatch, KeySetMismatch})
      && (c.Comparison? && c.status == KeySetMismatch <==> exists j: nat :: i <= j && Clashes(mask, mine, j))
      && (c.Comparison? && c.status == Match <==>
            && so.status == Match && (i < |mask| ==> |mask| <= |mine|) && (forall j: nat :: i <= j ==> !Clashes(mask, mine, j))
            && forall j :: i <= j < |mask| && j < |mine| ==> mask[j].hash == mine[j].hash)
    decreases |mask| - i
  {
    if i < |mask| && i < |mine| {
      if SameShape(mask[i], mine[i]) {
        var next := if mask[i].hash != mine[i].hash then Comparison(ContentMismatch, so.dirty + [mask[i].key]) else so;
        CompareMeansFrom(mask, mine, i + 1, next);
        assert !Clashes(mask, mine, i);
      } else {
        assert Clashes(mask, mine, i);
      }
    }
  }

  /** What a comparison says of any two lists: a mismatch of keys if and only if some common entry differs in key, type or
      policy; a match if and only if all entries of the mask agree in these and in their hashes; and the master reads past
      the peer's entries if and only if they are fewer and do not clash. */
  lemma CompareMeans(mask: Content, mine: Content)
    ensures
      var c := Compare(mask, mine);
      && (c == OutOfBounds <==> |mine| < |mask| && forall i: nat :: !Clashes(mask, mine, i))
      && (c.Comparison? ==> c.status in {Match, ContentMismatch, KeySetMismatch})
      && (c.Comparison? && c.status == KeySetMismatch <==> exists i: nat :: Clashes(mask, mine, i))
      && (c.Comparison? && c.status == Match <==>
            && |mask| <= |mine| && (forall i: nat :: !Clashes(mask, mine, i))
            && forall i :: 0 <= i < |mask| && i < |mine| ==> mask[i].hash == mine[i].hash)
  {
    CompareMeansFrom(mask, mine, 0, Comparison(Match, []));
  }

  /** The keys whose content differs, in the order of the mask. */
  function Differing(mask: Content, mine: Content): seq<Key> {
    if mask == [] || mine == [] then []
    else (if mask[0].hash != mine[0].hash then [mask[0].key] else []) + Differing(mask[1..], mine[1..])
  }

  ghost predicate SameKeys(mask: Content, mine: Content) {
    |mine| == |mask| && forall i :: 0 <= i < |mask| ==> SameShape(mask[i], mine[i])
  }

  lemma {:induction false} CompareSame(mask: Content, mine: Content, i: nat, so: Comparison)
    requires SameKeys(mask, mine) && i <= |mask| && so.Comparison? && so.status in {Match, ContentMismatch}
    ensures
      var rest := Differing(mask[i..], mine[i..]);
      CompareFrom(mask, mine, i, so) == Comparison(if rest == [] then so.status else ContentMismatch, so.dirty + rest)
    decreases |mask| - i
  {
    if i < |mask| {
      assert mask[i..][1..] == mask[i + 1..] && mine[i..][1..] == mine[i + 1..];
      if mask[i].hash != mine[i].hash {
        CompareSame(mask, mine, i + 1, Comparison(ContentMismatch, so.dirty + [mask[i].key]));
        var rest := Differing(mask[i + 1..], mine[i + 1..]);
        assert so.dirty + [mask[i].key] + rest == so.dirty + ([mask[i].key] + rest);
      } else {
        CompareSame(mask, mine, i + 1, so);
      }
    }
  }

  /** Between contents with the same keys the comparison finds exactly the differing keys. */
  lemma CompareExact(mask: Content, mine: Content)
    requires SameKeys(mask, mine)
    ensures
      var d := Differing(mask, mine);
      Compare(mask, mine) == Comparison(if d == [] then Match else ContentMismatch, d)
  {
    CompareSame(mask, mine, 0, Comparison(Match, []));
    assert mask[0..] == mask && mine[0..] == mine;
  }

  lemma {:induction false} DifferingMeans(mask: Content, mine: Content)
    requires SameKeys(mask, mine)
    ensures forall k :: k in Differing(mask, mine) <==> exists i :: 0 <= i < |mask| && mask[i].key == k && mask[i].hash != mine[i].hash
    decreases |mask|
  {
    if mask != [] {
      var m, n := mask[1..], mine[1..];
      DifferingMeans(m, n);
      forall k
        ensures k in Differing(mask, mine) <==> exists i :: 0 <= i < |mask| && mask[i].key == k && mask[i].hash != mine[i].hash
      {
        if i :| 0 <= i < |mask| && mask[i].key == k && mask[i].hash != mine[i].hash {
          if i > 0 { assert m[i - 1] == mask[i] && n[i - 1] == mine[i]; }
        }
        if k in Differing(m, n) {
          var j :| 0 <= j < |m| && m[j].key == k && m[j].hash != n[j].hash;
          assert mask[j + 1] == m[j] && mine[j + 1] == n[j];
        }
      }
    }
  }

  // A round -----------------------------------------------------------------------------------------

  datatype Round = Round(
    next: nat,                       // revision expected next; 0 accepts any
    statuses: map<Uuid, Status>,
    candidates: seq<Ballot>,
    entries: seq<Ballot>,
    mask: Content,
    dirty: map<Uuid, seq<Key>>)

  function RevisionStatus(next: nat, revision: nat): Status {
    if next == 0 || revision == next then Match
    else if revision < next then Outdated
    else Violation
  }

  function NextAfter(next: nat, revision: nat): nat {
    if next == 0 then revision else next
  }

  function Announced(r: Round, u: Uuid, revision: nat): Round {
    r.(statuses := r.statuses[u := RevisionStatus(r.next, revision)], next := NextAfter(r.next, revision))
  }

  function MaskVoted(r: Round, u: Uuid, strategy: Strategy, content: Content): Round {
    r.(candidates := if strategy == RxOnly then r.candidates else r.candidates + [Ballot(u, content)],
       entries := r.entries + [Ballot(u, content)])
  }

  function StatusOf(statuses: map<Uuid, Status>, u: Uuid): Status {
    if u in statuses then statuses[u] else Match
  }

  function DirtyOf(dirty: map<Uuid, seq<Key>>, u: Uuid): seq<Key> {
    if u in dirty then dirty[u] else []
  }

  datatype Checked = Broken | Checked(round: Round)

  /** One peer's entries are held against the mask; outdated peers stay outdated whatever they hold. */
  function CheckOne(r: Round, b: Ballot): Checked {
    var before := StatusOf(r.statuses, b.who);
    if before != Match && before != Outdated then Checked(r)
    else
      var c := Compare(r.mask, b.content);
      if c == OutOfBounds then Broken
      else
        Checked(r.(statuses := if before == Match then r.statuses[b.who := c.status] else r.statuses,
                   dirty := r.dirty[b.who := DirtyOf(r.dirty, b.who) + c.dirty]))
  }

  function CheckFirst(r: Round, n: nat): Checked
    requires n <= |r.entries|
  {
    if n == 0 then Checked(r)
    else
      var before := CheckFirst(r, n - 1);
      if before == Broken then Broken else CheckOne(before.round, r.entries[n - 1])
  }

  /** The round after its end: only the revision expected next is kept. */
  function Ended(r: Round): Round { Round(r.next, map[], [], [], [], map[]) }

  /** The master's side of a round for one group. */
  class Keeper {
    var next: nat
    var statuses: map<Uuid, Status>
    var candidates: seq<Ballot>
    var entries: seq<Ballot>
    var mask: Content
    var dirty: map<Uuid, seq<Key>>

    function State(): Round
      reads this
    {
      Round(next, statuses, candidates, entries, mask, dirty)
    }

    constructor ()
      ensures State() == Round(0, map[], [], [], [], map[])
    {
      next, statuses, candidates, entries, mask, dirty := 0, map[], [], [], [], map[];
    }

    method IsNewRevisionLegal(u: Uuid, revision: nat) returns (status: Status)
      modifies this
      ensures State() == Announced(old(State()), u, revision)
      ensures status == Match <==> old(next) == 0 || revision == old(next)
      ensures status == Outdated <==> revision < old(next)
      ensures status == Violation <==> 0 < old(next) < revision
      ensures u in statuses && statuses[u] == status && next == if old(next) == 0 then revision else old(next)
    {
      status := Match;
      if next != 0 {
        if revision < next {
          status := Outdated;
        } else if revision > next {
          status := Violation;
        }
      } else if revision > 0 {
        next := revision;
      }
      statuses := statuses[u := status];
    }

    method VoteMask(u: Uuid, strategy: Strategy, content: Content)
      modifies this
      ensures State() == MaskVoted(old(State()), u, strategy, content)
    {
      if strategy != RxOnly {
        candidates := candidates + [Ballot(u, content)];
      }
      entries := entries + [Ballot(u, content)];
    }

    method ElectMask() returns (found: bool)
      modifies this
      ensures found <==> old(candidates) != []
      ensures found ==> Wins(old(candidates), old(statuses), mask)
      ensures State() == old(State()).(mask := mask) && (!found ==> mask == old(mask))
    {
      var winner;
      found, winner := Elect(candidates, statuses);
      if found {
        mask := winner;
      }
    }

    /** checkMaskSharedStateMismatches; `ok` is false when the master reads past a peer's entries. */
    method CheckMismatches() returns (hasMask: bool, ok: bool)
      modifies this
      ensures hasMask <==> old(mask) != []
      ensures !hasMask ==> State() == old(State())
      ensures hasMask ==> (ok <==> CheckFirst(old(State()), |old(entries)|) != Broken)
      ensures hasMask && ok ==> Checked(State()) == CheckFirst(old(State()), |old(entries)|)
    {
      hasMask, ok := mask != [], true;
      if !hasMask {
        return;
      }
      ghost var start := State();
      for n := 0 to |entries|
        invariant entries == start.entries && mask == start.mask
        invariant CheckFirst(start, n) == Checked(State())
      {
        var b := entries[n];
        var before := StatusOf(statuses, b.who);
        if before == Match || before == Outdated {
          var c := CompareEntries(mask, b.content);
          if c == OutOfBounds {
            ok := false;
            BrokenStays(start, n + 1, |start.entries|);
            return;
          }
          dirty := dirty[b.who := DirtyOf(dirty, b.who) + c.dirty];
          if before == Match {
            statuses := statuses[b.who := c.status];
          }
        }
      }
    }

    /** transitionToSharedStateSyncPhase: the voters `us` become distributors or requesters by their status. */
    method Transition(us: set<Uuid>) returns (ok: bool, distributors: set<Uuid>)
      modifies this
      ensures ok <==> forall u :: u in us ==> u in statuses && statuses[u] != KeySetMismatch
      ensures ok ==> distributors == set u | u in us && statuses[u] == Match
      ensures State() == if ok then old(State()).(next := old(next) + 1) else old(State())
    {
      ok, distributors := true, {};
      var left := us;
      while left != {}
        invariant left <= us && State() == old(State())
        invariant forall u :: u in us && u !in left ==> u in statuses && statuses[u] != KeySetMismatch
        invariant distributors == set u | u in us && u !in left && statuses[u] == Match
        decreases left
      {
        var u :| u in left;
        if u !in statuses || statuses[u] == KeySetMismatch {
          return false, distributors;
        }
        left := left - {u};
        if statuses[u] == Match {
          distributors := distributors + {u};
        }
      }
      next := next + 1;
    }

    /** The group's part of endSharedStateSyncPhase. */
    method EndRound()
      modifies this
      ensures State() == Ended(old(State()))
    {
      mask, candidates, entries := [], [], [];
      statuses, dirty := map[], map[];
    }
  }

  lemma {:induction false} BrokenStays(r: Round, n: nat, m: nat)
    requires n <= m <= |r.entries| && CheckFirst(r, n) == Broken
    ensures CheckFirst(r, m) == Broken
    decreases m
  {
    if m > n { BrokenStays(r, n, m - 1); }
  }

  method CompareEntries(mask: Content, mine: Content) returns (c: Comparison)
    ensures c == Compare(mask, mine)
    ensures c == OutOfBounds <==> |mine| < |mask| && forall i: nat :: !Clashes(mask, mine, i)
    ensures c.Comparison? && c.status == KeySetMismatch <==> exists i: nat :: Clashes(mask, mine, i)
    ensures c.Comparison? && c.status == Match <==>
      && |mask| <= |mine| && (forall i: nat :: !Clashes(mask, mine, i))
      && forall i :: 0 <= i < |mask| && i < |mine| ==> mask[i].hash == mine[i].hash
    ensures c.Comparison? && c.status == ContentMismatch <==>
      && |mask| <= |mine| && (forall i: nat :: !Clashes(mask, mine, i))
      && exists i :: 0 <= i < |mask| && i < |mine| && mask[i].hash != mine[i].hash
  {
    CompareMeans(mask, mine);
    hide Clashes;
    var status, dirty, i := Match, [], 0;
    while i < |mask|
      invariant i <= |mask|
      invariant Compare(mask, mine) == CompareFrom(mask, mine, i, Comparison(status, dirty))
    {
      if i >= |mine| {
        return OutOfBounds;
      }
      if mask[i].key != mine[i].key || mask[i].allow != mine[i].allow || mask[i].dataType != mine[i].dataType
         || mask[i].hashType != mine[i].hashType {
        return Comparison(KeySetMismatch, dirty);
      }
      if mask[i].hash != mine[i].hash {
        status := ContentMismatch;
        dirty := dirty + [mask[i].key];
      }
      i := i + 1;
    }
    return Comparison(status, dirty);
  }
}
