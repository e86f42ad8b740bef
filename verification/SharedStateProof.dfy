/** A clean round of shared-state synchronization makes all peers of the group equal. */
module SharedStateProof {
  import opened SharedState

  datatype Voter = Voter(who: Uuid, revision: nat, content: Content)

  /** All votes of a round, in the order in which they arrive. */
  function Poll(r: Round, vs: seq<Voter>): Round {
    if vs == [] then r
    else
      var v := vs[|vs| - 1];
      var before := Poll(r, vs[..|vs| - 1]);
      MaskVoted(Announced(before, v.who, v.revision), v.who, EnforcePopular, v.content)
  }

  /** Nothing is left over from an earlier round. */
  ghost predicate Clean(r: Round, expected: nat) {
    r == Round(expected, map[], [], [], r.mask, map[])
  }

  /** A clean start: the expected revision is known, or it is taken over from the first voter. */
  ghost predicate Starts(r: Round, vs: seq<Voter>, expected: nat) {
    Clean(r, r.next) && (r.next == expected || (r.next == 0 && |vs| > 0 && vs[0].revision == expected))
  }

  ghost predicate DistinctKeys(c: Content) {
    forall i, j :: 0 <= i < j < |c| ==> c[i].key != c[j].key
  }

  ghost predicate SameForm(a: Content, b: Content) {
    SameKeys(a, b) && forall i :: 0 <= i < |a| ==> a[i].size == b[i].size
  }

  /** No two votes of one peer, no revision from the future, contents of the same form. */
  ghost predicate Formed(vs: seq<Voter>, expected: nat) {
    && |vs| > 0
    && (forall i, j :: 0 <= i < j < |vs| ==> vs[i].who != vs[j].who)
    && (forall i :: 0 <= i < |vs| ==> vs[i].revision <= expected && vs[i].content != [] && DistinctKeys(vs[i].content))
    && (forall i, j :: 0 <= i < |vs| && 0 <= j < |vs| ==> SameForm(vs[i].content, vs[j].content))
  }

  ghost predicate Current(vs: seq<Voter>, expected: nat, c: Content) {
    exists i :: 0 <= i < |vs| && vs[i].revision == expected && vs[i].content == c
  }

  /** Voter `k` is the last one for its content. */
  ghost predicate LastFor(vs: seq<Voter>, k: nat) {
    k < |vs| && forall j :: k < j < |vs| ==> vs[j].content != vs[k].content
  }

  /** The content of voter `w` has the most votes. */
  ghost predicate Leads(vs: seq<Voter>, w: nat) {
    w < |vs| && forall i :: 0 <= i < |vs| ==> VotesFor(Ballots(vs), vs[i].content) <= VotesFor(Ballots(vs), vs[w].content)
  }

  /** Some content's last voter is up to date; or every content with the most votes has a voter that is. */
  ghost predicate Anchored(vs: seq<Voter>, expected: nat) {
    || (exists k: nat :: LastFor(vs, k) && vs[k].revision == expected)
    || (forall w: nat :: Leads(vs, w) ==> Current(vs, expected, vs[w].content))
  }

  ghost predicate Fair(vs: seq<Voter>, expected: nat) { Formed(vs, expected) && Anchored(vs, expected) }

  function BallotOf(v: Voter): Ballot { Ballot(v.who, v.content) }

  function Ballots(vs: seq<Voter>): seq<Ballot> {
    seq(|vs|, i requires 0 <= i < |vs| => BallotOf(vs[i]))
  }

  /** Every vote is on record, with the status its revision gives it. */
  lemma {:induction false} Polled(r: Round, vs: seq<Voter>, expected: nat)
    requires Starts(r, vs, expected) && forall i :: 0 <= i < |vs| ==> vs[i].revision <= expected
    requires forall i, j :: 0 <= i < j < |vs| ==> vs[i].who != vs[j].who
    ensures
      var p := Poll(r, vs);
      && p.next == (if vs == [] then r.next else expected)
      && p.candidates == p.entries == Ballots(vs) && p.mask == r.mask && p.dirty == map[]
      && (forall i :: 0 <= i < |vs| ==>
            vs[i].who in p.statuses && p.statuses[vs[i].who] == if vs[i].revision == expected then Match else Outdated)
    decreases |vs|
  {
    if vs != [] {
      var front, v := vs[..|vs| - 1], vs[|vs| - 1];
      if front != [] { Polled(r, front, expected); }
      assert Ballots(vs) == Ballots(front) + [BallotOf(v)];
    } else {
      assert Ballots(vs) == [];
    }
  }

  /** The priority of a content is that of its last voter. */
  lemma {:induction false} PriorityOf(vs: seq<Voter>, expected: nat, statuses: map<Uuid, Status>, n: nat, k: nat)
    requires k < n <= |vs| && forall i :: k < i < n ==> vs[i].content != vs[k].content
    requires forall i :: 0 <= i < |vs| ==>
      vs[i].who in statuses && statuses[vs[i].who] == RevisionStatus(expected, vs[i].revision) && vs[i].revision <= expected
    ensures Priority(Ballots(vs)[..n], statuses, vs[k].content) == if vs[k].revision == expected then 1 else -2
    decreases n
  {
    var bs := Ballots(vs)[..n];
    assert bs[n - 1] == BallotOf(vs[n - 1]);
    if k < n - 1 {
      assert bs[..n - 1] == Ballots(vs)[..n - 1];
      PriorityOf(vs, expected, statuses, n - 1, k);
    }
  }

  lemma {:induction false} LastVoter(vs: seq<Voter>, k: nat, n: nat) returns (l: nat)
    requires k < n <= |vs|
    ensures k <= l < n && vs[l].content == vs[k].content && forall j :: l < j < n ==> vs[j].content != vs[k].content
    decreases n
  {
    l := n - 1;
    if vs[n - 1].content != vs[k].content { l := LastVoter(vs, k, n - 1); }
  }

  lemma PolledPriority(r: Round, vs: seq<Voter>, expected: nat, k: nat)
    requires Starts(r, vs, expected) && Formed(vs, expected) && LastFor(vs, k)
    ensures Priority(Poll(r, vs).candidates, Poll(r, vs).statuses, vs[k].content) == if vs[k].revision == expected then 1 else -2
  {
    Polled(r, vs, expected);
    assert Ballots(vs)[..|vs|] == Ballots(vs);
    PriorityOf(vs, expected, Poll(r, vs).statuses, |vs|, k);
  }

  lemma StandsFor(vs: seq<Voter>, c: Content)
    ensures Stands(Ballots(vs), c) <==> exists i :: 0 <= i < |vs| && vs[i].content == c
  {
    if i :| 0 <= i < |vs| && vs[i].content == c { assert Ballots(vs)[i].content == c; }
    if Stands(Ballots(vs), c) {
      var i :| 0 <= i < |Ballots(vs)| && Ballots(vs)[i].content == c;
      assert vs[i].content == c;
    }
  }

  lemma {:induction false} Leader(vs: seq<Voter>, n: nat) returns (w: nat)
    requires 0 < n <= |vs|
    ensures w < n && forall i :: 0 <= i < n ==> VotesFor(Ballots(vs), vs[i].content) <= VotesFor(Ballots(vs), vs[w].content)
  {
    w := n - 1;
    if n > 1 {
      var v := Leader(vs, n - 1);
      if VotesFor(Ballots(vs), vs[v].content) > VotesFor(Ballots(vs), vs[w].content) { w := v; }
    }
  }

  /** From anchored votes only a content that somebody at the expected revision holds can be elected. */
  lemma WinnerIsCurrent(r: Round, vs: seq<Voter>, expected: nat, mask: Content)
    requires Starts(r, vs, expected) && Fair(vs, expected)
    requires Wins(Poll(r, vs).candidates, Poll(r, vs).statuses, mask)
    ensures Current(vs, expected, mask)
  {
    var p := Poll(r, vs);
    Polled(r, vs, expected);
    hide Poll;
    StandsFor(vs, mask);
    var w :| 0 <= w < |vs| && vs[w].content == mask;
    var l := LastVoter(vs, w, |vs|);
    PolledPriority(r, vs, expected, l);
    if vs[l].revision != expected {
      forall k: nat | LastFor(vs, k) ensures vs[k].revision != expected {
        StandsFor(vs, vs[k].content);
        PolledPriority(r, vs, expected, k);
      }
      forall i | 0 <= i < |vs| ensures VotesFor(Ballots(vs), vs[i].content) <= VotesFor(Ballots(vs), mask) {
        var k := LastVoter(vs, i, |vs|);
        StandsFor(vs, vs[k].content);
        PolledPriority(r, vs, expected, k);
      }
      assert Leads(vs, w);
    }
  }

  /** Exactly when the election is sure to pick a content that somebody up to date holds. */
  lemma WinnersAreCurrentIff(r: Round, vs: seq<Voter>, expected: nat)
    requires Starts(r, vs, expected) && Formed(vs, expected)
    ensures Anchored(vs, expected) <==>
      forall mask :: Wins(Poll(r, vs).candidates, Poll(r, vs).statuses, mask) ==> Current(vs, expected, mask)
  {
    if Anchored(vs, expected) {
      forall mask | Wins(Poll(r, vs).candidates, Poll(r, vs).statuses, mask) ensures Current(vs, expected, mask) {
        WinnerIsCurrent(r, vs, expected, mask);
      }
    } else {
      var w: nat :| Leads(vs, w) && !Current(vs, expected, vs[w].content);
      LeaderWins(r, vs, expected, w);
    }
  }

  lemma LeaderWins(r: Round, vs: seq<Voter>, expected: nat, w: nat)
    requires Starts(r, vs, expected) && Formed(vs, expected) && Leads(vs, w)
    requires forall k: nat :: LastFor(vs, k) ==> vs[k].revision != expected
    ensures Wins(Poll(r, vs).candidates, Poll(r, vs).statuses, vs[w].content)
  {
    var p := Poll(r, vs);
    Polled(r, vs, expected);
    hide Poll;
    StandsFor(vs, vs[w].content);
    forall d | Stands(Ballots(vs), d)
      ensures Priority(p.candidates, p.statuses, d) == -2 && VotesFor(Ballots(vs), d) <= VotesFor(Ballots(vs), vs[w].content)
    {
      StandsFor(vs, d);
      var i :| 0 <= i < |vs| && vs[i].content == d;
      var k := LastVoter(vs, i, |vs|);
      PolledPriority(r, vs, expected, k);
    }
  }

  /** A content that only peers up to date vote for is enough. */
  lemma AgreementAnchors(vs: seq<Voter>, expected: nat, k: nat)
    requires k < |vs| && vs[k].revision == expected
    requires forall i :: 0 <= i < |vs| && vs[i].content == vs[k].content ==> vs[i].revision == expected
    ensures Anchored(vs, expected)
  {
    var l := LastVoter(vs, k, |vs|);
    assert LastFor(vs, l);
  }

  /** The verdict on one voter: what it holds only matters if it is up to date. */
  function Verdict(v: Voter, expected: nat, mask: Content): Status
    requires Compare(mask, v.content).Comparison?
  {
    if v.revision < expected then Outdated else Compare(mask, v.content).status
  }

  ghost predicate CheckedTo(r: Round, q: Round, vs: seq<Voter>, expected: nat, n: nat)
    requires n <= |vs|
  {
    && q == r.(statuses := q.statuses, dirty := q.dirty)
    && (forall i :: 0 <= i < n ==>
          && Compare(r.mask, vs[i].content).Comparison?
          && vs[i].who in q.statuses && q.statuses[vs[i].who] == Verdict(vs[i], expected, r.mask)
          && DirtyOf(q.dirty, vs[i].who) == Compare(r.mask, vs[i].content).dirty)
    && (forall i :: n <= i < |vs| ==>
          && vs[i].who in q.statuses && q.statuses[vs[i].who] == RevisionStatus(expected, vs[i].revision)
          && DirtyOf(q.dirty, vs[i].who) == [])
  }

  lemma {:induction false} CheckPrefix(r: Round, vs: seq<Voter>, expected: nat, n: nat)
    requires r.entries == Ballots(vs) && n <= |vs| && r.dirty == map[]
    requires forall i, j :: 0 <= i < j < |vs| ==> vs[i].who != vs[j].who
    requires forall i :: 0 <= i < |vs| ==> Compare(r.mask, vs[i].content).Comparison? && vs[i].revision <= expected
    requires forall i :: 0 <= i < |vs| ==>
      vs[i].who in r.statuses && r.statuses[vs[i].who] == RevisionStatus(expected, vs[i].revision)
    ensures CheckFirst(r, n).Checked? && CheckedTo(r, CheckFirst(r, n).round, vs, expected, n)
    decreases n
  {
    hide CheckedTo, Compare, RevisionStatus, CheckOne;
    if n == 0 {
      CheckStart(r, vs, expected);
    } else {
      CheckPrefix(r, vs, expected, n - 1);
      CheckNext(r, CheckFirst(r, n - 1).round, vs, expected, n - 1);
    }
  }

  lemma CheckStart(r: Round, vs: seq<Voter>, expected: nat)
    requires r.dirty == map[]
    requires forall i :: 0 <= i < |vs| ==>
      vs[i].who in r.statuses && r.statuses[vs[i].who] == RevisionStatus(expected, vs[i].revision)
    ensures CheckedTo(r, r, vs, expected, 0)
  {
  }

  lemma CheckNext(r: Round, q: Round, vs: seq<Voter>, expected: nat, n: nat)
    requires r.entries == Ballots(vs) && n < |vs|
    requires forall i, j :: 0 <= i < j < |vs| ==> vs[i].who != vs[j].who
    requires forall i :: 0 <= i < |vs| ==> Compare(r.mask, vs[i].content).Comparison? && vs[i].revision <= expected
    requires CheckedTo(r, q, vs, expected, n)
    ensures CheckOne(q, r.entries[n]).Checked? && CheckedTo(r, CheckOne(q, r.entries[n]).round, vs, expected, n + 1)
  {
    hide Compare;
    var v := vs[n];
    assert r.entries[n] == BallotOf(v);
    assert [] + Compare(r.mask, v.content).dirty == Compare(r.mask, v.content).dirty;
    assert q.statuses[v.who] == RevisionStatus(expected, v.revision);
    var q' := CheckOne(q, r.entries[n]).round;
    forall i | 0 <= i < |vs| && i != n
      ensures vs[i].who != v.who
    {
    }
  }

  // Fetching ----------------------------------------------------------------------------------------

  /** Index of the first entry with a key. */
  function Find(c: Content, k: Key): (i: nat)
    ensures i <= |c| && (i < |c| ==> c[i].key == k)
    ensures forall j :: 0 <= j < i ==> c[j].key != k
  {
    if c == [] || c[0].key == k then 0 else 1 + Find(c[1..], k)
  }

  /** A requester overwrites the entries it was told are outdated with what the distributor sends. */
  function Fetched(mine: Content, theirs: Content, keys: seq<Key>): Content {
    seq(|mine|, i requires 0 <= i < |mine| =>
      var j := Find(theirs, mine[i].key);
      if mine[i].key in keys && j < |theirs| then mine[i].(hash := theirs[j].hash) else mine[i])
  }

  lemma FindSame(a: Content, b: Content, i: nat)
    requires SameKeys(a, b) && DistinctKeys(a) && i < |a|
    ensures Find(b, a[i].key) == i
  {
    assert SameShape(a[i], b[i]);
    assert forall j :: 0 <= j < i ==> SameShape(a[j], b[j]) && a[j].key != a[i].key;
  }

  lemma {:induction false} NoDifference(mask: Content, c: Content)
    requires |mask| == |c| && Differing(mask, c) == []
    ensures forall i :: 0 <= i < |mask| ==> mask[i].hash == c[i].hash
    decreases |mask|
  {
    if mask != [] {
      var m, d := mask[1..], c[1..];
      NoDifference(m, d);
      forall i | 0 < i < |mask| ensures mask[i].hash == c[i].hash {
        assert m[i - 1] == mask[i] && d[i - 1] == c[i];
      }
    }
  }

  lemma FetchConverges(mask: Content, mine: Content, theirs: Content)
    requires SameForm(mask, mine) && SameForm(mask, theirs) && DistinctKeys(mask) && Differing(mask, theirs) == []
    ensures Fetched(mine, theirs, Differing(mask, mine)) == mask
  {
    var keys := Differing(mask, mine);
    DifferingMeans(mask, mine);
    NoDifference(mask, theirs);
    forall i | 0 <= i < |mask|
      ensures Fetched(mine, theirs, keys)[i] == mask[i]
    {
      assert SameShape(mask[i], mine[i]) && mask[i].size == mine[i].size;
      FindSame(mask, theirs, i);
      if mine[i].key in keys {
        var j :| 0 <= j < |mask| && mask[j].key == mine[i].key && mask[j].hash != mine[j].hash;
        assert j == i;
      }
    }
  }

  // The round ---------------------------------------------------------------------------------------

  /** The round once the mask is elected and everybody was held against it. */
  function AfterCheck(r: Round, vs: seq<Voter>, mask: Content): Checked {
    CheckFirst(Poll(r, vs).(mask := mask), |Poll(r, vs).entries|)
  }

  predicate Distributes(q: Round, v: Voter) { StatusOf(q.statuses, v.who) == Match }

  lemma FormedVoters(vs: seq<Voter>, expected: nat)
    requires Formed(vs, expected)
    ensures |vs| > 0 && (forall i, j :: 0 <= i < j < |vs| ==> vs[i].who != vs[j].who)
    ensures forall i :: 0 <= i < |vs| ==> vs[i].revision <= expected
  {
  }

  lemma FairShapes(vs: seq<Voter>, expected: nat, w: nat)
    requires Formed(vs, expected) && w < |vs|
    ensures forall i :: 0 <= i < |vs| ==> SameForm(vs[w].content, vs[i].content) && SameKeys(vs[w].content, vs[i].content)
    ensures DistinctKeys(vs[w].content) && forall i :: 0 <= i < |vs| ==> vs[i].revision <= expected
  {
  }

  /** From a clean start, with any order of votes and any content voted for as the mask: nobody is out of bounds, a
      peer distributes exactly when it is at the expected revision and equal to the mask, and every other one is told
      exactly the keys it differs in. */
  lemma VerdictsOf(r: Round, vs: seq<Voter>, expected: nat, w: nat)
    requires Starts(r, vs, expected) && Formed(vs, expected) && w < |vs|
    ensures AfterCheck(r, vs, vs[w].content).Checked?
    ensures
      var q := AfterCheck(r, vs, vs[w].content).round;
      forall i :: 0 <= i < |vs| ==>
        && (Distributes(q, vs[i]) <==> vs[i].revision == expected && vs[i].content == vs[w].content)
        && DirtyOf(q.dirty, vs[i].who) == Differing(vs[w].content, vs[i].content)
        && vs[i].who in q.statuses && q.statuses[vs[i].who] != KeySetMismatch && q.statuses[vs[i].who] != Violation
  {
    hide Compare, Formed, Poll, CheckFirst, Differing, SameForm, SameKeys, Starts;
    var mask := vs[w].content;
    FormedVoters(vs, expected);
    Polled(r, vs, expected);
    FairShapes(vs, expected, w);
    forall i | 0 <= i < |vs|
      ensures
        var d := Differing(mask, vs[i].content);
        Compare(mask, vs[i].content) == Comparison(if d == [] then Match else ContentMismatch, d)
    {
      CompareExact(mask, vs[i].content);
    }
    CheckPrefix(Poll(r, vs).(mask := mask), vs, expected, |vs|);
    forall i | 0 <= i < |vs|
      ensures Distributes(AfterCheck(r, vs, mask).round, vs[i]) <==> vs[i].revision == expected && vs[i].content == mask
    {
      SameMeansEqual(mask, vs[i].content);
    }
  }

  /** Whatever the voters hold, as long as nobody's list is shorter than the mask: the roles are refused if and only if
      somebody up to date differs from the mask in key, type or policy. What an outdated peer holds does not matter. */
  lemma RoundRefusedIff(r: Round, vs: seq<Voter>, expected: nat, mask: Content)
    requires Starts(r, vs, expected) && forall i, j :: 0 <= i < j < |vs| ==> vs[i].who != vs[j].who
    requires forall i :: 0 <= i < |vs| ==> vs[i].revision <= expected && |mask| <= |vs[i].content|
    ensures AfterCheck(r, vs, mask).Checked?
    ensures
      var q := AfterCheck(r, vs, mask).round;
      && (forall i :: 0 <= i < |vs| ==> vs[i].who in q.statuses)
      && ((exists i :: 0 <= i < |vs| && q.statuses[vs[i].who] == KeySetMismatch) <==>
          exists i, k: nat :: 0 <= i < |vs| && vs[i].revision == expected && Clashes(mask, vs[i].content, k))
  {
    hide Compare, Poll, CheckFirst, Clashes, Starts;
    Polled(r, vs, expected);
    forall i | 0 <= i < |vs|
      ensures Compare(mask, vs[i].content).Comparison?
      ensures Compare(mask, vs[i].content).status == KeySetMismatch <==> exists k: nat :: Clashes(mask, vs[i].content, k)
    {
      CompareMeans(mask, vs[i].content);
    }
    CheckPrefix(Poll(r, vs).(mask := mask), vs, expected, |vs|);
  }

  /** The votes of a round with any strategies. */
  function PollWith(r: Round, vs: seq<Voter>, how: seq<Strategy>): Round
    requires |how| == |vs|
  {
    if vs == [] then r
    else
      var n := |vs| - 1;
      MaskVoted(Announced(PollWith(r, vs[..n], how[..n]), vs[n].who, vs[n].revision), vs[n].who, how[n], vs[n].content)
  }

  /** A content stands for election if and only if somebody who does not only receive voted for it; all contents are held
      against the mask. */
  lemma {:induction false} ReceiversDoNotStand(r: Round, vs: seq<Voter>, how: seq<Strategy>, c: Content)
    requires |how| == |vs| && r.candidates == [] == r.entries
    ensures Stands(PollWith(r, vs, how).candidates, c) <==> exists i :: 0 <= i < |vs| && how[i] != RxOnly && vs[i].content == c
    ensures PollWith(r, vs, how).entries == Ballots(vs)
    decreases |vs|
  {
    if vs == [] {
      assert Ballots(vs) == [];
    } else {
      var n := |vs| - 1;
      var front := PollWith(r, vs[..n], how[..n]);
      ReceiversDoNotStand(r, vs[..n], how[..n], c);
      StandsMore(front.candidates, BallotOf(vs[n]), c);
      assert Ballots(vs) == Ballots(vs[..n]) + [BallotOf(vs[n])];
      if i :| 0 <= i < n && how[i] != RxOnly && vs[i].content == c { assert how[..n][i] != RxOnly && vs[..n][i].content == c; }
      if i :| 0 <= i < n && how[..n][i] != RxOnly && vs[..n][i].content == c { assert how[i] != RxOnly && vs[i].content == c; }
    }
  }

  /** A mask is elected if and only if somebody offers its content, and it is the content of one who does. */
  lemma ReceiversNeverWin(r: Round, vs: seq<Voter>, how: seq<Strategy>, mask: Content)
    requires |how| == |vs| && r.candidates == [] == r.entries
    ensures PollWith(r, vs, how).candidates != [] <==> exists i :: 0 <= i < |vs| && how[i] != RxOnly
    ensures Wins(PollWith(r, vs, how).candidates, PollWith(r, vs, how).statuses, mask) ==>
      exists i :: 0 <= i < |vs| && how[i] != RxOnly && vs[i].content == mask
  {
    hide PollWith;
    var bs := PollWith(r, vs, how).candidates;
    ReceiversDoNotStand(r, vs, how, mask);
    if bs != [] {
      ReceiversDoNotStand(r, vs, how, bs[0].content);
      assert Stands(bs, bs[0].content);
    }
    if i :| 0 <= i < |vs| && how[i] != RxOnly { ReceiversDoNotStand(r, vs, how, vs[i].content); }
  }

  ghost predicate SomebodyDistributes(r: Round, vs: seq<Voter>, mask: Content) {
    && AfterCheck(r, vs, mask).Checked?
    && exists i :: 0 <= i < |vs| && Distributes(AfterCheck(r, vs, mask).round, vs[i])
  }

  /** Exactly when every outcome of the election leaves somebody to distribute it. */
  lemma DistributorIff(r: Round, vs: seq<Voter>, expected: nat)
    requires Starts(r, vs, expected) && Formed(vs, expected)
    ensures Anchored(vs, expected) <==>
      forall mask :: Wins(Poll(r, vs).candidates, Poll(r, vs).statuses, mask) ==> SomebodyDistributes(r, vs, mask)
  {
    hide Formed, Anchored, Starts, Poll, AfterCheck;
    WinnersAreCurrentIff(r, vs, expected);
    forall mask | Wins(Poll(r, vs).candidates, Poll(r, vs).statuses, mask)
      ensures SomebodyDistributes(r, vs, mask) <==> Current(vs, expected, mask)
    {
      WinnerStands(r, vs, expected, mask);
      var w :| 0 <= w < |vs| && vs[w].content == mask;
      hide Wins;
      VerdictsOf(r, vs, expected, w);
      if i :| 0 <= i < |vs| && vs[i].revision == expected && vs[i].content == mask {
        assert Distributes(AfterCheck(r, vs, mask).round, vs[i]);
      }
    }
  }

  lemma WinnerStands(r: Round, vs: seq<Voter>, expected: nat, mask: Content)
    requires Starts(r, vs, expected) && Formed(vs, expected) && Wins(Poll(r, vs).candidates, Poll(r, vs).statuses, mask)
    ensures exists w :: 0 <= w < |vs| && vs[w].content == mask
  {
    hide Poll, Formed, Starts;
    FormedVoters(vs, expected);
    Polled(r, vs, expected);
    StandsFor(vs, mask);
  }

  /** The verdicts for any winner the election may pick from fair votes; then somebody distributes. */
  lemma RoundVerdicts(r: Round, vs: seq<Voter>, expected: nat, mask: Content)
    requires Starts(r, vs, expected) && Fair(vs, expected)
    requires Wins(Poll(r, vs).candidates, Poll(r, vs).statuses, mask)
    ensures SomebodyDistributes(r, vs, mask)
    ensures
      var q := AfterCheck(r, vs, mask).round;
      forall i :: 0 <= i < |vs| ==>
        && (Distributes(q, vs[i]) <==> vs[i].revision == expected && vs[i].content == mask)
        && DirtyOf(q.dirty, vs[i].who) == Differing(mask, vs[i].content)
        && vs[i].who in q.statuses && q.statuses[vs[i].who] != KeySetMismatch && q.statuses[vs[i].who] != Violation
  {
    hide Wins, Anchored, Formed, Poll, AfterCheck, Starts, Differing;
    WinnerIsCurrent(r, vs, expected, mask);
    var w :| 0 <= w < |vs| && vs[w].revision == expected && vs[w].content == mask;
    VerdictsOf(r, vs, expected, w);
    assert Distributes(AfterCheck(r, vs, mask).round, vs[w]);
  }

  lemma SameMeansEqual(mask: Content, c: Content)
    requires SameForm(mask, c)
    ensures Differing(mask, c) == [] <==> c == mask
  {
    if Differing(mask, c) == [] {
      NoDifference(mask, c);
      forall i | 0 <= i < |mask| ensures c[i] == mask[i] { assert SameShape(mask[i], c[i]); }
      assert c == mask;
    } else {
      DifferingMeans(mask, c);
      var k := Differing(mask, c)[0];
      assert k in Differing(mask, c);
      var i :| 0 <= i < |mask| && mask[i].key == k && mask[i].hash != c[i].hash;
      assert c[i] != mask[i];
    }
  }

  /** A voter after the round: requesters take over the outdated keys and the revision of any distributor. */
  function Synced(q: Round, v: Voter, from: Voter): Voter {
    if Distributes(q, v) then v
    else v.(content := Fetched(v.content, from.content, DirtyOf(q.dirty, v.who)), revision := from.revision)
  }

  /** The group's records once the roles are given out and the round is over. */
  function Concluded(q: Round): Round { Ended(q.(next := q.next + 1)) }

  /** The round makes all peers equal to the elected content at the expected revision, whoever each requester
      fetches from; the next round starts clean and expects the next revision. */
  lemma RoundConverges(r: Round, vs: seq<Voter>, expected: nat, mask: Content, i: nat, d: nat)
    requires Starts(r, vs, expected) && Fair(vs, expected)
    requires Wins(Poll(r, vs).candidates, Poll(r, vs).statuses, mask)
    requires AfterCheck(r, vs, mask).Checked? && i < |vs| && d < |vs| && Distributes(AfterCheck(r, vs, mask).round, vs[d])
    ensures
      var q := AfterCheck(r, vs, mask).round;
      Synced(q, vs[i], vs[d]) == Voter(vs[i].who, expected, mask) && Clean(Concluded(q), expected + 1)
  {
    hide Wins, Compare, Fetched, Differing, Anchored, Formed, Poll, CheckFirst, Starts, SameForm, SameKeys;
    var q := AfterCheck(r, vs, mask).round;
    RoundVerdicts(r, vs, expected, mask);
    CheckKeepsNext(Poll(r, vs).(mask := mask), |Poll(r, vs).entries|);
    FormedVoters(vs, expected);
    Polled(r, vs, expected);
    FairShapes(vs, expected, d);
    SameMeansEqual(mask, vs[d].content);
    FetchConverges(mask, vs[i].content, vs[d].content);
  }

  lemma {:induction false} CheckKeepsNext(r: Round, n: nat)
    requires n <= |r.entries|
    ensures CheckFirst(r, n).Checked? ==> CheckFirst(r, n).round.next == r.next
    decreases n
  {
    if n > 0 { CheckKeepsNext(r, n - 1); }
  }

  // Rounds ------------------------------------------------------------------------------------------

  /** One whole round: any winner the election may pick, any distributor for each requester. */
  ghost predicate RoundOf(r: Round, vs: seq<Voter>, r': Round, vs': seq<Voter>) {
    exists mask :: RoundWith(r, vs, r', vs', mask)
  }

  ghost predicate RoundWith(r: Round, vs: seq<Voter>, r': Round, vs': seq<Voter>, mask: Content) {
    && Wins(Poll(r, vs).candidates, Poll(r, vs).statuses, mask) && AfterCheck(r, vs, mask).Checked?
    && r' == Concluded(AfterCheck(r, vs, mask).round) && |vs'| == |vs|
    && forall i :: 0 <= i < |vs| ==> SyncedFromSome(AfterCheck(r, vs, mask).round, vs, vs[i], vs'[i])
  }

  ghost predicate SyncedFromSome(q: Round, vs: seq<Voter>, v: Voter, v': Voter) {
    exists d :: 0 <= d < |vs| && Distributes(q, vs[d]) && v' == Synced(q, v, vs[d])
  }

  /** All peers of the group agree on content and revision. */
  ghost predicate Agreed(vs: seq<Voter>, vs': seq<Voter>, expected: nat) {
    |vs'| == |vs| && exists mask :: Current(vs, expected, mask) && forall i :: 0 <= i < |vs| ==> vs'[i] == Voter(vs[i].who, expected, mask)
  }

  lemma PeerAgrees(r: Round, vs: seq<Voter>, expected: nat, mask: Content, i: nat, v': Voter)
    requires Starts(r, vs, expected) && Fair(vs, expected) && i < |vs|
    requires Wins(Poll(r, vs).candidates, Poll(r, vs).statuses, mask) && AfterCheck(r, vs, mask).Checked?
    requires SyncedFromSome(AfterCheck(r, vs, mask).round, vs, vs[i], v')
    ensures v' == Voter(vs[i].who, expected, mask) && Clean(Concluded(AfterCheck(r, vs, mask).round), expected + 1)
  {
    hide Fair, Starts, Wins, Synced, Distributes, AfterCheck, Concluded, Clean, Poll;
    var q := AfterCheck(r, vs, mask).round;
    var d :| 0 <= d < |vs| && Distributes(q, vs[d]) && v' == Synced(q, vs[i], vs[d]);
    RoundConverges(r, vs, expected, mask, i, d);
  }

  lemma RoundAgrees(r: Round, vs: seq<Voter>, r': Round, vs': seq<Voter>, expected: nat)
    requires Starts(r, vs, expected) && Fair(vs, expected) && RoundOf(r, vs, r', vs')
    ensures Agreed(vs, vs', expected) && Clean(r', expected + 1)
  {
    hide Formed, Anchored, Starts, Wins, AfterCheck, Concluded, Clean, Poll, Current, SyncedFromSome;
    var mask :| RoundWith(r, vs, r', vs', mask);
    WinnerIsCurrent(r, vs, expected, mask);
    FormedVoters(vs, expected);
    PeerAgrees(r, vs, expected, mask, 0, vs'[0]);
    forall i | 0 <= i < |vs| ensures vs'[i] == Voter(vs[i].who, expected, mask) {
      PeerAgrees(r, vs, expected, mask, i, vs'[i]);
    }
  }

  /** Any number of rounds: every round ends with all its voters equal, and the revision goes up by one each time. */
  lemma {:induction false} RoundsConverge(rs: seq<Round>, votes: seq<seq<Voter>>, outs: seq<seq<Voter>>, expected: nat, n: nat)
    requires |rs| == |votes| + 1 == |outs| + 1 && n < |votes| && Starts(rs[0], votes[0], expected)
    requires forall i :: 0 <= i < |votes| ==> Fair(votes[i], expected + i) && RoundOf(rs[i], votes[i], rs[i + 1], outs[i])
    ensures Agreed(votes[n], outs[n], expected + n) && Clean(rs[n + 1], expected + n + 1)
  {
    hide Fair, RoundOf, Agreed;
    if n > 0 { RoundsConverge(rs, votes, outs, expected, n - 1); }
    RoundAgrees(rs[n], votes[n], rs[n + 1], outs[n], expected + n);
  }

  // A round through the master's records ------------------------------------------------------------

  /** All votes arrive at the keeper. */
  method CollectVotes(k: Keeper, vs: seq<Voter>, ghost expected: nat)
    requires Starts(k.State(), vs, expected) && Formed(vs, expected)
    modifies k
    ensures k.State() == Poll(old(k.State()), vs)
  {
    ghost var r := k.State();
    for n := 0 to |vs|
      invariant k.State() == Poll(r, vs[..n])
    {
      var v := vs[n];
      assert vs[..n + 1][..n] == vs[..n];
      var _ := k.IsNewRevisionLegal(v.who, v.revision);
      k.VoteMask(v.who, EnforcePopular, v.content);
    }
    assert vs[..|vs|] == vs;
  }

  method FindVoter(vs: seq<Voter>, distributors: set<Uuid>) returns (d: nat)
    requires exists i :: 0 <= i < |vs| && vs[i].who in distributors
    ensures d < |vs| && vs[d].who in distributors
  {
    d := 0;
    while vs[d].who !in distributors
      invariant d < |vs| && forall j :: 0 <= j < d ==> vs[j].who !in distributors
      decreases |vs| - d
    {
      d := d + 1;
    }
  }

  lemma SyncedFrom(q: Round, vs: seq<Voter>, n: nat, d: nat)
    requires n < |vs| && d < |vs| && Distributes(q, vs[d])
    ensures SyncedFromSome(q, vs, vs[n], Synced(q, vs[n], vs[d]))
  {
    hide Distributes, Synced;
  }

  /** The requesters fetch what they were told is outdated. */
  method FetchAll(q: Round, vs: seq<Voter>, distributors: set<Uuid>) returns (vs': seq<Voter>)
    requires forall i :: 0 <= i < |vs| ==> (vs[i].who in distributors <==> Distributes(q, vs[i]))
    requires exists i :: 0 <= i < |vs| && Distributes(q, vs[i])
    ensures |vs'| == |vs| && forall i :: 0 <= i < |vs| ==> SyncedFromSome(q, vs, vs[i], vs'[i])
  {
    hide Distributes, Synced, SyncedFromSome;
    var d := FindVoter(vs, distributors);
    vs' := [];
    for n := 0 to |vs|
      invariant |vs'| == n && forall i :: 0 <= i < n ==> SyncedFromSome(q, vs, vs[i], vs'[i])
    {
      SyncedFrom(q, vs, n, d);
      vs' := vs' + [Synced(q, vs[n], vs[d])];
    }
  }

  /** A whole round: votes, election, comparison, roles, fetching, end. All peers agree afterwards, and the records
      are clean for the next revision. */
  method Synchronize(k: Keeper, vs: seq<Voter>, ghost expected: nat) returns (vs': seq<Voter>)
    requires Starts(k.State(), vs, expected) && Fair(vs, expected)
    modifies k
    ensures RoundOf(old(k.State()), vs, k.State(), vs')
    ensures Agreed(vs, vs', expected) && Clean(k.State(), expected + 1)
  {
    hide Formed, Anchored, Starts, Wins, Poll, CheckFirst, Agreed, SyncedFromSome, Differing, Clean;
    ghost var r := k.State();
    CollectVotes(k, vs, expected);
    PollFacts(r, vs, expected);
    var found := k.ElectMask();
    ghost var mask := k.mask;
    RoundVerdicts(r, vs, expected, mask);
    MaskNotEmpty(r, vs, expected, mask);
    var hasMask, ok := k.CheckMismatches();
    var q := k.State();
    assert Checked(q) == AfterCheck(r, vs, mask);
    var us := set v | v in vs :: v.who;
    var started, distributors := k.Transition(us);
    RolesMatch(q, vs, us, distributors, started);
    vs' := FetchAll(q, vs, distributors);
    k.EndRound();
    assert RoundWith(r, vs, k.State(), vs', mask);
    RoundAgrees(r, vs, k.State(), vs', expected);
  }

  lemma PollFacts(r: Round, vs: seq<Voter>, expected: nat)
    requires Starts(r, vs, expected) && Formed(vs, expected)
    ensures Poll(r, vs).candidates != [] && |Poll(r, vs).entries| == |vs|
  {
    hide Starts, Poll, Formed;
    FormedVoters(vs, expected);
    Polled(r, vs, expected);
  }

  lemma MaskNotEmpty(r: Round, vs: seq<Voter>, expected: nat, mask: Content)
    requires Starts(r, vs, expected) && Formed(vs, expected) && Wins(Poll(r, vs).candidates, Poll(r, vs).statuses, mask)
    ensures mask != []
  {
    hide Wins, Poll, Starts;
    WinnerStands(r, vs, expected, mask);
  }

  lemma RolesMatch(q: Round, vs: seq<Voter>, us: set<Uuid>, distributors: set<Uuid>, ok: bool)
    requires us == (set v | v in vs :: v.who)
    requires forall i :: 0 <= i < |vs| ==> vs[i].who in q.statuses && q.statuses[vs[i].who] != KeySetMismatch
    requires ok <==> forall u :: u in us ==> u in q.statuses && q.statuses[u] != KeySetMismatch
    requires ok ==> distributors == set u | u in us && q.statuses[u] == Match
    ensures ok && forall i :: 0 <= i < |vs| ==> (vs[i].who in distributors <==> Distributes(q, vs[i]))
  {
    forall u | u in us ensures u in q.statuses && q.statuses[u] != KeySetMismatch {
      var v :| v in vs && v.who == u;
    }
    forall i | 0 <= i < |vs| ensures vs[i].who in us { assert vs[i] in vs; }
  }

  // What happens without an anchor ------------------------------------------------------------------

  function OneEntry(hash: nat): Content { [Entry(0, hash, 0, 8, 0, false)] }

  /** One peer is up to date, a peer that is not has the same content and votes after it, and a majority agrees on
      something else: the majority's content wins, and nobody distributes it. */
  function Demoted(): seq<Voter> {
    [Voter(1, 5, OneEntry(7)), Voter(2, 4, OneEntry(7)), Voter(3, 4, OneEntry(8)), Voter(4, 4, OneEntry(8)), Voter(5, 4, OneEntry(8))]
  }

  lemma DemotedVotes()
    ensures VotesFor(Ballots(Demoted()), OneEntry(7)) == 2 && VotesFor(Ballots(Demoted()), OneEntry(8)) == 3
  {
    var bs := Ballots(Demoted());
    assert bs == [Ballot(1, OneEntry(7)), Ballot(2, OneEntry(7)), Ballot(3, OneEntry(8)), Ballot(4, OneEntry(8)), Ballot(5, OneEntry(8))];
    assert bs[..4][..3] == bs[..3] && bs[..3][..2] == bs[..2] && bs[..2][..1] == bs[..1] && bs[..1][..0] == [];
    assert VotesFor(bs[..1], OneEntry(7)) == 1 && VotesFor(bs[..1], OneEntry(8)) == 0;
    assert VotesFor(bs[..2], OneEntry(7)) == 2 && VotesFor(bs[..2], OneEntry(8)) == 0;
    assert VotesFor(bs[..3], OneEntry(7)) == 2 && VotesFor(bs[..3], OneEntry(8)) == 1;
    assert VotesFor(bs[..4], OneEntry(7)) == 2 && VotesFor(bs[..4], OneEntry(8)) == 2;
  }

  lemma NobodyDistributes(r: Round)
    requires Clean(r, 5)
    ensures Starts(r, Demoted(), 5) && Formed(Demoted(), 5) && !Anchored(Demoted(), 5)
    ensures Wins(Poll(r, Demoted()).candidates, Poll(r, Demoted()).statuses, OneEntry(8))
    ensures
      var c := AfterCheck(r, Demoted(), OneEntry(8));
      c.Checked? && forall i :: 0 <= i < |Demoted()| ==> !Distributes(c.round, Demoted()[i])
  {
    hide Poll, AfterCheck, VotesFor, Wins, Formed, Anchored, Starts;
    var vs := Demoted();
    DemotedFormed();
    DemotedUnanchored();
    DemotedStarts(r);
    LeaderWins(r, vs, 5, 2);
    VerdictsOf(r, vs, 5, 2);
  }

  lemma DemotedStarts(r: Round)
    requires Clean(r, 5)
    ensures Starts(r, Demoted(), 5)
  {
  }

  lemma OneEntryForm(a: nat, b: nat)
    ensures SameForm(OneEntry(a), OneEntry(b)) && DistinctKeys(OneEntry(a)) && OneEntry(a) != []
  {
  }

  lemma DemotedFormed()
    ensures Formed(Demoted(), 5)
  {
    hide SameForm, DistinctKeys, OneEntry;
    var vs := Demoted();
    OneEntryForm(7, 7);
    OneEntryForm(7, 8);
    OneEntryForm(8, 7);
    OneEntryForm(8, 8);
    assert forall i :: 0 <= i < |vs| ==> vs[i].content == OneEntry(7) || vs[i].content == OneEntry(8);
  }

  lemma DemotedUnanchored()
    ensures Leads(Demoted(), 2) && !Anchored(Demoted(), 5)
    ensures forall k: nat :: LastFor(Demoted(), k) ==> Demoted()[k].revision != 5
  {
    hide VotesFor, Ballots;
    var vs := Demoted();
    DemotedVotes();
    assert vs[1].content == vs[0].content;
    assert !Current(vs, 5, vs[2].content);
  }
}
