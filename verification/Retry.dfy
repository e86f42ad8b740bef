/** Running many all-reduces with a bound on how many are in flight, retrying those that fail. */
module Retry {

  /** The outside world: how the n-th await ends, the world size after it, and whether the n-th launch succeeds. */
  datatype Env = Env(succeeds: nat -> bool, worldAfter: nat -> nat, launches: nat -> bool)

  datatype Event = Launched(op: nat) | Awaited(op: nat, ok: bool) | Failed(op: nat)

  /** The local variables of the scheduler; `trace` records what it did. */
  datatype Sched = Sched(live: seq<bool>, completed: set<nat>, inFlight: nat, world: nat, awaits: nat, starts: nat,
                         trace: seq<Event>)

  datatype Result = Success | TooFewPeers | InvalidArgument | LaunchError

  function Count(live: seq<bool>): nat {
    if live == [] then 0 else Count(live[..|live| - 1]) + if live[|live| - 1] then 1 else 0
  }

  /** Rounds in which an operation failed. */
  function FailedRounds(trace: seq<Event>): nat {
    if trace == [] then 0 else FailedRounds(trace[..|trace| - 1]) + if trace[|trace| - 1].Failed? then 1 else 0
  }

  predicate Pending(s: Sched, i: nat) { i < |s.live| && !s.live[i] && i !in s.completed }

  function PendingSet(s: Sched): set<nat> { set i | 0 <= i < |s.live| && Pending(s, i) }

  /** An operation is completed when an await of it succeeded, and is never launched again after that. */
  ghost predicate Recorded(s: Sched) {
    && (forall i :: i in s.completed ==> i < |s.live| && !s.live[i])
    && (forall i :: i in s.completed <==> exists p :: 0 <= p < |s.trace| && s.trace[p] == Awaited(i, true))
    && NoRelaunch(s.trace)
  }

  ghost predicate NoRelaunch(trace: seq<Event>) {
    forall p, q :: 0 <= p < q < |trace| && trace[p].Awaited? && trace[p].ok ==> trace[q] != Launched(trace[p].op)
  }

  /** What every step keeps: the counter is the number of live handles plus the failed rounds, because a handle
      that fails is never subtracted. */
  ghost predicate Ok(s: Sched, max: nat) {
    && Recorded(s) && s.inFlight == Count(s.live) + FailedRounds(s.trace) <= max
    && (FailedRounds(s.trace) == max ==> exists i :: 0 <= i < |s.live| && i !in s.completed)
  }

  /** Live handles come before operations that are still to be launched. */
  ghost predicate Ordered(s: Sched) {
    forall i, j :: 0 <= i < |s.live| && s.live[i] && Pending(s, j) ==> i < j
  }

  // What the environment decides --------------------------------------------------------------------

  datatype Tally = Tally(completed: nat, failed: nat)

  /** How many of the `k` awaits from the `n`-th on succeed. */
  function Successes(env: Env, n: nat, k: nat): (r: nat)
    ensures r <= k
  {
    if k == 0 then 0 else Successes(env, n, k - 1) + if env.succeeds(n + k - 1) then 1 else 0
  }

  function Min(a: nat, b: nat): nat { if a < b then a else b }

  /** Where a run ends, read off the outcomes of the awaits alone. With `c` operations completed and `f` rounds
      failed, an await that succeeds completes one more. One that fails gives up the round: the other operations in
      flight, as many as there are slots that no failed round has used up, are awaited too. */
  function EndOf(env: Env, count: nat, max: nat, c: nat, f: nat, n: nat): Tally
    requires c <= count && f <= max
    decreases count - c + max - f
  {
    if c == count || f == max then Tally(c, f)
    else if env.succeeds(n) then EndOf(env, count, max, c + 1, f, n + 1)
    else
      var others := Min(max - f, count - c) - 1;
      EndOf(env, count, max, c + Successes(env, n + 1, others), f + 1, n + 1 + others)
  }

  /** Every operation completes if and only if fewer rounds fail than operations may be in flight. */
  lemma {:induction false} CompleteIffRoundsLeft(env: Env, count: nat, max: nat, c: nat, f: nat, n: nat)
    requires c <= count && f <= max && (c == count ==> f < max)
    ensures EndOf(env, count, max, c, f, n).completed == count <==> EndOf(env, count, max, c, f, n).failed < max
    decreases count - c + max - f
  {
    if c < count && f < max {
      if env.succeeds(n) {
        CompleteIffRoundsLeft(env, count, max, c + 1, f, n + 1);
      } else {
        var others := Min(max - f, count - c) - 1;
        CompleteIffRoundsLeft(env, count, max, c + Successes(env, n + 1, others), f + 1, n + 1 + others);
      }
    }
  }

  lemma {:induction false} SuccessesSplit(env: Env, n: nat, k: nat, l: nat)
    ensures Successes(env, n, k + l) == Successes(env, n, k) + Successes(env, n + k, l)
    decreases l
  {
    if l > 0 { SuccessesSplit(env, n, k, l - 1); }
  }

  /** Of the awaits from the `n`-th on, at most `k` fail. */
  ghost predicate FewFailures(env: Env, n: nat, k: int) {
    forall m: nat :: m - Successes(env, n, m) <= k
  }

  lemma FewerLater(env: Env, n: nat, k: int, m: nat)
    requires FewFailures(env, n, k)
    ensures FewFailures(env, n + m, k - (m - Successes(env, n, m)))
  {
    var later := n + m;
    forall l: nat ensures l - Successes(env, later, l) <= k - (m - Successes(env, n, m)) {
      SuccessesSplit(env, n, m, l);
      assert m + l - Successes(env, n, m + l) <= k;
    }
  }

  /** With `k` failing awaits in all, no more than `k` rounds fail. */
  lemma {:induction false} FailuresBoundRounds(env: Env, count: nat, max: nat, c: nat, f: nat, n: nat, k: nat)
    requires c <= count && f <= max && FewFailures(env, n, k)
    ensures EndOf(env, count, max, c, f, n).failed <= f + k
    decreases count - c + max - f
  {
    if c < count && f < max {
      assert Successes(env, n, 1) == if env.succeeds(n) then 1 else 0;
      FewerLater(env, n, k, 1);
      if env.succeeds(n) {
        FailuresBoundRounds(env, count, max, c + 1, f, n + 1, k);
      } else {
        assert 1 - Successes(env, n, 1) <= k;
        var others := Min(max - f, count - c) - 1;
        FewerLater(env, n + 1, k - 1, others);
        assert FewFailures(env, n + 1 + others, k - 1);
        FailuresBoundRounds(env, count, max, c + Successes(env, n + 1, others), f + 1, n + 1 + others, k - 1);
      }
    }
  }

  /** With a single slot, everything completes exactly if none of the first `count` awaits fails. */
  lemma {:induction false} OneSlot(env: Env, count: nat, c: nat, n: nat)
    requires c <= count
    ensures EndOf(env, count, 1, c, 0, n).completed == count <==> forall m :: n <= m < n + count - c ==> env.succeeds(m)
    decreases count - c
  {
    if c < count && env.succeeds(n) {
      OneSlot(env, count, c + 1, n + 1);
      assert (forall m :: n <= m < n + count - c ==> env.succeeds(m)) <==>
             (forall m :: n + 1 <= m < n + 1 + count - (c + 1) ==> env.succeeds(m));
    } else if c < count {
      assert EndOf(env, count, 1, c, 1, n + 1) == Tally(c, 1);
    }
  }

  /** The outcomes of the awaits in `trace`, in order. */
  function Outcomes(trace: seq<Event>): seq<bool> {
    if trace == [] then []
    else
      var e := trace[|trace| - 1];
      Outcomes(trace[..|trace| - 1]) + if e.Awaited? then [e.ok] else []
  }

  /** The trace is what the environment made of it, and the run is on the way to `goal`. */
  ghost predicate Tracks(s: Sched, env: Env, max: nat, goal: Tally) {
    && Answered(s, env) && |s.completed| <= |s.live| && FailedRounds(s.trace) <= max
    && EndOf(env, |s.live|, max, |s.completed|, FailedRounds(s.trace), s.awaits) == goal
  }

  /** What a trace says about the awaits after which the world size is read: the number of the last one, or -1; whether a
      failed round is being drained, in which nothing is read; and the number of awaits. */
  datatype Reading = Reading(at: int, draining: bool, awaits: nat)

  function Readings(trace: seq<Event>): Reading {
    if trace == [] then Reading(-1, false, 0)
    else
      var before := Readings(trace[..|trace| - 1]);
      match trace[|trace| - 1]
      case Launched(_) => before
      case Awaited(_, ok) =>
        if before.draining then before.(awaits := before.awaits + 1) else Reading(before.awaits, !ok, before.awaits + 1)
      case Failed(_) => before.(draining := false)
  }

  /** The world size as it was read last, or the one given if there was no await yet. */
  function SizeRead(trace: seq<Event>, env: Env, world: nat): nat {
    var at := Readings(trace).at;
    if at < 0 then world else env.worldAfter(at)
  }

  function Launches(trace: seq<Event>): nat {
    if trace == [] then 0 else Launches(trace[..|trace| - 1]) + if trace[|trace| - 1].Launched? then 1 else 0
  }

  /** The launches in the trace are those that the environment let succeed. */
  ghost predicate LaunchesOk(s: Sched, env: Env) {
    s.starts == Launches(s.trace) && forall n :: 0 <= n < s.starts ==> env.launches(n)
  }

  /** The world size is the one read after the last await outside a drain, or the one given if there was none. */
  ghost predicate WorldRead(s: Sched, env: Env, world: nat) {
    && s.world == SizeRead(s.trace, env, world) && !Readings(s.trace).draining && Readings(s.trace).awaits == s.awaits
    && LaunchesOk(s, env)
  }

  lemma ReadingsMore(trace: seq<Event>, e: Event)
    ensures
      var r, r' := Readings(trace), Readings(trace + [e]);
      && Launches(trace + [e]) == Launches(trace) + (if e.Launched? then 1 else 0)
      && match e
         case Launched(_) => r' == r
         case Awaited(_, ok) =>
           r' == if r.draining then r.(awaits := r.awaits + 1) else Reading(r.awaits, !ok, r.awaits + 1)
         case Failed(_) => r' == r.(draining := false)
  {
    assert (trace + [e])[..|trace|] == trace;
  }

  // Counting ----------------------------------------------------------------------------------------

  lemma {:induction false} CountUpdate(live: seq<bool>, i: nat, b: bool)
    requires i < |live|
    ensures Count(live[i := b]) == Count(live) - (if live[i] then 1 else 0) + (if b then 1 else 0)
    decreases |live|
  {
    var n := |live| - 1;
    if i < n {
      CountUpdate(live[..n], i, b);
      assert live[i := b][..n] == live[..n][i := b];
    } else {
      assert live[i := b][..n] == live[..n];
    }
  }

  lemma {:induction false} CountNone(live: seq<bool>)
    ensures Count(live) == 0 <==> forall i :: 0 <= i < |live| ==> !live[i]
    decreases |live|
  {
    if live != [] { CountNone(live[..|live| - 1]); }
  }

  lemma RoundsMore(trace: seq<Event>, e: Event)
    ensures FailedRounds(trace + [e]) == FailedRounds(trace) + if e.Failed? then 1 else 0
  {
    assert (trace + [e])[..|trace|] == trace;
  }

  // Steps -------------------------------------------------------------------------------------------

  function AfterLaunch(s: Sched, i: nat): Sched
    requires i < |s.live|
  {
    s.(live := s.live[i := true], inFlight := s.inFlight + 1, starts := s.starts + 1, trace := s.trace + [Launched(i)])
  }

  function AfterSuccess(s: Sched, i: nat, world: nat): Sched
    requires i < |s.live|
  {
    s.(live := s.live[i := false], completed := s.completed + {i}, inFlight := if s.inFlight > 0 then s.inFlight - 1 else 0,
       world := world, awaits := s.awaits + 1, trace := s.trace + [Awaited(i, true)])
  }

  lemma RecordedLaunch(s: Sched, i: nat)
    requires Recorded(s) && Pending(s, i)
    ensures Recorded(AfterLaunch(s, i))
  {
    var t := AfterLaunch(s, i).trace;
    forall p | 0 <= p < |s.trace| ensures t[p] == s.trace[p] { }
    forall j | j in s.completed ensures exists p :: 0 <= p < |t| && t[p] == Awaited(j, true) {
      var p :| 0 <= p < |s.trace| && s.trace[p] == Awaited(j, true);
      assert t[p] == Awaited(j, true);
    }
  }

  lemma LaunchOk(s: Sched, i: nat, max: nat)
    requires Ok(s, max) && Pending(s, i) && s.inFlight < max
    ensures Ok(AfterLaunch(s, i), max) && FailedRounds(AfterLaunch(s, i).trace) == FailedRounds(s.trace)
  {
    hide Recorded;
    RecordedLaunch(s, i);
    CountUpdate(s.live, i, true);
    RoundsMore(s.trace, Launched(i));
  }

  lemma RecordedSuccess(s: Sched, i: nat, world: nat)
    requires Recorded(s) && i < |s.live| && s.live[i]
    ensures Recorded(AfterSuccess(s, i, world))
  {
    var s' := AfterSuccess(s, i, world);
    forall p | 0 <= p < |s.trace| ensures s'.trace[p] == s.trace[p] { }
    assert s'.trace[|s.trace|] == Awaited(i, true);
    forall j | j in s.completed ensures exists p :: 0 <= p < |s'.trace| && s'.trace[p] == Awaited(j, true) {
      var p :| 0 <= p < |s.trace| && s.trace[p] == Awaited(j, true);
      assert s'.trace[p] == Awaited(j, true);
    }
  }

  lemma SuccessOk(s: Sched, i: nat, world: nat, max: nat)
    requires Ok(s, max) && i < |s.live| && s.live[i] && FailedRounds(s.trace) < max
    ensures Ok(AfterSuccess(s, i, world), max) && FailedRounds(AfterSuccess(s, i, world).trace) == FailedRounds(s.trace)
    ensures s.inFlight > 0
  {
    hide Recorded;
    RecordedSuccess(s, i, world);
    CountUpdate(s.live, i, false);
    RoundsMore(s.trace, Awaited(i, true));
    CountNone(s.live);
  }

  /** A failed await: the handle is dropped, the counter stays. */
  function AfterFailure(s: Sched, i: nat, world: nat): Sched
    requires i < |s.live|
  {
    s.(live := s.live[i := false], world := world, awaits := s.awaits + 1, trace := s.trace + [Awaited(i, false)])
  }

  /** One handle is awaited while the round is given up. */
  function Drained(s: Sched, j: nat, ok: bool): Sched
    requires j < |s.live|
  {
    s.(live := s.live[j := false], completed := if ok then s.completed + {j} else s.completed,
       inFlight := if s.inFlight > 0 then s.inFlight - 1 else 0, awaits := s.awaits + 1, trace := s.trace + [Awaited(j, ok)])
  }

  lemma RecordedDrop(s: Sched, s': Sched, i: nat, ok: bool)
    requires Recorded(s) && i < |s.live| && s.live[i]
    requires s'.live == s.live[i := false] && s'.trace == s.trace + [Awaited(i, ok)]
    requires s'.completed == if ok then s.completed + {i} else s.completed
    ensures Recorded(s')
  {
    forall p | 0 <= p < |s.trace| ensures s'.trace[p] == s.trace[p] { }
    assert s'.trace[|s.trace|] == Awaited(i, ok);
    forall j | j in s.completed ensures exists p :: 0 <= p < |s'.trace| && s'.trace[p] == Awaited(j, true) {
      var p :| 0 <= p < |s.trace| && s.trace[p] == Awaited(j, true);
      assert s'.trace[p] == Awaited(j, true);
    }
  }

  lemma RecordedNote(s: Sched, i: nat)
    requires Recorded(s)
    ensures Recorded(s.(trace := s.trace + [Failed(i)]))
  {
    var t := s.trace + [Failed(i)];
    forall p | 0 <= p < |s.trace| ensures t[p] == s.trace[p] { }
    forall j | j in s.completed ensures exists p :: 0 <= p < |t| && t[p] == Awaited(j, true) {
      var p :| 0 <= p < |s.trace| && s.trace[p] == Awaited(j, true);
      assert t[p] == Awaited(j, true);
    }
  }

  lemma OutcomesMore(trace: seq<Event>, e: Event)
    ensures Outcomes(trace + [e]) == Outcomes(trace) + if e.Awaited? then [e.ok] else []
  {
    assert (trace + [e])[..|trace|] == trace;
  }

  /** The awaits in the trace ended as the environment decides. */
  ghost predicate Answered(s: Sched, env: Env) {
    |Outcomes(s.trace)| == s.awaits && forall n :: 0 <= n < s.awaits ==> Outcomes(s.trace)[n] == env.succeeds(n)
  }

  /** Wait for all ongoing operations before the round is retried. */
  method Drain(s: Sched, i: nat, env: Env, max: nat) returns (s': Sched)
    requires i < |s.live| && !s.live[i] && i !in s.completed && Recorded(s) && Answered(s, env)
    requires s.inFlight == Count(s.live) + FailedRounds(s.trace) + 1 <= max && Readings(s.trace).draining
    ensures |s'.live| == |s.live| && s'.world == s.world && s'.starts == s.starts
    ensures Readings(s'.trace) == Reading(Readings(s.trace).at, false, Readings(s.trace).awaits + Count(s.live))
    ensures Launches(s'.trace) == Launches(s.trace)
    ensures s'.awaits == s.awaits + Count(s.live)
    ensures |s'.completed| == |s.completed| + Successes(env, s.awaits, Count(s.live))
    ensures Answered(s', env)
    ensures Ok(s', max) && Count(s'.live) == 0 && FailedRounds(s'.trace) == FailedRounds(s.trace) + 1
  {
    hide Recorded, Answered, Count, FailedRounds, Successes, Readings, Launches;
    s' := s;
    DrainStarts(s, i, env, max);
    for j := 0 to |s.live|
      invariant Draining(s, s', i, env, max) && forall k :: 0 <= k < j ==> !s'.live[k]
    {
      if j != i && s'.live[j] {
        DrainNext(s, s', i, j, env, max);
        s' := Drained(s', j, env.succeeds(s'.awaits));
      }
    }
    DrainEnds(s, s', i, env, max);
    s' := s'.(trace := s'.trace + [Failed(i)]);
  }

  /** The scheduler while the handles of a failed round are awaited; `s` is where that started. */
  ghost predicate Draining(s: Sched, t: Sched, i: nat, env: Env, max: nat) {
    && |t.live| == |s.live| && t.world == s.world && t.starts == s.starts && t.awaits >= s.awaits
    && Recorded(t) && i < |t.live| && !t.live[i] && i !in t.completed && Answered(t, env)
    && FailedRounds(t.trace) == FailedRounds(s.trace) && t.inFlight == Count(t.live) + FailedRounds(s.trace) + 1 <= max
    && t.awaits + Count(t.live) == s.awaits + Count(s.live) && Launches(t.trace) == Launches(s.trace)
    && Readings(t.trace) == Readings(s.trace).(awaits := Readings(s.trace).awaits + t.awaits - s.awaits)
    && Readings(s.trace).draining
    && |t.completed| == |s.completed| + Successes(env, s.awaits, t.awaits - s.awaits)
  }

  lemma DrainStarts(s: Sched, i: nat, env: Env, max: nat)
    requires i < |s.live| && !s.live[i] && i !in s.completed && Recorded(s) && Answered(s, env)
    requires s.inFlight == Count(s.live) + FailedRounds(s.trace) + 1 <= max && Readings(s.trace).draining
    ensures Draining(s, s, i, env, max)
  {
    hide Recorded, Answered, Readings;
  }

  lemma DrainNext(s: Sched, t: Sched, i: nat, j: nat, env: Env, max: nat)
    requires Draining(s, t, i, env, max) && j < |t.live| && t.live[j]
    ensures Draining(s, Drained(t, j, env.succeeds(t.awaits)), i, env, max)
  {
    hide Recorded, Answered, Count, FailedRounds, Successes, Readings, Launches;
    var ok := env.succeeds(t.awaits);
    ReadingsMore(t.trace, Awaited(j, ok));
    LiveNotCompleted(t, j);
    RecordedDrop(t, Drained(t, j, ok), j, ok);
    CountUpdate(t.live, j, false);
    RoundsMore(t.trace, Awaited(j, ok));
    AnsweredMore(t, j, Drained(t, j, ok), env);
    OneMore(env, s.awaits, t.awaits - s.awaits);
  }

  lemma LiveNotCompleted(t: Sched, j: nat)
    requires Recorded(t) && j < |t.live| && t.live[j]
    ensures j !in t.completed && |t.completed + {j}| == |t.completed| + 1
  {
  }

  lemma AnsweredMore(t: Sched, j: nat, t': Sched, env: Env)
    requires Answered(t, env) && t'.trace == t.trace + [Awaited(j, env.succeeds(t.awaits))] && t'.awaits == t.awaits + 1
    ensures Answered(t', env)
  {
    OutcomesMore(t.trace, Awaited(j, env.succeeds(t.awaits)));
  }

  lemma OneMore(env: Env, n: nat, k: nat)
    ensures Successes(env, n, k + 1) == Successes(env, n, k) + if env.succeeds(n + k) then 1 else 0
  {
  }

  lemma DrainEnds(s: Sched, t: Sched, i: nat, env: Env, max: nat)
    requires Draining(s, t, i, env, max) && forall k :: 0 <= k < |t.live| ==> !t.live[k]
    ensures
      var u := t.(trace := t.trace + [Failed(i)]);
      && t.awaits == s.awaits + Count(s.live) && Count(t.live) == 0
      && Ok(u, max) && Answered(u, env) && FailedRounds(u.trace) == FailedRounds(s.trace) + 1
      && Readings(u.trace) == Reading(Readings(s.trace).at, false, Readings(s.trace).awaits + Count(s.live))
      && Launches(u.trace) == Launches(s.trace)
  {
    hide Recorded, Readings, Launches;
    ReadingsMore(t.trace, Failed(i));
    CountNone(t.live);
    RecordedNote(t, i);
    RoundsMore(t.trace, Failed(i));
    OutcomesMore(t.trace, Failed(i));
  }

  method AllLaunched(s: Sched) returns (all: bool)
    ensures all <==> forall j :: 0 <= j < |s.live| ==> !Pending(s, j)
  {
    for j := 0 to |s.live|
      invariant forall k :: 0 <= k < j ==> !Pending(s, k)
    {
      if !s.live[j] && j !in s.completed {
        assert Pending(s, j);
        return false;
      }
    }
    return true;
  }

  /** The world always holds at least this peer. */
  ghost predicate SelfCounts(env: Env) { forall n :: env.worldAfter(n) >= 1 }

  lemma WorldAt(env: Env, n: nat)
    requires SelfCounts(env)
    ensures env.worldAfter(n) >= 1
  {
  }

  // One pass ----------------------------------------------------------------------------------------

  ghost predicate AllCompleted(s: Sched) { forall i :: 0 <= i < |s.live| ==> i in s.completed }

  /** The scheduler in the middle of a pass without a failure so far, before index `i`. */
  ghost predicate Passing(s: Sched, s': Sched, max: nat, i: nat, touched: bool, allDone: bool) {
    && Ok(s', max) && Ordered(s') && |s'.live| == |s.live| && s'.awaits >= s.awaits
    && FailedRounds(s'.trace) == FailedRounds(s.trace)
    && (forall j: nat :: Pending(s', j) ==> Pending(s, j))
    && (touched ==> s'.inFlight < max)
    && (!touched ==> s' == s && allDone && forall k :: 0 <= k < i && k < |s.live| ==> !s.live[k])
    && (FailedRounds(s.trace) < max ==> forall k :: 0 <= k < i ==> !Pending(s', k))
    && (allDone ==> forall k :: 0 <= k < i && k < |s.live| ==> !s'.live[k])
    && (!allDone ==> PendingSet(s) != {})
  }

  /** With a free slot left over after the failed rounds, an operation that is still to be launched is never
      passed over. */
  lemma RoomToLaunch(s: Sched, s': Sched, max: nat, i: nat, touched: bool, allDone: bool)
    requires Passing(s, s', max, i, touched, allDone) && Pending(s', i) && FailedRounds(s.trace) < max
    ensures s'.inFlight < max
  {
    hide Recorded;
    if !touched {
      forall l | 0 <= l < |s.live| ensures !s.live[l] { }
      CountNone(s.live);
    }
  }

  /** Once as many rounds have failed as operations may be in flight, nothing is live and nothing is launched. */
  lemma Exhausted(s: Sched, max: nat)
    requires Ok(s, max) && FailedRounds(s.trace) == max
    ensures s.inFlight == max && forall l :: 0 <= l < |s.live| ==> !s.live[l]
  {
    hide Recorded;
    CountNone(s.live);
  }

  lemma StillPending(s: Sched, i: nat)
    requires i < |s.live| && !s.live[i] && i !in s.completed
    ensures Pending(s, i)
  {
  }

  /** The handle of `i` is live, and everything still to be launched comes later. */
  ghost predicate Holding(s: Sched, t: Sched, max: nat, i: nat, allDone: bool) {
    && Ok(t, max) && Ordered(t) && |t.live| == |s.live| && t.awaits >= s.awaits && i < |t.live| && t.live[i]
    && FailedRounds(t.trace) == FailedRounds(s.trace) < max
    && (forall j: nat :: Pending(t, j) ==> Pending(s, j) && j > i)
    && (allDone ==> forall k :: 0 <= k < i ==> !t.live[k]) && (!allDone ==> PendingSet(s) != {})
  }

  lemma LaunchHolds(s: Sched, s': Sched, max: nat, i: nat, touched: bool, allDone: bool)
    requires Passing(s, s', max, i, touched, allDone) && Pending(s', i) && s'.inFlight < max
    ensures Holding(s, AfterLaunch(s', i), max, i, allDone)
  {
    hide Recorded;
    LaunchOk(s', i, max);
    var t := AfterLaunch(s', i);
    assert FailedRounds(s.trace) < max;
    forall j: nat | Pending(t, j) ensures Pending(s', j) && j > i {
      assert j != i && Pending(s', j);
    }
    forall l, j: nat | 0 <= l < |t.live| && t.live[l] && Pending(t, j) ensures l < j {
      if l != i { assert s'.live[l] && Pending(s', j); }
    }
  }

  lemma LiveHolds(s: Sched, s': Sched, max: nat, i: nat, touched: bool, allDone: bool)
    requires Passing(s, s', max, i, touched, allDone) && i < |s'.live| && s'.live[i]
    ensures Holding(s, s', max, i, allDone)
  {
    hide Recorded;
    if FailedRounds(s.trace) == max { Exhausted(s', max); }
    forall j: nat | Pending(s', j) ensures j > i { }
  }

  /** The pass goes on after `i` was awaited with success. */
  lemma SuccessPasses(s: Sched, t: Sched, max: nat, i: nat, world: nat, allDone: bool)
    requires Holding(s, t, max, i, allDone)
    ensures Passing(s, AfterSuccess(t, i, world), max, i + 1, true, allDone)
  {
    hide Recorded;
    SuccessOk(t, i, world, max);
    var u := AfterSuccess(t, i, world);
    forall j: nat | Pending(u, j) ensures Pending(t, j) && Pending(s, j) && j > i { }
    forall l, j: nat | 0 <= l < |u.live| && u.live[l] && Pending(u, j) ensures l < j {
      assert t.live[l] && Pending(t, j);
    }
  }

  lemma WaitPasses(s: Sched, t: Sched, max: nat, i: nat, allDone: bool, j: nat)
    requires Holding(s, t, max, i, allDone) && t.inFlight < max && Pending(t, j)
    ensures Passing(s, t, max, i + 1, true, false)
  {
    hide Recorded;
    assert Pending(s, j) && j in PendingSet(s);
  }

  lemma SkipPasses(s: Sched, s': Sched, max: nat, i: nat, touched: bool, allDone: bool)
    requires Passing(s, s', max, i, touched, allDone) && i < |s'.live| && !s'.live[i]
    requires i in s'.completed || s'.inFlight >= max
    ensures Passing(s, s', max, i + 1, touched, allDone)
  {
    hide Recorded;
    if i !in s'.completed && FailedRounds(s.trace) < max {
      RoomToLaunch(s, s', max, i, touched, allDone);
    }
  }

  datatype PassEnd = AllDone | Again | Error

  datatype VisitEnd = GoOn(allDone: bool) | Retried | Refused

  /** The body of the inner loop for index `i`; `s` is the state at the start of the pass. */
  method Visit(ghost s: Sched, now: Sched, env: Env, max: nat, i: nat, allDone: bool, ghost touched: bool,
               ghost world: nat, ghost goal: Tally)
    returns (end: VisitEnd, next: Sched, ghost touched': bool)
    requires i < |now.live| && Passing(s, now, max, i, touched, allDone) && now.world >= 1 && SelfCounts(env)
    requires Tracks(now, env, max, goal) && WorldRead(now, env, world)
    ensures |next.live| == |s.live| && next.world >= 1
    ensures end.GoOn? ==> Passing(s, next, max, i + 1, touched', end.allDone)
    ensures end.Retried? ==> Ok(next, max) && Ordered(next) && FailedRounds(next.trace) == FailedRounds(s.trace) + 1
    ensures Tracks(next, env, max, goal) && WorldRead(next, env, world)
    ensures end.Refused? ==> !env.launches(next.starts)
  {
    hide Ok, Ordered, PendingSet, AllCompleted, SelfCounts, Pending, Tracks, WorldRead;
    next, touched' := now, touched;
    if !next.live[i] {
      if i in next.completed || next.inFlight >= max {
        SkipPasses(s, next, max, i, touched, allDone);
        return GoOn(allDone), next, touched;
      }
      if !env.launches(next.starts) {
        return Refused, next, touched;
      }
      StillPending(next, i);
      LaunchHolds(s, next, max, i, touched, allDone);
      LaunchTracks(next, i, env, max, world, goal);
      next := AfterLaunch(next, i);
    } else {
      LiveHolds(s, next, max, i, touched, allDone);
    }
    end, next, touched' := WaitOrAwait(s, next, env, max, i, allDone, world, goal);
  }

  lemma LaunchTracks(s: Sched, i: nat, env: Env, max: nat, world: nat, goal: Tally)
    requires Tracks(s, env, max, goal) && WorldRead(s, env, world) && i < |s.live| && env.launches(s.starts)
    ensures Tracks(AfterLaunch(s, i), env, max, goal) && WorldRead(AfterLaunch(s, i), env, world)
  {
    hide Readings, Launches, EndOf;
    ReadingsMore(s.trace, Launched(i));
    RoundsMore(s.trace, Launched(i));
    OutcomesMore(s.trace, Launched(i));
  }

  lemma CompletedSize(s: Sched)
    requires Recorded(s)
    ensures |s.completed| + Count(s.live) + |PendingSet(s)| == |s.live|
  {
    Parts(s, |s.live|);
    assert s.completed == CompletedOf(s, |s.live|);
    assert s.live[..|s.live|] == s.live;
    assert PendingSet(s) == PendingOf(s, |s.live|);
  }

  function CompletedOf(s: Sched, n: nat): set<nat> { set i | i in s.completed && i < n }

  function PendingOf(s: Sched, n: nat): set<nat> { set i | 0 <= i < n && Pending(s, i) }

  /** Each of the first `n` operations is completed, live, or still to be launched. */
  lemma {:induction false} Parts(s: Sched, n: nat)
    requires n <= |s.live| && forall i :: i in s.completed ==> i < |s.live| && !s.live[i]
    ensures |CompletedOf(s, n)| + Count(s.live[..n]) + |PendingOf(s, n)| == n
  {
    if n > 0 {
      Parts(s, n - 1);
      NextPart(s, n - 1);
      assert s.live[..n][..n - 1] == s.live[..n - 1];
    }
  }

  lemma NextPart(s: Sched, m: nat)
    requires m < |s.live|
    ensures CompletedOf(s, m + 1) == if m in s.completed then CompletedOf(s, m) + {m} else CompletedOf(s, m)
    ensures PendingOf(s, m + 1) == if Pending(s, m) then PendingOf(s, m) + {m} else PendingOf(s, m)
    ensures m !in CompletedOf(s, m) && m !in PendingOf(s, m)
  {
  }

  lemma SuccessTracks(s: Sched, i: nat, env: Env, max: nat, world: nat, goal: Tally)
    requires Recorded(s) && Tracks(s, env, max, goal) && i < |s.live| && s.live[i] && FailedRounds(s.trace) < max
    requires env.succeeds(s.awaits) && WorldRead(s, env, world)
    ensures
      var t := AfterSuccess(s, i, env.worldAfter(s.awaits));
      Tracks(t, env, max, goal) && WorldRead(t, env, world)
  {
    hide Readings, Launches;
    ReadingsMore(s.trace, Awaited(i, true));
    CompletedSize(s);
    CountNone(s.live);
    assert i !in s.completed;
    RoundsMore(s.trace, Awaited(i, true));
    OutcomesMore(s.trace, Awaited(i, true));
    var t := AfterSuccess(s, i, env.worldAfter(s.awaits));
    assert t.world == env.worldAfter(s.awaits);
  }

  /** At a failing await exactly as many operations are in flight as the tally says. */
  lemma FailTracks(s: Sched, i: nat, env: Env, max: nat, world: nat, goal: Tally, next: Sched)
    requires Ok(s, max) && Tracks(s, env, max, goal) && i < |s.live| && s.live[i] && !env.succeeds(s.awaits)
    requires s.inFlight >= max || PendingSet(s) == {}
    requires FailedRounds(next.trace) == FailedRounds(s.trace) + 1 && |next.live| == |s.live| && Answered(next, env)
    requires next.awaits == s.awaits + Count(s.live) && next.world == env.worldAfter(s.awaits)
    requires Count(s.live) >= 1
    requires |next.completed| == |s.completed| + Successes(env, s.awaits + 1, Count(s.live) - 1)
    requires Readings(next.trace) == Reading(s.awaits, false, next.awaits) && WorldRead(s, env, world)
    requires Launches(next.trace) == Launches(s.trace) && next.starts == s.starts
    ensures Tracks(next, env, max, goal) && WorldRead(next, env, world)
  {
    CompletedSize(s);
    hide Recorded, Readings, Launches;
    var c, f := |s.completed|, FailedRounds(s.trace);
    assert Count(s.live) == Min(max - f, |s.live| - c);
    assert 0 <= s.awaits < next.awaits;
  }

  /** The handle of `i` is awaited, unless there are both operations to launch and room for them. */
  method WaitOrAwait(ghost s: Sched, now: Sched, env: Env, max: nat, i: nat, allDone: bool, ghost world: nat, ghost goal: Tally)
    returns (end: VisitEnd, next: Sched, ghost touched': bool)
    requires Holding(s, now, max, i, allDone) && now.world >= 1 && SelfCounts(env)
    requires Tracks(now, env, max, goal) && WorldRead(now, env, world)
    ensures |next.live| == |s.live| && next.world >= 1 && !end.Refused?
    ensures end.GoOn? ==> Passing(s, next, max, i + 1, touched', end.allDone)
    ensures end.Retried? ==> Ok(next, max) && Ordered(next) && FailedRounds(next.trace) == FailedRounds(s.trace) + 1
    ensures Tracks(next, env, max, goal) && WorldRead(next, env, world)
  {
    hide Recorded, Ordered, SelfCounts, Passing, WorldRead, EndOf, Answered, FailedRounds, Count, Readings, Launches;
    touched' := true;
    var all := AllLaunched(now);
    if now.inFlight < max && !all {
      ghost var j :| 0 <= j < |now.live| && Pending(now, j);
      WaitPasses(s, now, max, i, allDone, j);
      return GoOn(false), now, true;
    }
    var n := now.awaits;
    var size := env.worldAfter(n);
    WorldAt(env, n);
    if !env.succeeds(n) {
      FailOk(now, i, size, max);
      FailAnswered(now, i, env);
      FailRead(now, i, env, world);
      next := Drain(AfterFailure(now, i, size), i, env, max);
      NothingLive(next);
      assert now.inFlight >= max || PendingSet(now) == {};
      FailTracks(now, i, env, max, world, goal, next);
      return Retried, next, true;
    }
    SuccessTracks(now, i, env, max, world, goal);
    SuccessPasses(s, now, max, i, size, allDone);
    return GoOn(allDone), AfterSuccess(now, i, size), true;
  }

  lemma NothingLive(s: Sched)
    requires Count(s.live) == 0
    ensures Ordered(s)
  {
    CountNone(s.live);
  }

  /** A failing await is the last one after which the size is read, and starts a drain. */
  lemma FailRead(s: Sched, i: nat, env: Env, world: nat)
    requires WorldRead(s, env, world) && i < |s.live|
    ensures
      var t := AfterFailure(s, i, env.worldAfter(s.awaits));
      Readings(t.trace) == Reading(s.awaits, true, s.awaits + 1) && Launches(t.trace) == Launches(s.trace)
  {
    ReadingsMore(s.trace, Awaited(i, false));
  }

  lemma FailAnswered(s: Sched, i: nat, env: Env)
    requires Answered(s, env) && i < |s.live| && s.live[i] && !env.succeeds(s.awaits)
    ensures Answered(AfterFailure(s, i, env.worldAfter(s.awaits)), env)
    ensures Count(s.live) == Count(AfterFailure(s, i, env.worldAfter(s.awaits)).live) + 1
  {
    OutcomesMore(s.trace, Awaited(i, false));
    CountUpdate(s.live, i, false);
  }

  /** The body of the outer loop. */
  method Pass(s: Sched, env: Env, max: nat, ghost world: nat, ghost goal: Tally) returns (end: PassEnd, s': Sched)
    requires Ok(s, max) && Ordered(s) && max > 0
    requires s.world >= 1 && SelfCounts(env) && Tracks(s, env, max, goal) && WorldRead(s, env, world)
    ensures |s'.live| == |s.live| && s'.world >= 1
    ensures end != Error ==> Ok(s', max) && Ordered(s')
    ensures Tracks(s', env, max, goal) && WorldRead(s', env, world)
    ensures end == AllDone ==> FailedRounds(s'.trace) == FailedRounds(s.trace) && PendingSet(s') <= PendingSet(s)
    ensures end == AllDone ==> (AllCompleted(s') <==> FailedRounds(s.trace) < max)
    ensures end == Again ==>
      || FailedRounds(s'.trace) == FailedRounds(s.trace) + 1
      || (FailedRounds(s'.trace) == FailedRounds(s.trace) && PendingSet(s) != {} && PendingSet(s') == {})
    ensures end == Error ==> !env.launches(s'.starts)
  {
    hide Ok, Ordered, PendingSet, AllCompleted, SelfCounts, Pending, Tracks, WorldRead;
    s' := s;
    var allDone := true;
    ghost var touched := false;
    for i := 0 to |s.live|
      invariant Passing(s, s', max, i, touched, allDone) && s'.world >= 1
      invariant Tracks(s', env, max, goal) && WorldRead(s', env, world)
    {
      var visit;
      visit, s', touched := Visit(s, s', env, max, i, allDone, touched, world, goal);
      if visit.Retried? {
        return Again, s';
      }
      if visit.Refused? {
        return Error, s';
      }
      allDone := visit.allDone;
    }
    end := if allDone then AllDone else Again;
    PassEnds(s, s', max, touched, allDone);
  }

  lemma FailOk(s: Sched, i: nat, world: nat, max: nat)
    requires Ok(s, max) && i < |s.live| && s.live[i]
    ensures
      var t := AfterFailure(s, i, world);
      && Recorded(t) && i !in t.completed && t.inFlight == Count(t.live) + FailedRounds(t.trace) + 1 <= max
      && FailedRounds(t.trace) == FailedRounds(s.trace)
  {
    RecordedDrop(s, AfterFailure(s, i, world), i, false);
    CountUpdate(s.live, i, false);
    RoundsMore(s.trace, Awaited(i, false));
  }

  lemma PassEnds(s: Sched, s': Sched, max: nat, touched: bool, allDone: bool)
    requires Passing(s, s', max, |s.live|, touched, allDone)
    ensures allDone ==> (AllCompleted(s') <==> FailedRounds(s.trace) < max)
    ensures !allDone ==> PendingSet(s') == {}
    ensures PendingSet(s') <= PendingSet(s)
  {
    hide Recorded;
    if FailedRounds(s.trace) < max {
      forall i | 0 <= i < |s'.live| && allDone ensures i in s'.completed { assert !Pending(s', i); }
    } else if touched {
      Exhausted(s', max);
    }
  }

  // The whole run -----------------------------------------------------------------------------------

  function Begin(count: nat, world: nat): Sched {
    Sched(seq(count, _ => false), {}, 0, world, 0, 0, [])
  }

  lemma BeginOk(count: nat, world: nat, max: nat)
    requires max > 0
    ensures Ok(Begin(count, world), max) && FailedRounds(Begin(count, world).trace) == 0
  {
    CountNone(Begin(count, world).live);
  }

  /** The first `n` operations are launched, nothing is completed. */
  ghost predicate Prefix(s: Sched, n: nat) {
    s.completed == {} && n <= |s.live| && forall i :: 0 <= i < |s.live| ==> (s.live[i] <==> i < n)
  }

  /** Launch as many operations up front as may be in flight. */
  method LaunchFirst(s: Sched, env: Env, max: nat, ghost world: nat, ghost goal: Tally) returns (error: bool, s': Sched)
    requires Ok(s, max) && Prefix(s, 0) && Tracks(s, env, max, goal) && WorldRead(s, env, world)
    ensures |s'.live| == |s.live| && s'.world == s.world && WorldRead(s', env, world)
    ensures !error ==> Ok(s', max) && Ordered(s') && Tracks(s', env, max, goal)
    ensures error ==> !env.launches(s'.starts)
  {
    hide Recorded, Tracks, WorldRead;
    s' := s;
    for i := 0 to |s.live|
      invariant Ok(s', max) && Prefix(s', i) && |s'.live| == |s.live| && s'.world == s.world
      invariant Tracks(s', env, max, goal) && WorldRead(s', env, world)
    {
      if s'.inFlight >= max {
        break;
      }
      if !env.launches(s'.starts) {
        return true, s';
      }
      LaunchOk(s', i, max);
      LaunchTracks(s', i, env, max, world, goal);
      s' := AfterLaunch(s', i);
    }
    return false, s';
  }

  /** Awaits what is left when the peers are gone; the outcomes do not matter. */
  method AwaitRest(s: Sched) returns (awaits: nat)
    ensures awaits >= s.awaits
  {
    awaits := s.awaits;
    for i := 0 to |s.live|
      invariant awaits >= s.awaits
    {
      if s.live[i] {
        awaits := awaits + 1;
      }
    }
  }

  /** Nothing but awaits can go wrong: launches succeed and the peers stay. */
  ghost predicate Calm(env: Env) { forall n :: env.launches(n) && env.worldAfter(n) > 1 }

  /** pcclAllReduceMultipleWithRetry always ends. It fails to launch exactly if the launch after those it made fails, and
      otherwise reports too few peers exactly if the world size was too small at the beginning, or is one when it is read
      after the last await outside a drain. Success is reported in all other cases, truthfully or not:
      the operations completed are as many as the tally of the environment says, and they are all of them if and
      only if by that tally fewer rounds fail than operations may be in flight. */
  method AllReduceMultipleWithRetry(count: nat, maxInFlight: int, world: nat, env: Env) returns (r: Result, s: Sched)
    requires SelfCounts(env)
    ensures r == InvalidArgument <==> count == 0 || maxInFlight <= 0
    ensures r == LaunchError ==> world >= 2 && !env.launches(s.starts)
    ensures LaunchesOk(s, env)
    ensures r != InvalidArgument && r != LaunchError ==> (r == TooFewPeers <==> world < 2 || SizeRead(s.trace, env, world) == 1)
    ensures r == Success ==> Ok(s, maxInFlight) && |s.live| == count && Answered(s, env)
    ensures r == Success ==>
      var end := EndOf(env, count, maxInFlight, 0, 0, 0);
      && |s.completed| == end.completed && FailedRounds(s.trace) == end.failed
      && (AllCompleted(s) <==> end.failed < maxInFlight)
    ensures count > 0 && maxInFlight > 0 && world < 2 ==> r == TooFewPeers
    ensures count > 0 && maxInFlight > 0 && world >= 2 && Calm(env) ==> r == Success
  {
    s := Begin(count, world);
    if count == 0 || maxInFlight <= 0 {
      return InvalidArgument, s;
    }
    if world < 2 {
      return TooFewPeers, s;
    }
    var max: nat := maxInFlight;
    ghost var goal := EndOf(env, count, max, 0, 0, 0);
    BeginOk(count, world, max);
    BeginTracks(count, world, env, max);
    var error;
    error, s := LaunchFirst(s, env, max, world, goal);
    if error {
      return LaunchError, s;
    }
    hide Ok, Ordered, AllCompleted, Tracks, EndOf, WorldRead;
    var done := false;
    while s.world > 1 && !done
      invariant Ok(s, max) && Ordered(s) && |s.live| == count && Tracks(s, env, max, goal) && WorldRead(s, env, world)
      invariant done ==> (AllCompleted(s) <==> FailedRounds(s.trace) < max)
      invariant s.world >= 1 && FailedRounds(s.trace) <= max
      decreases max - FailedRounds(s.trace), PendingSet(s), !done
    {
      var end;
      end, s := Pass(s, env, max, world, goal);
      if end == Error {
        return LaunchError, s;
      }
      if end == AllDone {
        done := true;
      }
      RoundsAtMost(s, max);
    }
    ReadLast(s, env, world);
    if s.world == 1 {
      var awaits := AwaitRest(s);
      s := s.(awaits := awaits);
      return TooFewPeers, s;
    }
    GoalReached(s, env, max, goal);
    return Success, s;
  }

  lemma RoundsAtMost(s: Sched, max: nat)
    requires Ok(s, max)
    ensures FailedRounds(s.trace) <= max
  {
    hide Recorded;
  }

  lemma BeginTracks(count: nat, world: nat, env: Env, max: nat)
    ensures Tracks(Begin(count, world), env, max, EndOf(env, count, max, 0, 0, 0)) && WorldRead(Begin(count, world), env, world)
  {
  }

  lemma ReadLast(s: Sched, env: Env, world: nat)
    requires WorldRead(s, env, world)
    ensures s.world == SizeRead(s.trace, env, world) && LaunchesOk(s, env)
  {
  }

  lemma GoalReached(s: Sched, env: Env, max: nat, goal: Tally)
    requires Ok(s, max) && Tracks(s, env, max, goal) && (AllCompleted(s) <==> FailedRounds(s.trace) < max)
    ensures |s.completed| == goal.completed && FailedRounds(s.trace) == goal.failed && Answered(s, env)
  {
    CompletedSize(s);
    if AllCompleted(s) {
      CountNone(s.live);
      assert PendingSet(s) == {};
    }
  }

  /** One operation, one slot, one failure: the call reports success, and the operation was never completed. */
  method OneFailureIsTooMany() returns (r: Result, s: Sched)
    ensures r == Success && |s.live| == 1 && 0 !in s.completed
  {
    var env := Env((n: nat) => n != 0, (n: nat) => 2, (n: nat) => true);
    r, s := AllReduceMultipleWithRetry(1, 1, 2, env);
    OneSlot(env, 1, 0, 0);
    CompleteIffRoundsLeft(env, 1, 1, 0, 0, 0);
  }
}
