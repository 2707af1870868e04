/**
 How many publishers the drop warnings can bear. Under every interleaving there is one warning for
 each completed bucket of drops if and only if at most as many threads publish as a bucket has
 drops: a bucket can only be skipped when a whole bucket of drops is being decided at once.
 */
module Publishers {
  import opened EventBus

  /** Publications come from the threads in `ps` only. */
  ghost predicate PublishedBy(acts: seq<Action>, ps: set<Thread>) {
    forall i :: 0 <= i < |acts| && acts[i].Publish? ==> acts[i].t in ps
  }

  ghost predicate WarnedInFull(b: Bus, d: nat)
    requires d > 0
  {
    NobodyDecides(b) ==> |b.warnings| == Bucket(b.dropped, d)
  }

  /** The promise: whatever the interleaving, every completed bucket has had its warning as soon as
      nobody is deciding about one. */
  ghost predicate Kept(d: nat, ps: set<Thread>)
    requires d > 0
  {
    forall acts :: Schedule(NEW_BUS, acts, d) && PublishedBy(acts, ps) ==> WarnedInFull(Run(NEW_BUS, acts, d), d)
  }

  // ---------------------------------------------------------------- enough helpers

  /** A publisher that is about to find that the current bucket has not been warned about. */
  predicate Helps(b: Bus, pc: Pc, d: nat)
    requires d > 0
  {
    pc.LoadingTotal? || ((pc.LoadingLast? || pc.Swapping?) && Bucket(pc.total, d) == Bucket(b.dropped, d))
  }

  ghost function Helpers(b: Bus, d: nat): set<Thread>
    requires d > 0
  {
    set t | t in b.pcs && Helps(b, b.pcs[t], d)
  }

  predicate Behind(b: Bus, d: nat)
    requires d > 0
  {
    Bucket(b.dropped, d) != Bucket(b.lastWarned, d)
  }

  /** How far the drops have got into their bucket. */
  function Offset(n: nat, d: nat): nat
    requires d > 0
  {
    n % d
  }

  /** The warnings are complete, or one bucket behind; in the latter case more publishers are about to
      find out than the bucket has drops, and nothing will stop the first of them. */
  ghost predicate Attended(b: Bus, d: nat, ps: set<Thread>)
    requires d > 0
  {
    && Warned(b, d)
    && (forall t :: t in b.pcs && !b.pcs[t].Idle? ==> t in ps)
    && |b.warnings| == Bucket(b.lastWarned, d)
    && Bucket(b.dropped, d) <= Bucket(b.lastWarned, d) + 1
    && (Behind(b, d) ==> |Helpers(b, d)| > Offset(b.dropped, d))
    && (Behind(b, d) ==> forall t :: t in Helpers(b, d) && b.pcs[t].Swapping? ==> b.pcs[t].last == b.lastWarned)
  }

  lemma SubsetSize<T>(a: set<T>, b: set<T>)
    requires a <= b
    ensures |a| <= |b|
  {
    if a != {} {
      var x :| x in a;
      SubsetSize(a - {x}, b - {x});
    }
  }

  /** One more drop either stays in the bucket or starts the next one. */
  lemma OffsetNext(n: nat, d: nat)
    requires d > 0
    ensures Offset(n, d) < d
    ensures if Offset(n, d) + 1 < d
            then Bucket(n + 1, d) == Bucket(n, d) && Offset(n + 1, d) == Offset(n, d) + 1
            else Bucket(n + 1, d) == Bucket(n, d) + 1 && Offset(n + 1, d) == 0
  {
    NextBucket(n, d);
    OffsetIs(n, d);
    OffsetIs(n + 1, d);
    hide Bucket, Offset;
    if Bucket(n + 1, d) == Bucket(n, d) {
      assert Offset(n + 1, d) == Offset(n, d) + 1;
    } else {
      assert Bucket(n + 1, d) * d == Bucket(n, d) * d + d;
    }
  }

  lemma OffsetIs(n: nat, d: nat)
    requires d > 0
    ensures n == Bucket(n, d) * d + Offset(n, d) && Offset(n, d) < d
  {
  }

  lemma AddStep(b: Bus, t: Thread, d: nat)
    requires d > 0 && PcOf(b, t).Adding?
    ensures var b' := Step(b, Add(t), d);
            && b' == b.(dropped := b.dropped + 1, pcs := b'.pcs)
            && t in b.pcs && !b.pcs[t].Idle?
            && t in b'.pcs && b'.pcs[t].LoadingTotal? && b'.pcs == b.pcs[t := b'.pcs[t]]
  {
  }

  /** A late warning would need a whole bucket of helpers besides the thread that adds a drop. */
  lemma AddAttended(b: Bus, t: Thread, d: nat, ps: set<Thread>)
    requires d > 0 && Attended(b, d, ps) && |ps| <= d && PcOf(b, t).Adding?
    ensures Attended(Step(b, Add(t), d), d, ps)
  {
    StepKeepsWarned(b, Add(t), d);
    OffsetNext(b.dropped, d);
    AddStep(b, t, d);
    assert t !in Helpers(b, d);
    hide Bucket, Offset, Warned, Step;
    var b' := Step(b, Add(t), d);
    var h := Helpers(b, d);
    assert h <= ps - {t};
    SubsetSize(h, ps - {t});
    if Offset(b.dropped, d) + 1 < d {
      assert Helpers(b', d) == h + {t};
    } else {
      assert !Behind(b, d);
      SubsetSize({t}, Helpers(b', d));
      forall u | u in Helpers(b', d) ensures !b'.pcs[u].Swapping? {
        if b'.pcs[u].Swapping? { TotalInOldBucket(b, u, d); }
      }
    }
  }

  lemma TotalInOldBucket(b: Bus, u: Thread, d: nat)
    requires d > 0 && Warned(b, d) && u in b.pcs && (b.pcs[u].LoadingLast? || b.pcs[u].Swapping?)
    ensures Bucket(b.pcs[u].total, d) <= Bucket(b.dropped, d)
  {
    BucketsMonotone(b.pcs[u].total, b.dropped, d);
  }

  lemma LoadTotalAttended(b: Bus, t: Thread, d: nat, ps: set<Thread>)
    requires d > 0 && Attended(b, d, ps) && PcOf(b, t).LoadingTotal?
    ensures Attended(Step(b, LoadTotal(t), d), d, ps)
  {
    StepKeepsWarned(b, LoadTotal(t), d);
    hide Bucket, Offset, Warned;
    assert Helpers(Step(b, LoadTotal(t), d), d) == Helpers(b, d);
  }

  /** A helper goes on to swap, with the last warned total as it is; anybody else goes back. */
  lemma LoadLastOf(b: Bus, t: Thread, d: nat)
    requires d > 0 && Warned(b, d) && PcOf(b, t).LoadingLast? && Bucket(b.dropped, d) <= Bucket(b.lastWarned, d) + 1
    ensures var b' := Step(b, LoadLast(t), d);
            && b'.pcs == b.pcs[t := b'.pcs[t]] && b' == b.(pcs := b'.pcs)
            && (Behind(b, d) && Helps(b, b.pcs[t], d) ==> b'.pcs[t].Swapping? && b'.pcs[t].total == b.pcs[t].total
                                                          && b'.pcs[t].last == b.lastWarned)
            && (!(Behind(b, d) && Helps(b, b.pcs[t], d)) ==> b'.pcs[t].Sending?)
  {
    TotalInOldBucket(b, t, d);
    BucketsMonotone(b.lastWarned, b.dropped, d);
    hide Bucket;
  }

  lemma LoadLastAttended(b: Bus, t: Thread, d: nat, ps: set<Thread>)
    requires d > 0 && Attended(b, d, ps) && PcOf(b, t).LoadingLast?
    ensures Attended(Step(b, LoadLast(t), d), d, ps)
  {
    StepKeepsWarned(b, LoadLast(t), d);
    LoadLastOf(b, t, d);
    hide Bucket, Offset, Warned, Step;
    var b' := Step(b, LoadLast(t), d);
    assert t in ps;
    if Behind(b, d) {
      forall u ensures u in Helpers(b', d) <==> u in Helpers(b, d) {
        assert u != t ==> (u in b'.pcs <==> u in b.pcs) && (u in b.pcs ==> b'.pcs[u] == b.pcs[u]);
      }
      assert Helpers(b', d) == Helpers(b, d);
    }
  }

  lemma SwapAttended(b: Bus, t: Thread, d: nat, ps: set<Thread>)
    requires d > 0 && Attended(b, d, ps) && PcOf(b, t).Swapping?
    ensures Attended(Step(b, Swap(t), d), d, ps)
  {
    StepKeepsWarned(b, Swap(t), d);
    TotalInOldBucket(b, t, d);
    assert Bucket(b.pcs[t].total, d) > Bucket(b.pcs[t].last, d);
    hide Bucket, Offset, Warned;
    var b' := Step(b, Swap(t), d);
    if t in Helpers(b, d) && Behind(b, d) {
      assert !Behind(b', d);
    } else {
      assert b.lastWarned != b.pcs[t].last && b'.lastWarned == b.lastWarned && b'.warnings == b.warnings;
      if Behind(b, d) { assert Helpers(b', d) == Helpers(b, d); }
    }
  }

  /** What the remaining steps do: counters stay, at most one thread moves, and it decides nothing. */
  lemma OtherStep(b: Bus, a: Action, d: nat)
    requires Enabled(b, a) && !a.Add? && !a.LoadTotal? && !a.LoadLast? && !a.Swap?
    ensures var b' := Step(b, a, d);
            && b'.dropped == b.dropped && b'.lastWarned == b.lastWarned && b'.warnings == b.warnings
            && (b'.pcs == b.pcs
                || ((a.Publish? || a.Send? || a.Full? || a.Finish?)
                    && !Deciding(PcOf(b, a.t)) && a.t in b'.pcs && !Deciding(b'.pcs[a.t])
                    && b'.pcs == b.pcs[a.t := b'.pcs[a.t]] && (!a.Publish? ==> !PcOf(b, a.t).Idle?)))
  {
  }

  lemma OtherAttended(b: Bus, a: Action, d: nat, ps: set<Thread>)
    requires d > 0 && Attended(b, d, ps) && Enabled(b, a) && (a.Publish? ==> a.t in ps)
    requires !a.Add? && !a.LoadTotal? && !a.LoadLast? && !a.Swap?
    ensures Attended(Step(b, a, d), d, ps)
  {
    hide Bucket, Offset, Warned, Step;
    StepKeepsWarned(b, a, d);
    OtherStep(b, a, d);
    assert Helpers(Step(b, a, d), d) == Helpers(b, d);
  }

  lemma StepAttended(b: Bus, a: Action, d: nat, ps: set<Thread>)
    requires d > 0 && Attended(b, d, ps) && |ps| <= d && Enabled(b, a) && (a.Publish? ==> a.t in ps)
    ensures Attended(Step(b, a, d), d, ps)
  {
    hide Attended, Step;
    match a
    case Add(t) => AddAttended(b, t, d, ps);
    case LoadTotal(t) => LoadTotalAttended(b, t, d, ps);
    case LoadLast(t) => LoadLastAttended(b, t, d, ps);
    case Swap(t) => SwapAttended(b, t, d, ps);
    case _ => OtherAttended(b, a, d, ps);
  }

  lemma AttendedInFull(b: Bus, d: nat, ps: set<Thread>)
    requires d > 0 && Attended(b, d, ps)
    ensures WarnedInFull(b, d)
  {
    hide Bucket, Offset, Warned;
    if NobodyDecides(b) { assert Helpers(b, d) == {}; }
  }

  /** With at most as many publishers as the threshold, every interleaving keeps the promise. */
  lemma {:induction false} FewPublishersWarnInFull(b: Bus, acts: seq<Action>, d: nat, ps: set<Thread>)
    requires d > 0 && Attended(b, d, ps) && |ps| <= d && Schedule(b, acts, d) && PublishedBy(acts, ps)
    ensures Attended(Run(b, acts, d), d, ps) && WarnedInFull(Run(b, acts, d), d)
    decreases |acts|
  {
    hide Attended, Step, WarnedInFull;
    if acts == [] {
      AttendedInFull(b, d, ps);
    } else {
      StepAttended(b, acts[0], d, ps);
      FewPublishersWarnInFull(Step(b, acts[0], d), acts[1..], d, ps);
    }
  }

  lemma NewBusAttended(d: nat, ps: set<Thread>)
    requires d > 0
    ensures Attended(NEW_BUS, d, ps)
  {
  }

  // ---------------------------------------------------------------- too many publishers

  /** Some schedule of publishers in `ps` leads from a new bus to `b`. */
  ghost predicate Reachable(b: Bus, d: nat, ps: set<Thread>) {
    exists acts :: Schedule(NEW_BUS, acts, d) && PublishedBy(acts, ps) && Run(NEW_BUS, acts, d) == b
  }

  lemma ReachNext(b: Bus, a: Action, d: nat, ps: set<Thread>)
    requires Reachable(b, d, ps) && Enabled(b, a) && (a.Publish? ==> a.t in ps)
    ensures Reachable(Step(b, a, d), d, ps)
  {
    var acts :| Schedule(NEW_BUS, acts, d) && PublishedBy(acts, ps) && Run(NEW_BUS, acts, d) == b;
    ScheduleSnoc(NEW_BUS, acts, a, d);
    assert PublishedBy(acts + [a], ps);
  }

  /** One open subscriber; the threads in `ts` have counted a drop and read nothing yet, all others
      are idle. */
  ghost predicate Stalled(b: Bus, ts: set<Thread>) {
    && b.subs == {0} && !b.closed
    && (forall t :: t in ts ==> PcOf(b, t) == LoadingTotal({}))
    && (forall t :: t !in ts ==> PcOf(b, t).Idle?)
  }

  ghost predicate Silent(b: Bus, ts: set<Thread>, n: nat) {
    Stalled(b, ts) && b.dropped == n && b.lastWarned == 0 && b.warnings == []
  }

  /** Another thread counts a drop and stalls. */
  lemma StallOne(b: Bus, ts: set<Thread>, t: Thread, n: nat, d: nat, ps: set<Thread>) returns (b': Bus)
    requires d > 0 && Reachable(b, d, ps) && Silent(b, ts, n) && t in ps && t !in ts
    ensures Reachable(b', d, ps) && Silent(b', ts + {t}, n + 1)
  {
    hide Reachable;
    var none: set<Channel> := {};
    assert {0} - {0} == none;
    ReachNext(b, Publish(t), d, ps);
    var b1 := Step(b, Publish(t), d);
    ReachNext(b1, Full(t, 0), d, ps);
    var b2 := Step(b1, Full(t, 0), d);
    ReachNext(b2, Add(t), d, ps);
    b' := Step(b2, Add(t), d);
    forall u ensures PcOf(b', u) == if u == t then LoadingTotal({}) else PcOf(b, u) {}
  }

  /** A stalled thread that sees no completed bucket goes idle without a warning. */
  lemma ReleaseSilently(b: Bus, t: Thread, n: nat, d: nat, ps: set<Thread>) returns (b': Bus)
    requires d > 0 && Reachable(b, d, ps) && Silent(b, {t}, n) && Bucket(n, d) == 0 && Bucket(0, d) == 0
    ensures Reachable(b', d, ps) && Silent(b', {}, n)
  {
    hide Reachable, Bucket;
    ReachNext(b, LoadTotal(t), d, ps);
    var b1 := Step(b, LoadTotal(t), d);
    ReachNext(b1, LoadLast(t), d, ps);
    var b2 := Step(b1, LoadLast(t), d);
    ReachNext(b2, Finish(t), d, ps);
    b' := Step(b2, Finish(t), d);
    forall u ensures PcOf(b', u) == if u == t then Idle else PcOf(b, u) {}
  }

  lemma SmallBucket(n: nat, d: nat)
    requires n < d
    ensures Bucket(n, d) == 0
  {
  }

  /** One thread fills the first bucket up to its last place. */
  lemma {:induction false} FillBucket(t: Thread, n: nat, d: nat, ps: set<Thread>) returns (b: Bus)
    requires n < d && t in ps
    ensures Reachable(b, d, ps) && Silent(b, {}, n)
  {
    if n == 0 {
      assert Schedule(NEW_BUS, [], d) && PublishedBy([], ps) && Run(NEW_BUS, [], d) == NEW_BUS;
      assert Reachable(NEW_BUS, d, ps);
      ReachNext(NEW_BUS, Subscribe, d, ps);
      b := Step(NEW_BUS, Subscribe, d);
    } else {
      SmallBucket(n, d);
      SmallBucket(0, d);
      hide Reachable, Silent, Bucket;
      b := FillBucket(t, n - 1, d, ps);
      b := StallOne(b, {}, t, n - 1, d, ps);
      assert {} + {t} == {t};
      b := ReleaseSilently(b, t, n, d, ps);
    }
  }

  /** All of `ts` count a drop before any of them reads the total. */
  lemma {:induction false} StallAll(b: Bus, ts: set<Thread>, n: nat, d: nat, ps: set<Thread>) returns (b': Bus)
    requires d > 0 && Reachable(b, d, ps) && Silent(b, {}, n) && ts <= ps
    ensures Reachable(b', d, ps) && Silent(b', ts, n + |ts|)
    decreases |ts|
  {
    hide Reachable, Silent;
    if ts == {} {
      b' := b;
    } else {
      var t :| t in ts;
      b' := StallAll(b, ts - {t}, n, d, ps);
      b' := StallOne(b', ts - {t}, t, n + |ts| - 1, d, ps);
      assert ts - {t} + {t} == ts;
    }
  }

  ghost predicate WarnedOnce(b: Bus, ts: set<Thread>, n: nat) {
    Stalled(b, ts) && b.dropped == n && b.lastWarned == n && b.warnings == [n]
  }

  /** The first stalled thread to go on warns about everything counted. */
  lemma WarnFirst(b: Bus, ts: set<Thread>, t: Thread, n: nat, d: nat, ps: set<Thread>) returns (b': Bus)
    requires d > 0 && Reachable(b, d, ps) && Silent(b, ts, n) && t in ts && Bucket(n, d) > Bucket(0, d)
    ensures Reachable(b', d, ps) && WarnedOnce(b', ts - {t}, n)
  {
    hide Reachable, Bucket;
    ReachNext(b, LoadTotal(t), d, ps);
    var b1 := Step(b, LoadTotal(t), d);
    ReachNext(b1, LoadLast(t), d, ps);
    var b2 := Step(b1, LoadLast(t), d);
    ReachNext(b2, Swap(t), d, ps);
    var b3 := Step(b2, Swap(t), d);
    ReachNext(b3, Finish(t), d, ps);
    b' := Step(b3, Finish(t), d);
    forall u ensures PcOf(b', u) == if u == t then Idle else PcOf(b, u) {}
  }

  /** The others find the warning done. */
  lemma {:induction false} ReleaseAll(b: Bus, ts: set<Thread>, n: nat, d: nat, ps: set<Thread>) returns (b': Bus)
    requires d > 0 && Reachable(b, d, ps) && WarnedOnce(b, ts, n)
    ensures Reachable(b', d, ps) && WarnedOnce(b', {}, n)
    decreases |ts|
  {
    hide Reachable, Bucket;
    if ts == {} {
      b' := b;
    } else {
      var t :| t in ts;
      ReachNext(b, LoadTotal(t), d, ps);
      var b1 := Step(b, LoadTotal(t), d);
      ReachNext(b1, LoadLast(t), d, ps);
      var b2 := Step(b1, LoadLast(t), d);
      ReachNext(b2, Finish(t), d, ps);
      var b3 := Step(b2, Finish(t), d);
      forall u ensures PcOf(b3, u) == if u == t then Idle else PcOf(b, u) {}
      b' := ReleaseAll(b3, ts - {t}, n, d, ps);
    }
  }

  lemma {:induction false} SubsetOfSize(ps: set<Thread>, n: nat) returns (ts: set<Thread>)
    requires n <= |ps|
    ensures ts <= ps && |ts| == n
    decreases |ps|
  {
    if n == |ps| {
      ts := ps;
    } else {
      var t :| t in ps;
      ts := SubsetOfSize(ps - {t}, n);
    }
  }

  lemma TwoBuckets(d: nat)
    requires d > 0
    ensures Bucket(2 * d, d) == 2 && Bucket(0, d) == 0
  {
    BucketBounds(2 * d, d);
    hide Bucket;
    if Bucket(2 * d, d) >= 3 { MulMonotone(Bucket(2 * d, d), 3, d); }
    if Bucket(2 * d, d) <= 1 { MulMonotone(2, Bucket(2 * d, d) + 1, d); }
    SmallBucket(0, d);
  }

  /** One publisher too many: after all but one drop of the first bucket, one thread more than the
      threshold counts a drop before any of them reads the total, and one warning covers two buckets. */
  lemma ManyPublishersSkipABucket(d: nat, ps: set<Thread>) returns (b: Bus)
    requires 0 < d < |ps|
    ensures Reachable(b, d, ps) && NobodyDecides(b) && b.dropped == 2 * d && b.warnings == [2 * d]
    ensures !WarnedInFull(b, d)
  {
    TwoBuckets(d);
    hide Reachable, Silent, WarnedOnce, Bucket;
    var t :| t in ps;
    b := FillBucket(t, d - 1, d, ps);
    var ts := SubsetOfSize(ps, d + 1);
    b := StallAll(b, ts, d - 1, d, ps);
    var u :| u in ts;
    b := WarnFirst(b, ts, u, 2 * d, d, ps);
    b := ReleaseAll(b, ts - {u}, 2 * d, d, ps);
    OnceIsQuiet(b, 2 * d);
  }

  lemma OnceIsQuiet(b: Bus, n: nat)
    requires WarnedOnce(b, {}, n)
    ensures NobodyDecides(b) && b.dropped == n && b.warnings == [n]
  {
    forall t | t in b.pcs ensures !Deciding(b.pcs[t]) {
      assert PcOf(b, t).Idle?;
    }
  }

  /** The promise of one warning per threshold boundary is kept under every interleaving if and only
      if there are at most as many publishers as the threshold. */
  lemma KeptIff(d: nat, ps: set<Thread>)
    requires d > 0
    ensures Kept(d, ps) <==> |ps| <= d
  {
    hide WarnedInFull, Attended;
    if |ps| <= d {
      forall acts | Schedule(NEW_BUS, acts, d) && PublishedBy(acts, ps) ensures WarnedInFull(Run(NEW_BUS, acts, d), d) {
        NewBusAttended(d, ps);
        FewPublishersWarnInFull(NEW_BUS, acts, d, ps);
      }
    } else {
      var b := ManyPublishersSkipABucket(d, ps);
      assert !Kept(d, ps);
    }
  }
}
