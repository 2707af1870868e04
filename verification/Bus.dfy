/**
 The event bus under concurrent publishers. Publishers hold the read lock while they serve the
 subscribers; subscribing, cancelling and closing hold the write lock. Counting a drop, reading
 the total, reading the last warned total and swapping it are separate atomic steps, and any
 interleaving of any number of publishers is a run.
 */
module EventBus {

  type Thread = nat
  type Channel = nat

  /** Where a publisher is; `rest` are the subscribers it still has to serve. */
  datatype Pc =
    | Idle
    | Sending(rest: set<Channel>)
    | Adding(rest: set<Channel>)
    | LoadingTotal(rest: set<Channel>)
    | LoadingLast(rest: set<Channel>, total: nat)
    | Swapping(rest: set<Channel>, total: nat, last: nat)

  datatype Bus = Bus(
    subs: set<Channel>,
    shut: set<Channel>,
    nextID: nat,
    closed: bool,
    published: nat,
    dropped: nat,
    lastWarned: nat,
    warnings: seq<nat>,
    pcs: map<Thread, Pc>)

  const NEW_BUS := Bus({}, {}, 0, false, 0, 0, 0, [], map[])

  function PcOf(b: Bus, t: Thread): Pc {
    if t in b.pcs then b.pcs[t] else Idle
  }

  datatype Action =
    | Publish(t: Thread)
    | Send(t: Thread, ch: Channel)
    | Full(t: Thread, ch: Channel)
    | Add(t: Thread)
    | LoadTotal(t: Thread)
    | LoadLast(t: Thread)
    | Swap(t: Thread)
    | Finish(t: Thread)
    | Subscribe
    | Cancel(ch: Channel)
    | Close

  /** No publisher holds the read lock. */
  predicate Quiet(b: Bus) {
    forall t :: t in b.pcs ==> b.pcs[t].Idle?
  }

  predicate Enabled(b: Bus, a: Action) {
    match a
    case Publish(t) => PcOf(b, t).Idle?
    case Send(t, ch) => PcOf(b, t).Sending? && ch in PcOf(b, t).rest
    case Full(t, ch) => PcOf(b, t).Sending? && ch in PcOf(b, t).rest
    case Add(t) => PcOf(b, t).Adding?
    case LoadTotal(t) => PcOf(b, t).LoadingTotal?
    case LoadLast(t) => PcOf(b, t).LoadingLast?
    case Swap(t) => PcOf(b, t).Swapping?
    case Finish(t) => PcOf(b, t).Sending? && PcOf(b, t).rest == {}
    case Subscribe => Quiet(b)
    case Cancel(_) => Quiet(b)
    case Close => Quiet(b)
  }

  /** How many thresholds a total has passed. */
  function Bucket(total: nat, threshold: nat): nat
    requires threshold > 0
  {
    total / threshold
  }

  function Move(b: Bus, t: Thread, pc: Pc): Bus {
    b.(pcs := b.pcs[t := pc])
  }

  /** One atomic step; `threshold` zero means that no warnings are wanted. */
  function Step(b: Bus, a: Action, threshold: nat): Bus
    requires Enabled(b, a)
  {
    match a
    case Publish(t) =>
      var b1 := b.(published := b.published + 1);
      if b.closed then b1 else Move(b1, t, Sending(b.subs))
    case Send(t, ch) => Move(b, t, Sending(PcOf(b, t).rest - {ch}))
    case Full(t, ch) => Move(b, t, Adding(PcOf(b, t).rest - {ch}))
    case Add(t) =>
      Move(b.(dropped := b.dropped + 1), t,
           if threshold > 0 then LoadingTotal(PcOf(b, t).rest) else Sending(PcOf(b, t).rest))
    case LoadTotal(t) => Move(b, t, LoadingLast(PcOf(b, t).rest, b.dropped))
    case LoadLast(t) =>
      var pc := PcOf(b, t);
      Move(b, t, if threshold > 0 && Bucket(pc.total, threshold) > Bucket(b.lastWarned, threshold)
                 then Swapping(pc.rest, pc.total, b.lastWarned) else Sending(pc.rest))
    case Swap(t) =>
      var pc := PcOf(b, t);
      var b1 := if b.lastWarned == pc.last then b.(lastWarned := pc.total, warnings := b.warnings + [pc.total]) else b;
      Move(b1, t, Sending(pc.rest))
    case Finish(t) => Move(b, t, Idle)
    case Subscribe => if b.closed then b else b.(subs := b.subs + {b.nextID}, nextID := b.nextID + 1)
    case Cancel(ch) => b.(subs := b.subs - {ch})
    case Close => if b.closed then b else b.(closed := true, shut := b.shut + b.subs, subs := {})
  }

  /** A schedule: every action is enabled when its turn comes. */
  predicate Schedule(b: Bus, acts: seq<Action>, threshold: nat)
    decreases |acts|
  {
    acts != [] ==> Enabled(b, acts[0]) && Schedule(Step(b, acts[0], threshold), acts[1..], threshold)
  }

  function Run(b: Bus, acts: seq<Action>, threshold: nat): Bus
    requires Schedule(b, acts, threshold)
    decreases |acts|
  {
    if acts == [] then b else Run(Step(b, acts[0], threshold), acts[1..], threshold)
  }

  // ---------------------------------------------------------------- channels

  /** Subscribed channels are open, and a publisher serves subscribed channels only. */
  ghost predicate ChannelsOpen(b: Bus) {
    && b.subs !! b.shut && (b.closed ==> b.subs == {})
    && (forall ch :: ch in b.subs + b.shut ==> ch < b.nextID)
    && (forall t :: t in b.pcs && !b.pcs[t].Idle? ==> b.pcs[t].rest <= b.subs)
  }

  lemma MoveKeepsOpen(b: Bus, t: Thread, pc: Pc)
    requires ChannelsOpen(b) && (!pc.Idle? ==> pc.rest <= b.subs)
    ensures ChannelsOpen(Move(b, t, pc))
  {
  }

  lemma WriterKeepsOpen(b: Bus, a: Action, threshold: nat)
    requires ChannelsOpen(b) && Enabled(b, a) && (a.Subscribe? || a.Cancel? || a.Close?)
    ensures ChannelsOpen(Step(b, a, threshold))
  {
    var b' := Step(b, a, threshold);
    assert Quiet(b) && b'.pcs == b.pcs;
    assert b.nextID !in b.subs + b.shut && b.nextID !in b.shut;
    match a
    case Subscribe =>
    case Cancel(ch) => assert b'.subs <= b.subs && b'.shut == b.shut;
    case Close => assert b'.subs == {} && b'.shut <= b.subs + b.shut;
  }

  lemma StepKeepsOpen(b: Bus, a: Action, threshold: nat)
    requires ChannelsOpen(b) && Enabled(b, a)
    ensures ChannelsOpen(Step(b, a, threshold))
    ensures a.Send? || a.Full? ==> a.ch in b.subs && a.ch !in b.shut
  {
    hide Bucket;
    if a.Subscribe? || a.Cancel? || a.Close? {
      WriterKeepsOpen(b, a, threshold);
    } else {
      var b' := Step(b, a, threshold);
      if b' != b.(published := b'.published) {
        assert ChannelsOpen(b'.(pcs := b.pcs));
        MoveKeepsOpen(b'.(pcs := b.pcs), a.t, b'.pcs[a.t]);
      }
    }
  }

  /** Every attempt to send, in the whole schedule, is on a channel that has not been closed. */
  ghost predicate SendsSafe(b: Bus, acts: seq<Action>, threshold: nat)
    requires Schedule(b, acts, threshold)
    decreases |acts|
  {
    acts != [] ==>
      && (acts[0].Send? || acts[0].Full? ==> acts[0].ch in b.subs && acts[0].ch !in b.shut)
      && SendsSafe(Step(b, acts[0], threshold), acts[1..], threshold)
  }

  // ---------------------------------------------------------------- warnings

  /** Warned totals lie in strictly increasing buckets, the last one is remembered, and what a
      publisher has read is never ahead of the shared counters. */
  ghost predicate Warned(b: Bus, d: nat)
    requires d > 0
  {
    && b.lastWarned <= b.dropped
    && (b.warnings == [] ==> b.lastWarned == 0)
    && (b.warnings != [] ==> b.warnings[|b.warnings| - 1] == b.lastWarned && Bucket(b.warnings[0], d) >= 1)
    && (forall i, j :: 0 <= i < j < |b.warnings| ==> Bucket(b.warnings[i], d) < Bucket(b.warnings[j], d))
    && (forall t :: t in b.pcs && b.pcs[t].LoadingLast? ==> b.pcs[t].total <= b.dropped)
    && (forall t :: t in b.pcs && b.pcs[t].Swapping? ==>
          b.pcs[t].total <= b.dropped && Bucket(b.pcs[t].total, d) > Bucket(b.pcs[t].last, d))
  }

  lemma MulMonotone(x: int, y: int, d: nat)
    requires x >= y
    ensures x * d >= y * d
  {
  }

  lemma BucketBounds(n: nat, d: nat)
    requires d > 0
    ensures Bucket(n, d) * d <= n < (Bucket(n, d) + 1) * d
  {
    assert n == n / d * d + n % d;
  }

  lemma BucketsMonotone(a: nat, b: nat, d: nat)
    requires d > 0 && a <= b
    ensures Bucket(a, d) <= Bucket(b, d)
  {
    BucketBounds(a, d);
    BucketBounds(b, d);
    hide Bucket;
    if Bucket(a, d) >= Bucket(b, d) + 1 {
      MulMonotone(Bucket(a, d), Bucket(b, d) + 1, d);
    }
  }

  lemma SmallerBucket(a: nat, b: nat, d: nat)
    requires d > 0 && Bucket(a, d) < Bucket(b, d)
    ensures a < b
  {
    hide Bucket;
    if b <= a { BucketsMonotone(b, a, d); }
  }

  /** One more drop enters at most the next bucket. */
  lemma NextBucket(n: nat, d: nat)
    requires d > 0
    ensures Bucket(n, d) <= Bucket(n + 1, d) <= Bucket(n, d) + 1
  {
    BucketsMonotone(n, n + 1, d);
    BucketBounds(n, d);
    BucketBounds(n + 1, d);
    hide Bucket;
    if Bucket(n + 1, d) >= Bucket(n, d) + 2 {
      MulMonotone(Bucket(n + 1, d), Bucket(n, d) + 2, d);
    }
  }

  lemma SwapKeepsWarned(b: Bus, t: Thread, d: nat)
    requires d > 0 && Warned(b, d) && PcOf(b, t).Swapping?
    ensures Warned(Step(b, Swap(t), d), d)
    ensures Step(b, Swap(t), d).lastWarned == b.lastWarned || Step(b, Swap(t), d).lastWarned > b.lastWarned
    ensures Step(b, Swap(t), d).warnings != b.warnings ==>
              && Step(b, Swap(t), d).lastWarned > b.lastWarned
              && Bucket(Step(b, Swap(t), d).lastWarned, d) > Bucket(b.lastWarned, d)
  {
    hide Bucket;
    var pc := PcOf(b, t);
    if b.lastWarned == pc.last {
      SmallerBucket(pc.last, pc.total, d);
      var b' := Step(b, Swap(t), d);
      var n := |b.warnings|;
      assert b'.warnings[n] == pc.total;
      forall i | 0 <= i < n ensures Bucket(b'.warnings[i], d) < Bucket(pc.total, d) {
        assert i < n - 1 ==> Bucket(b.warnings[i], d) < Bucket(b.warnings[n - 1], d);
      }
    }
  }

  lemma StepKeepsWarned(b: Bus, a: Action, d: nat)
    requires d > 0 && Warned(b, d) && Enabled(b, a)
    ensures Warned(Step(b, a, d), d)
    ensures Step(b, a, d).lastWarned >= b.lastWarned && Step(b, a, d).dropped >= b.dropped
    ensures Step(b, a, d).warnings != b.warnings ==> Step(b, a, d).lastWarned > b.lastWarned
  {
    hide Bucket;
    if a.Swap? { SwapKeepsWarned(b, a.t, d); }
  }

  lemma {:induction false} WarningIndex(w: seq<nat>, d: nat, i: nat)
    requires d > 0 && i < |w| && Bucket(w[0], d) >= 1
    requires forall i, j :: 0 <= i < j < |w| ==> Bucket(w[i], d) < Bucket(w[j], d)
    ensures Bucket(w[i], d) >= i + 1
  {
    hide Bucket;
    if i > 0 { WarningIndex(w, d, i - 1); }
  }

  /** Every interleaving: no send ever meets a closed channel, each bucket is warned about at most
      once, and there are never more warnings than completed buckets. */
  lemma {:induction false} EveryRunWarnsOncePerBucket(b: Bus, acts: seq<Action>, d: nat)
    requires d > 0 && ChannelsOpen(b) && Warned(b, d) && Schedule(b, acts, d)
    ensures var b' := Run(b, acts, d);
            && SendsSafe(b, acts, d) && ChannelsOpen(b') && Warned(b', d)
            && (forall i, j :: 0 <= i < j < |b'.warnings| ==> Bucket(b'.warnings[i], d) < Bucket(b'.warnings[j], d))
            && |b'.warnings| <= Bucket(b'.dropped, d)
            && b.lastWarned <= b'.lastWarned
    decreases |acts|
  {
    hide Bucket;
    if acts != [] {
      StepKeepsOpen(b, acts[0], d);
      StepKeepsWarned(b, acts[0], d);
      EveryRunWarnsOncePerBucket(Step(b, acts[0], d), acts[1..], d);
    } else {
      if b.warnings != [] {
        WarningIndex(b.warnings, d, |b.warnings| - 1);
        BucketsMonotone(b.lastWarned, b.dropped, d);
      }
    }
  }

  // ---------------------------------------------------------------- drops one at a time

  /** A publisher that has counted a drop and is still deciding whether to warn about it. */
  predicate Deciding(pc: Pc) {
    pc.LoadingTotal? || pc.LoadingLast? || pc.Swapping?
  }

  ghost predicate NobodyDecides(b: Bus) {
    forall t :: t in b.pcs ==> !Deciding(b.pcs[t])
  }

  /** What the deciding publisher knows: its own drop is the only one not yet warned about. */
  predicate UpToDate(b: Bus, pc: Pc, d: nat)
    requires d > 0
  {
    && b.dropped > 0 && Bucket(b.dropped - 1, d) == Bucket(b.lastWarned, d)
    && (pc.LoadingLast? ==> pc.total == b.dropped)
    && (pc.Swapping? ==> pc.total == b.dropped && pc.last == b.lastWarned && Bucket(pc.total, d) > Bucket(pc.last, d))
  }

  /** Between drops there are exactly as many warnings as completed buckets; right after counting
      one, the new bucket may still be missing, and the one publisher deciding is about to add it. */
  ghost predicate Exact(b: Bus, d: nat)
    requires d > 0
  {
    && |b.warnings| == Bucket(b.lastWarned, d)
    && (forall t :: t in b.pcs && Deciding(b.pcs[t]) ==> UpToDate(b, b.pcs[t], d))
    && (forall t, u :: t in b.pcs && u in b.pcs && Deciding(b.pcs[t]) && Deciding(b.pcs[u]) ==> t == u)
    && (NobodyDecides(b) ==> Bucket(b.dropped, d) == Bucket(b.lastWarned, d))
  }

  /** No drop is counted while another publisher is deciding. */
  ghost predicate InTurn(b: Bus, a: Action) {
    a.Add? ==> NobodyDecides(b)
  }

  lemma AddKeepsExact(b: Bus, t: Thread, d: nat)
    requires d > 0 && Exact(b, d) && PcOf(b, t).Adding? && NobodyDecides(b)
    ensures Exact(Step(b, Add(t), d), d)
  {
    hide Bucket;
    var b' := Step(b, Add(t), d);
    assert Deciding(b'.pcs[t]) && !NobodyDecides(b');
    assert forall u :: u in b'.pcs && u != t ==> !Deciding(b'.pcs[u]);
  }

  lemma DecisionKeepsExact(b: Bus, a: Action, d: nat)
    requires d > 0 && Exact(b, d) && Enabled(b, a) && (a.LoadTotal? || a.LoadLast? || a.Swap?)
    ensures Exact(Step(b, a, d), d)
  {
    hide Bucket;
    var b' := Step(b, a, d);
    assert Deciding(b.pcs[a.t]);
    NextBucket(b.dropped - 1, d);
    assert forall u :: u in b'.pcs && u != a.t ==> u in b.pcs && b'.pcs[u] == b.pcs[u] && !Deciding(b.pcs[u]);
    if Deciding(b'.pcs[a.t]) { assert !NobodyDecides(b'); }
  }

  /** Exactness depends on the counters and on who is deciding. */
  lemma SameDecidersSameExact(b: Bus, b': Bus, d: nat)
    requires d > 0 && Exact(b, d)
    requires b'.dropped == b.dropped && b'.lastWarned == b.lastWarned && b'.warnings == b.warnings
    requires forall u :: u in b'.pcs && Deciding(b'.pcs[u]) ==> u in b.pcs && b.pcs[u] == b'.pcs[u]
    requires forall u :: u in b.pcs && Deciding(b.pcs[u]) ==> u in b'.pcs && b.pcs[u] == b'.pcs[u]
    ensures Exact(b', d)
  {
    hide Bucket, Deciding;
  }

  lemma OtherKeepsExact(b: Bus, a: Action, d: nat)
    requires d > 0 && Exact(b, d) && Enabled(b, a)
    requires !a.Add? && !a.LoadTotal? && !a.LoadLast? && !a.Swap?
    ensures Exact(Step(b, a, d), d)
  {
    hide Bucket, Exact;
    var b' := Step(b, a, d);
    if a.Subscribe? || a.Cancel? || a.Close? || b'.pcs == b.pcs {
      assert b'.pcs == b.pcs;
    } else {
      assert !Deciding(PcOf(b, a.t)) && b'.pcs == b.pcs[a.t := b'.pcs[a.t]] && !Deciding(b'.pcs[a.t]);
    }
    SameDecidersSameExact(b, b', d);
  }

  lemma StepKeepsExact(b: Bus, a: Action, d: nat)
    requires d > 0 && Exact(b, d) && Enabled(b, a) && InTurn(b, a)
    ensures Exact(Step(b, a, d), d)
  {
    hide Exact, Step;
    if a.Add? {
      AddKeepsExact(b, a.t, d);
    } else if a.LoadTotal? || a.LoadLast? || a.Swap? {
      DecisionKeepsExact(b, a, d);
    } else {
      OtherKeepsExact(b, a, d);
    }
  }

  ghost predicate InTurnRun(b: Bus, acts: seq<Action>, d: nat)
    requires Schedule(b, acts, d)
    decreases |acts|
  {
    acts != [] ==> InTurn(b, acts[0]) && InTurnRun(Step(b, acts[0], d), acts[1..], d)
  }

  /** Any number of publishers: if their drops are decided one at a time, the bound is met exactly
      whenever nobody is in the middle of one. */
  lemma {:induction false} SeparateDropsWarnEveryBucket(b: Bus, acts: seq<Action>, d: nat)
    requires d > 0 && Exact(b, d) && Schedule(b, acts, d) && InTurnRun(b, acts, d)
    ensures Exact(Run(b, acts, d), d)
    ensures NobodyDecides(Run(b, acts, d)) ==> |Run(b, acts, d).warnings| == Bucket(Run(b, acts, d).dropped, d)
    decreases |acts|
  {
    if acts == [] {
    } else {
      StepKeepsExact(b, acts[0], d);
      SeparateDropsWarnEveryBucket(Step(b, acts[0], d), acts[1..], d);
    }
  }

  /** Only thread `t` is publishing. */
  ghost predicate Alone(b: Bus, t: Thread) {
    forall u :: u in b.pcs && u != t ==> b.pcs[u].Idle?
  }

  lemma {:induction false} AloneInTurn(b: Bus, acts: seq<Action>, t: Thread, d: nat)
    requires Alone(b, t) && Schedule(b, acts, d)
    requires forall i :: 0 <= i < |acts| && acts[i].Publish? ==> acts[i].t == t
    ensures InTurnRun(b, acts, d) && Alone(Run(b, acts, d), t)
    decreases |acts|
  {
    if acts == [] {
    } else {
      AloneInTurn(Step(b, acts[0], d), acts[1..], t, d);
    }
  }

  /** So with one publisher the bound is met exactly whenever it is not in the middle of a drop. */
  lemma SinglePublisherWarnsEveryBucket(b: Bus, acts: seq<Action>, t: Thread, d: nat)
    requires d > 0 && Exact(b, d) && Alone(b, t) && Schedule(b, acts, d)
    requires forall i :: 0 <= i < |acts| && acts[i].Publish? ==> acts[i].t == t
    ensures Exact(Run(b, acts, d), d)
    ensures !Deciding(PcOf(Run(b, acts, d), t)) ==> |Run(b, acts, d).warnings| == Bucket(Run(b, acts, d).dropped, d)
  {
    AloneInTurn(b, acts, t, d);
    SeparateDropsWarnEveryBucket(b, acts, d);
  }

  /** A new bus satisfies all of these. */
  lemma NewBus(t: Thread, d: nat)
    requires d > 0
    ensures ChannelsOpen(NEW_BUS) && Warned(NEW_BUS, d) && Exact(NEW_BUS, d) && Alone(NEW_BUS, t)
  {
  }

  // ---------------------------------------------------------------- two publishers may merge buckets

  lemma {:induction false} ScheduleSnoc(b: Bus, acts: seq<Action>, a: Action, threshold: nat)
    requires Schedule(b, acts, threshold) && Enabled(Run(b, acts, threshold), a)
    ensures Schedule(b, acts + [a], threshold)
    ensures Run(b, acts + [a], threshold) == Step(Run(b, acts, threshold), a, threshold)
    decreases |acts|
  {
    if acts == [] {
      assert acts + [a] == [a] && [a][1..] == [];
    } else {
      assert (acts + [a])[1..] == acts[1..] + [a];
      ScheduleSnoc(Step(b, acts[0], threshold), acts[1..], a, threshold);
    }
  }

  /** One more step from a known state to a known state. */
  lemma Then(acts: seq<Action>, b: Bus, a: Action, b': Bus) returns (acts': seq<Action>)
    requires Schedule(NEW_BUS, acts, 1) && Run(NEW_BUS, acts, 1) == b && Enabled(b, a) && Step(b, a, 1) == b'
    ensures Schedule(NEW_BUS, acts', 1) && Run(NEW_BUS, acts', 1) == b'
  {
    acts' := acts + [a];
    ScheduleSnoc(NEW_BUS, acts, a, 1);
  }

  function Two(b: Bus, pc0: Pc, pc1: Pc): Bus {
    b.(pcs := map[0 := pc0, 1 := pc1])
  }

  const BOTH_PUBLISHED := Two(NEW_BUS.(subs := {0}, nextID := 1, published := 2), Sending({0}), Sending({0}))
  const BOTH_DROPPED := Two(BOTH_PUBLISHED.(dropped := 2), LoadingTotal({}), LoadingTotal({}))
  const ONE_WARNED := Two(BOTH_DROPPED.(lastWarned := 2, warnings := [2]), Sending({}), LoadingTotal({}))

  lemma BothPublish() returns (acts: seq<Action>)
    ensures Schedule(NEW_BUS, acts, 1) && Run(NEW_BUS, acts, 1) == BOTH_PUBLISHED
  {
    var s := NEW_BUS.(subs := {0}, nextID := 1);
    var p := s.(published := 1, pcs := map[0 := Sending({0})]);
    acts := Then([], NEW_BUS, Subscribe, s);
    hide Schedule, Run;
    acts := Then(acts, s, Publish(0), p);
    acts := Then(acts, p, Publish(1), BOTH_PUBLISHED);
  }

  lemma BothDrop() returns (acts: seq<Action>)
    ensures Schedule(NEW_BUS, acts, 1) && Run(NEW_BUS, acts, 1) == BOTH_DROPPED
  {
    hide Schedule, Run;
    var p := BOTH_PUBLISHED;
    var f1 := Two(p, Adding({}), Sending({0}));
    var f2 := Two(p, Adding({}), Adding({}));
    var d1 := Two(p.(dropped := 1), LoadingTotal({}), Adding({}));
    var none: set<Channel> := {};
    assert {0} - {0} == none;
    acts := BothPublish();
    acts := Then(acts, p, Full(0, 0), f1);
    acts := Then(acts, f1, Full(1, 0), f2);
    acts := Then(acts, f2, Add(0), d1);
    acts := Then(acts, d1, Add(1), BOTH_DROPPED);
  }

  lemma OneWarns() returns (acts: seq<Action>)
    ensures Schedule(NEW_BUS, acts, 1) && Run(NEW_BUS, acts, 1) == ONE_WARNED
  {
    assert Bucket(2, 1) == 2 && Bucket(0, 1) == 0;
    hide Bucket, Schedule, Run;
    var t0 := Two(BOTH_DROPPED, LoadingLast({}, 2), LoadingTotal({}));
    var l0 := Two(BOTH_DROPPED, Swapping({}, 2, 0), LoadingTotal({}));
    acts := BothDrop();
    acts := Then(acts, BOTH_DROPPED, LoadTotal(0), t0);
    acts := Then(acts, t0, LoadLast(0), l0);
    acts := Then(acts, l0, Swap(0), ONE_WARNED);
  }

  /** With two publishers the bound need not be met: both count a drop before either reads the
      total, and one warning covers both. */
  lemma TwoPublishersMayMergeBuckets() returns (acts: seq<Action>)
    ensures Schedule(NEW_BUS, acts, 1)
    ensures var b := Run(NEW_BUS, acts, 1); Quiet(b) && b.dropped == 2 && b.warnings == [2]
  {
    hide Schedule, Run;
    var w := ONE_WARNED;
    var t1 := Two(w, Sending({}), LoadingLast({}, 2));
    var l1 := Two(w, Sending({}), Sending({}));
    var e0 := Two(w, Idle, Sending({}));
    var e1 := Two(w, Idle, Idle);
    acts := OneWarns();
    acts := Then(acts, w, LoadTotal(1), t1);
    acts := Then(acts, t1, LoadLast(1), l1);
    acts := Then(acts, l1, Finish(0), e0);
    acts := Then(acts, e0, Finish(1), e1);
  }
}
