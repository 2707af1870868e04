/**
 What the event bus owes its subscribers, under every interleaving: each publication tries every
 channel subscribed at the time exactly once, a subscriber stays one until it cancels or the bus
 closes, and a cancelled one is never tried again. The counters count what they say.
 */
module Subscriptions {
  import opened EventBus

  /** The channels thread `t` has tried, in order. */
  function Tried(acts: seq<Action>, t: Thread): seq<Channel> {
    if acts == [] then []
    else
      var a := acts[|acts| - 1];
      Tried(acts[..|acts| - 1], t) + if (a.Send? || a.Full?) && a.t == t then [a.ch] else []
  }

  /** Thread `t` neither starts nor finishes a publication. */
  ghost predicate Publishing(acts: seq<Action>, t: Thread) {
    forall i :: 0 <= i < |acts| && (acts[i].Publish? || acts[i].Finish?) ==> acts[i].t != t
  }

  lemma {:induction false} SchedulePrefix(b: Bus, acts: seq<Action>, a: Action, d: nat)
    requires Schedule(b, acts + [a], d)
    ensures Schedule(b, acts, d) && Enabled(Run(b, acts, d), a)
    ensures Run(b, acts + [a], d) == Step(Run(b, acts, d), a, d)
    decreases |acts|
  {
    hide Enabled, Step;
    if acts == [] {
      assert acts + [a] == [a] && [a][1..] == [];
    } else {
      assert (acts + [a])[1..] == acts[1..] + [a];
      SchedulePrefix(Step(b, acts[0], d), acts[1..], a, d);
    }
  }

  /** Thread `t` still has to try `rest` of the channels `subs` it found; it has tried the others once. */
  ghost predicate Serving(b: Bus, t: Thread, subs: set<Channel>, tried: seq<Channel>) {
    && !PcOf(b, t).Idle? && PcOf(b, t).rest <= subs && b.subs == subs
    && (forall ch :: ch in tried <==> ch in subs - PcOf(b, t).rest)
    && (forall i, j :: 0 <= i < j < |tried| ==> tried[i] != tried[j])
  }

  lemma StepServes(b: Bus, a: Action, t: Thread, subs: set<Channel>, tried: seq<Channel>, d: nat)
    requires Enabled(b, a) && Serving(b, t, subs, tried) && !((a.Publish? || a.Finish?) && a.t == t)
    ensures Serving(Step(b, a, d), t, subs, tried + if (a.Send? || a.Full?) && a.t == t then [a.ch] else [])
  {
    hide Bucket;
    var b' := Step(b, a, d);
    if a.Subscribe? || a.Cancel? || a.Close? {
      assert false;
    } else if a.t != t {
      assert PcOf(b', t) == PcOf(b, t) && b'.subs == b.subs && tried + [] == tried;
    } else if a.Send? || a.Full? {
      var more := tried + [a.ch];
      assert a.ch !in tried;
      assert PcOf(b', t).rest == PcOf(b, t).rest - {a.ch} && b'.subs == subs;
      forall ch ensures ch in more <==> ch in subs - PcOf(b', t).rest {
        assert ch in more <==> ch in tried || ch == a.ch;
      }
    } else {
      assert PcOf(b', t).rest == PcOf(b, t).rest && b'.subs == b.subs && tried + [] == tried;
    }
  }

  lemma {:induction false} RunServes(b: Bus, acts: seq<Action>, t: Thread, d: nat)
    requires PcOf(b, t).Sending? && PcOf(b, t).rest == b.subs && Schedule(b, acts, d) && Publishing(acts, t)
    ensures Serving(Run(b, acts, d), t, b.subs, Tried(acts, t))
    decreases |acts|
  {
    if acts == [] {
    } else {
      var n := |acts| - 1;
      var front, a := acts[..n], acts[n];
      assert acts == front + [a];
      SchedulePrefix(b, front, a, d);
      hide Step, Enabled, Serving;
      RunServes(b, front, t, d);
      StepServes(Run(b, front, d), a, t, b.subs, Tried(front, t), d);
    }
  }

  /** A publication that runs to its end has tried every channel that was subscribed when it started,
      each exactly once, whatever other publishers did in between. */
  lemma EveryoneTriedOnce(b: Bus, acts: seq<Action>, t: Thread, d: nat)
    requires !b.closed && PcOf(b, t).Idle? && Publishing(acts, t)
    requires Schedule(Step(b, Publish(t), d), acts, d) && Enabled(Run(Step(b, Publish(t), d), acts, d), Finish(t))
    ensures forall ch :: ch in Tried(acts, t) <==> ch in b.subs
    ensures forall i, j :: 0 <= i < j < |Tried(acts, t)| ==> Tried(acts, t)[i] != Tried(acts, t)[j]
    ensures Run(Step(b, Publish(t), d), acts, d).subs == b.subs
  {
    var b1 := Step(b, Publish(t), d);
    assert PcOf(b1, t) == Sending(b.subs) && b1.subs == b.subs;
    hide Step;
    RunServes(b1, acts, t, d);
  }

  // ---------------------------------------------------------------- staying and leaving

  lemma StepKeepsSubscriber(b: Bus, a: Action, ch: Channel, d: nat)
    requires Enabled(b, a) && ch < b.nextID
    ensures ch < Step(b, a, d).nextID
    ensures ch in b.subs && a != Cancel(ch) && a != Close ==> ch in Step(b, a, d).subs
    ensures ch !in b.subs || a == Cancel(ch) ==> ch !in Step(b, a, d).subs
  {
  }

  /** A subscriber stays one as long as nobody cancels it or closes the bus; and once it is none, it never
      becomes one again. */
  lemma {:induction false} SubscriberStays(b: Bus, acts: seq<Action>, ch: Channel, d: nat)
    requires Schedule(b, acts, d) && ch < b.nextID
    ensures ch in b.subs && Cancel(ch) !in acts && Close !in acts ==> ch in Run(b, acts, d).subs
    ensures ch !in b.subs || Cancel(ch) in acts ==> ch !in Run(b, acts, d).subs
    decreases |acts|
  {
    hide Step, Enabled;
    if acts == [] {
    } else {
      StepKeepsSubscriber(b, acts[0], ch, d);
      SubscriberStays(Step(b, acts[0], d), acts[1..], ch, d);
      assert forall a :: a in acts <==> a == acts[0] || a in acts[1..];
    }
  }

  /** A new subscription is one, under an id of its own, unless the bus is closed. */
  lemma NewSubscriber(b: Bus, d: nat)
    requires ChannelsOpen(b) && Quiet(b)
    ensures var b' := Step(b, Subscribe, d);
            && (b.closed ==> b'.subs == {})
            && (!b.closed ==> exists ch :: ch !in b.subs + b.shut && b'.subs == b.subs + {ch})
  {
    if !b.closed { assert b.nextID !in b.subs + b.shut; }
  }

  lemma StepKeepsClosed(b: Bus, a: Action, d: nat)
    requires Enabled(b, a) && b.closed && b.subs == {}
    ensures Step(b, a, d).closed && Step(b, a, d).subs == {} && b.shut <= Step(b, a, d).shut
  {
  }

  lemma {:induction false} StaysClosed(b: Bus, acts: seq<Action>, d: nat)
    requires b.closed && b.subs == {} && Schedule(b, acts, d)
    ensures Run(b, acts, d).closed && Run(b, acts, d).subs == {} && b.shut <= Run(b, acts, d).shut
    decreases |acts|
  {
    hide Step, Enabled;
    if acts == [] {
    } else {
      StepKeepsClosed(b, acts[0], d);
      StaysClosed(Step(b, acts[0], d), acts[1..], d);
    }
  }

  /** Closing shuts every subscribed channel for good, and nobody subscribes after it. */
  lemma ClosedForGood(b: Bus, acts: seq<Action>, d: nat)
    requires ChannelsOpen(b) && Quiet(b) && Schedule(Step(b, Close, d), acts, d)
    ensures var r := Run(Step(b, Close, d), acts, d);
            r.closed && r.subs == {} && b.subs + b.shut <= r.shut
  {
    var b1 := Step(b, Close, d);
    assert b1.closed && b1.subs == {} && b.subs + b.shut <= b1.shut;
    hide Step;
    StaysClosed(b1, acts, d);
  }

  // ---------------------------------------------------------------- counters

  function Publications(acts: seq<Action>): nat {
    if acts == [] then 0 else (if acts[0].Publish? then 1 else 0) + Publications(acts[1..])
  }

  function Drops(acts: seq<Action>): nat {
    if acts == [] then 0 else (if acts[0].Add? then 1 else 0) + Drops(acts[1..])
  }

  /** Every publication is counted, also on a closed bus, and every drop. */
  lemma {:induction false} CountersCount(b: Bus, acts: seq<Action>, d: nat)
    requires Schedule(b, acts, d)
    ensures Run(b, acts, d).published == b.published + Publications(acts)
    ensures Run(b, acts, d).dropped == b.dropped + Drops(acts)
    decreases |acts|
  {
    hide Bucket;
    if acts == [] {
    } else {
      CountersCount(Step(b, acts[0], d), acts[1..], d);
    }
  }
}
