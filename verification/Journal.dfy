/**
 The engine's ledger is never touched behind the ledger's back: every event, tick and operation is
 a sequence of ledger operations, so the laws of ledger runs hold of every run of the engine.
 */
module Journals {
  import opened Core
  import opened Ledgers
  import opened Books
  import opened Engines
  import S = Solvency

  function Releases(ev: ExecutionEvent): seq<Op> {
    if ev.parentOrderID == "" then [] else [OpUnprovision(ev.parentOrderID)]
  }

  function FillOps(e: Engine, ev: ExecutionEvent, c: Clock): seq<Op> {
    if ev.orderID !in e.accepted then []
    else
      var fills := if ev.filledSize > 0.0 then [OpFill(EventFill(ev), c.today)] else [];
      if ev.status.Filled? && (ev.filledSize <= 0.0 || ApplyFill(e.ledger, EventFill(ev), c.today).outcome.Done?)
      then fills + [OpEvict(ev.orderID)] else fills
  }

  /** The ledger operations that handling an event performs. */
  function HandleOps(e: Engine, ev: ExecutionEvent, c: Clock): seq<Op>
    requires PendingDeferrable(e)
    decreases if ev.status.Accepted? then 1 else 0, 0
  {
    if ev.orderID == "" then (if ev.status.Rejected? then Releases(ev) else [])
    else if ev.orderID in e.finalized then []
    else match ev.status
      case Accepted =>
        var e1 := Accept(e, ev);
        [OpAttach(ev.parentOrderID, ev.orderID, EventTerms(ev))] +
        if ev.orderID !in e.pending then []
        else ReplayOps(e1.(pending := e1.pending - {ev.orderID}), e1.pending[ev.orderID].events, c)
      case PartiallyFilled => FillOps(e, ev, c)
      case Filled => FillOps(e, ev, c)
      case Cancelled => if ev.orderID in e.accepted then [OpEvict(ev.orderID)] else []
      case Rejected => Releases(ev) + if ev.orderID in e.accepted then [OpEvict(ev.orderID)] else []
      case OtherStatus(_) => []
  }

  function ReplayOps(e: Engine, evs: seq<ExecutionEvent>, c: Clock): seq<Op>
    requires PendingDeferrable(e) && forall i :: 0 <= i < |evs| ==> Deferrable(evs[i])
    decreases 0, |evs|
  {
    if evs == [] then []
    else
      assert Deferrable(evs[0]);
      HandleOps(e, evs[0], c) + ReplayOps(Handle(e, evs[0], false, c), evs[1..], c)
  }

  /** The only operations the engine performs by itself. */
  predicate Own(op: Op) {
    op.OpAttach? || op.OpFill? || op.OpEvict? || op.OpUnprovision?
  }

  ghost predicate AllOwn(ops: seq<Op>) {
    forall i :: 0 <= i < |ops| ==> Own(ops[i])
  }

  lemma RunOne(l: Ledger, op: Op)
    ensures Run(l, [op]) == Step(l, op) && Run(l, []) == l
  {
    assert [op][1..] == [];
  }

  lemma ReleasesJournaled(l: Ledger, ev: ExecutionEvent)
    ensures Run(l, Releases(ev)) == DropProvisional(l, ev.parentOrderID)
  {
    RunOne(l, OpUnprovision(ev.parentOrderID));
    hide Unprovision;
  }

  lemma FillJournaled(e: Engine, ev: ExecutionEvent, c: Clock)
    ensures HandleFill(e, ev, c).ledger == Run(e.ledger, FillOps(e, ev, c))
  {
    hide ApplyFill, Evict, Run;
    var op := OpFill(EventFill(ev), c.today);
    RunOne(e.ledger, op);
    RunOne(e.ledger, OpEvict(ev.orderID));
    RunSnoc(e.ledger, [op], OpEvict(ev.orderID));
    assert [] + [OpEvict(ev.orderID)] == [OpEvict(ev.orderID)];
    FailedFill(e.ledger, EventFill(ev), c.today);
  }

  lemma FailedFill(l: Ledger, f: Fill, today: string)
    ensures ApplyFill(l, f, today).outcome.Fail? ==> ApplyFill(l, f, today).ledger == l
  {
  }

  lemma PlainJournaled(e: Engine, ev: ExecutionEvent, count: bool, c: Clock)
    requires PendingDeferrable(e) && !ev.status.Accepted?
    ensures Handle(e, ev, count, c).ledger == Run(e.ledger, HandleOps(e, ev, c))
    ensures AllOwn(HandleOps(e, ev, c))
  {
    hide HandleFill, FillOps, Run, Evict, DropProvisional, Releases;
    var e0 := if count then e.(counters := e.counters.(events := e.counters.events + 1)) else e;
    FillJournaled(e0, ev, c);
    FillOpsLocal(e, e0, ev, c);
    RunOne(e.ledger, OpEvict(ev.orderID));
    ReleasesJournaled(e.ledger, ev);
    RunSnoc(e.ledger, Releases(ev), OpEvict(ev.orderID));
    assert Releases(ev) + [] == Releases(ev);
  }

  lemma FillOpsLocal(a: Engine, b: Engine, ev: ExecutionEvent, c: Clock)
    requires a.ledger == b.ledger && a.accepted == b.accepted
    ensures FillOps(a, ev, c) == FillOps(b, ev, c) && AllOwn(FillOps(a, ev, c)) && AllOwn(Releases(ev))
  {
    hide ApplyFill;
  }

  lemma {:induction false} ReplayJournaled(e: Engine, evs: seq<ExecutionEvent>, c: Clock)
    requires PendingDeferrable(e) && forall i :: 0 <= i < |evs| ==> Deferrable(evs[i])
    ensures Replay(e, evs, c).ledger == Run(e.ledger, ReplayOps(e, evs, c))
    ensures AllOwn(ReplayOps(e, evs, c))
    decreases |evs|
  {
    hide Handle, HandleOps, Run;
    RunOne(e.ledger, OpEvict(""));
    if evs == [] {
    } else {
      assert Deferrable(evs[0]);
      var e1 := Handle(e, evs[0], false, c);
      PlainJournaled(e, evs[0], false, c);
      ReplayJournaled(e1, evs[1..], c);
      RunConcat(e.ledger, HandleOps(e, evs[0], c), ReplayOps(e1, evs[1..], c));
    }
  }

  predicate UpToCounters(a: Engine, b: Engine) {
    a.(counters := b.counters) == b
  }

  lemma CloseUpToCounters(a: Engine, b: Engine, id: string, now: int)
    requires UpToCounters(a, b)
    ensures UpToCounters(Close(a, id, now), Close(b, id, now))
  {
    hide Evict;
  }

  lemma FillUpToCounters(a: Engine, b: Engine, ev: ExecutionEvent, c: Clock)
    requires UpToCounters(a, b)
    ensures UpToCounters(HandleFill(a, ev, c), HandleFill(b, ev, c))
  {
    hide ApplyFill, Close;
    var r := if ev.filledSize > 0.0 then ApplyFill(a.ledger, EventFill(ev), c.today) else Result(a.ledger, Done);
    CloseUpToCounters(a.(counters := a.counters.(filled := a.counters.filled + 1), ledger := r.ledger),
                      b.(counters := b.counters.(filled := b.counters.filled + 1), ledger := r.ledger),
                      ev.orderID, c.now);
  }

  /** Counters decide nothing. */
  lemma CountersDecideNothing(a: Engine, b: Engine, ev: ExecutionEvent, c: Clock)
    requires PendingDeferrable(a) && PendingDeferrable(b) && Deferrable(ev) && UpToCounters(a, b)
    ensures UpToCounters(Handle(a, ev, false, c), Handle(b, ev, false, c)) && HandleOps(a, ev, c) == HandleOps(b, ev, c)
  {
    hide HandleFill, Close, FillOps;
    FillOpsLocal(a, b, ev, c);
    FillUpToCounters(a, b, ev, c);
    CloseUpToCounters(a, b, ev.orderID, c.now);
  }

  lemma {:induction false} ReplayOpsLocal(a: Engine, b: Engine, evs: seq<ExecutionEvent>, c: Clock)
    requires PendingDeferrable(a) && PendingDeferrable(b) && forall i :: 0 <= i < |evs| ==> Deferrable(evs[i])
    requires UpToCounters(a, b)
    ensures ReplayOps(a, evs, c) == ReplayOps(b, evs, c)
    ensures Replay(a, evs, c).ledger == Replay(b, evs, c).ledger
    decreases |evs|
  {
    if evs == [] {
    } else {
      assert Deferrable(evs[0]);
      hide Handle, HandleOps;
      CountersDecideNothing(a, b, evs[0], c);
      ReplayOpsLocal(Handle(a, evs[0], false, c), Handle(b, evs[0], false, c), evs[1..], c);
    }
  }

  /** The acceptance of an order that is not finalized attaches it and replays what was kept. */
  lemma AcceptUnfolds(e: Engine, ev: ExecutionEvent, count: bool, c: Clock)
    requires PendingDeferrable(e) && ev.status.Accepted? && ev.orderID != "" && ev.orderID !in e.finalized
    ensures var id := ev.orderID;
            var e1 := Accept(e, ev);
            var e2 := Accept(if count then e.(counters := e.counters.(events := e.counters.events + 1)) else e, ev);
            && (id !in e.pending ==> Handle(e, ev, count, c) == e2)
            && (id in e.pending ==>
                  && (forall i :: 0 <= i < |e.pending[id].events| ==> Deferrable(e.pending[id].events[i]))
                  && PendingDeferrable(e1.(pending := e.pending - {id}))
                  && PendingDeferrable(e2.(pending := e.pending - {id}))
                  && Handle(e, ev, count, c) == Replay(e2.(pending := e.pending - {id}), e.pending[id].events, c)
                  && HandleOps(e, ev, c) == [OpAttach(ev.parentOrderID, id, EventTerms(ev))]
                                            + ReplayOps(e1.(pending := e.pending - {id}), e.pending[id].events, c))
  {
    hide Attach;
  }

  lemma AcceptJournaled(e: Engine, ev: ExecutionEvent, count: bool, c: Clock)
    requires PendingDeferrable(e) && ev.status.Accepted? && ev.orderID != "" && ev.orderID !in e.finalized
    ensures Handle(e, ev, count, c).ledger == Run(e.ledger, HandleOps(e, ev, c))
    ensures AllOwn(HandleOps(e, ev, c))
  {
    AcceptUnfolds(e, ev, count, c);
    var op := OpAttach(ev.parentOrderID, ev.orderID, EventTerms(ev));
    RunOne(e.ledger, op);
    if ev.orderID in e.pending {
      var e1 := Accept(e, ev);
      var e2 := Accept(if count then e.(counters := e.counters.(events := e.counters.events + 1)) else e, ev);
      var evs, rest := e.pending[ev.orderID].events, e1.(pending := e.pending - {ev.orderID});
      hide Attach, Run, ReplayOps, Replay, Handle, HandleOps;
      ReplayJournaled(rest, evs, c);
      ReplayOpsLocal(rest, e2.(pending := e.pending - {ev.orderID}), evs, c);
      RunConcat(e.ledger, [op], ReplayOps(rest, evs, c));
    } else {
      hide Attach, Run;
      assert HandleOps(e, ev, c) == [op];
    }
  }

  /** Handling an event is a run of attachments, fills and releases. */
  lemma HandleJournaled(e: Engine, ev: ExecutionEvent, count: bool, c: Clock)
    requires PendingDeferrable(e)
    ensures Handle(e, ev, count, c).ledger == Run(e.ledger, HandleOps(e, ev, c))
    ensures AllOwn(HandleOps(e, ev, c))
  {
    if !ev.status.Accepted? {
      PlainJournaled(e, ev, count, c);
    } else if ev.orderID != "" && ev.orderID !in e.finalized {
      AcceptJournaled(e, ev, count, c);
    }
  }

  function InputOps(e: Engine, x: Input): seq<Op>
    requires PendingDeferrable(e)
  {
    match x
    case Executed(a) => HandleOps(e, a.ev, a.clock)
    case Ticked(_, drops) => Drops(drops)
    case Booked(op) => [op]
  }

  lemma AdvanceJournaled(e: Engine, x: Input, ttls: TTLs)
    requires PendingDeferrable(e)
    ensures Advance(e, x, ttls).ledger == Run(e.ledger, InputOps(e, x))
    ensures !x.Booked? ==> AllOwn(InputOps(e, x))
  {
    hide Handle, HandleOps, Run;
    match x
    case Executed(a) => HandleJournaled(e, a.ev, true, a.clock);
    case Ticked(_, drops) => assert forall i :: 0 <= i < |Drops(drops)| ==> Drops(drops)[i] == OpUnprovision(drops[i]);
    case Booked(op) => RunOne(e.ledger, op);
  }

  /** The ledger operations of a whole run of the engine. */
  ghost function Journal(e: Engine, xs: seq<Input>, ttls: TTLs): seq<Op>
    requires Tracking(e)
    decreases |xs|
  {
    if xs == [] then []
    else
      AdvanceTracks(e, xs[0], ttls);
      InputOps(e, xs[0]) + Journal(Advance(e, xs[0], ttls), xs[1..], ttls)
  }

  lemma {:induction false} TraceJournaled(e: Engine, xs: seq<Input>, ttls: TTLs)
    requires Tracking(e)
    ensures Trace(e, xs, ttls).ledger == Run(e.ledger, Journal(e, xs, ttls))
    decreases |xs|
  {
    if xs == [] {
    } else {
      AdvanceTracks(e, xs[0], ttls);
      AdvanceJournaled(e, xs[0], ttls);
      hide Advance, InputOps, Run;
      TraceJournaled(Advance(e, xs[0], ttls), xs[1..], ttls);
      RunConcat(e.ledger, InputOps(e, xs[0]), Journal(Advance(e, xs[0], ttls), xs[1..], ttls));
    }
  }

  // ---------------------------------------------------------------- the books of the engine

  /** Operations booked from outside are admissible for pool `p` when they happen. */
  ghost predicate BookedAdmissible(e: Engine, xs: seq<Input>, ttls: TTLs, p: Pool)
    requires Tracking(e)
    decreases |xs|
  {
    xs != [] ==>
      && (xs[0].Booked? ==> Admissible(e.ledger, xs[0].op, p))
      && (AdvanceTracks(e, xs[0], ttls); BookedAdmissible(Advance(e, xs[0], ttls), xs[1..], ttls, p))
  }

  lemma {:induction false} AdmissibleConcat(l: Ledger, a: seq<Op>, b: seq<Op>, p: Pool)
    requires AdmissibleRun(l, a, p) && AdmissibleRun(Run(l, a), b, p)
    ensures AdmissibleRun(l, a + b, p)
    decreases |a|
  {
    hide Admissible, Step;
    if a == [] {
      assert a + b == b;
    } else {
      assert (a + b)[1..] == a[1..] + b;
      AdmissibleConcat(Step(l, a[0]), a[1..], b, p);
    }
  }

  lemma {:induction false} OwnAdmissible(l: Ledger, ops: seq<Op>, p: Pool)
    requires AllOwn(ops)
    ensures AdmissibleRun(l, ops, p)
    decreases |ops|
  {
    if ops == [] {
    } else {
      assert Own(ops[0]);
      hide Step;
      OwnAdmissible(Step(l, ops[0]), ops[1..], p);
    }
  }

  lemma {:induction false} JournalAdmissible(e: Engine, xs: seq<Input>, ttls: TTLs, p: Pool)
    requires Tracking(e) && BookedAdmissible(e, xs, ttls, p)
    ensures AdmissibleRun(e.ledger, Journal(e, xs, ttls), p)
    decreases |xs|
  {
    if xs == [] {
    } else {
      AdvanceTracks(e, xs[0], ttls);
      AdvanceJournaled(e, xs[0], ttls);
      var ops := InputOps(e, xs[0]);
      if xs[0].Booked? {
        assert ops == [xs[0].op] && ops[1..] == [];
        assert AdmissibleRun(e.ledger, ops, p);
      } else {
        OwnAdmissible(e.ledger, ops, p);
      }
      hide Advance, InputOps, Run, AdmissibleRun, Admissible;
      JournalAdmissible(Advance(e, xs[0], ttls), xs[1..], ttls, p);
      AdmissibleConcat(e.ledger, ops, Journal(Advance(e, xs[0], ttls), xs[1..], ttls), p);
    }
  }

  /** Reserve invariant and conservation over every run of the engine: events, ticks and operations
      booked from outside, as long as the latter are admissible. */
  lemma TraceAccounted(e: Engine, xs: seq<Input>, ttls: TTLs, p: Pool)
    requires Tracking(e) && Balanced(e.ledger, p) && BookedAdmissible(e, xs, ttls, p)
    ensures var l, ops := Trace(e, xs, ttls).ledger, Journal(e, xs, ttls);
            && Balanced(l, p)
            && Residue(l, p) == Residue(e.ledger, p) + TotalLeftover(e.ledger, ops, p) - TotalWiped(e.ledger, ops, p)
            && Total(l, p) == Total(e.ledger, p) + TotalFlow(e.ledger, ops, p)
  {
    hide Balanced, Residue, Total, Run, Trace, Journal;
    TraceJournaled(e, xs, ttls);
    JournalAdmissible(e, xs, ttls, p);
    RunAccounted(e.ledger, Journal(e, xs, ttls), p);
  }

  // ---------------------------------------------------------------- solvency of the engine

  ghost predicate BookedChecked(e: Engine, xs: seq<Input>, ttls: TTLs)
    requires Tracking(e)
    decreases |xs|
  {
    xs != [] ==>
      && (xs[0].Booked? ==> S.Checked(e.ledger, xs[0].op) && S.SaneCorrection(xs[0].op))
      && (AdvanceTracks(e, xs[0], ttls); BookedChecked(Advance(e, xs[0], ttls), xs[1..], ttls))
  }

  lemma {:induction false} OwnChecked(l: Ledger, ops: seq<Op>)
    requires AllOwn(ops)
    ensures S.CheckedRun(l, ops)
    decreases |ops|
  {
    if ops == [] {
    } else {
      assert Own(ops[0]);
      hide Step;
      OwnChecked(Step(l, ops[0]), ops[1..]);
    }
  }

  /** No pool is overdrawn by more than one EPS in any run of the engine whose operations booked from
      outside check affordability. */
  lemma {:induction false} TraceSolvent(e: Engine, xs: seq<Input>, ttls: TTLs)
    requires Tracking(e) && S.Priced(e.ledger) && S.Solvent(e.ledger) && BookedChecked(e, xs, ttls)
    ensures S.Priced(Trace(e, xs, ttls).ledger) && S.Solvent(Trace(e, xs, ttls).ledger)
    decreases |xs|
  {
    if xs == [] {
    } else {
      AdvanceTracks(e, xs[0], ttls);
      AdvanceJournaled(e, xs[0], ttls);
      var ops := InputOps(e, xs[0]);
      if xs[0].Booked? {
        assert ops == [xs[0].op] && ops[1..] == [];
        assert S.CheckedRun(e.ledger, ops);
      } else {
        OwnChecked(e.ledger, ops);
      }
      hide Advance, InputOps, Run, S.CheckedRun, S.Checked, S.Priced, S.Solvent;
      S.RunSolvent(e.ledger, ops);
      TraceSolvent(Advance(e, xs[0], ttls), xs[1..], ttls);
    }
  }
}
