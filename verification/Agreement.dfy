/**
 Tracker and ledger count the same fills. Every event the tracker publishes is fed to the engine;
 for an order both know, the open size of the reservation is the requested size less what the
 tracker has counted, and the reservation disappears on exactly the fill that completes the order.
 */
module Agreement {
  import opened Core
  import opened Ledgers
  import opened Engines
  import opened Reconcile
  import T = Trackers

  datatype System = System(book: T.Book, engine: Engine)

  /** One touch: the tracker's event, if any, goes straight to the engine. */
  function Deliver(s: System, x: T.Touch, c: Clock): System
    requires PendingDeferrable(s.engine)
  {
    var r := T.Apply(T.At(s.book, x.id), x);
    System(s.book[x.id := r.order], if r.out == [] then s.engine else Handle(s.engine, r.out[0], true, c))
  }

  /** An order known to both sides. */
  datatype Deal = Deal(id: string, marketID: string, tokenID: string, side: Side, size: real)

  /** Tracker and ledger agree on order `d`: while the tracker counts fills the ledger reserves what
      is open, and afterwards neither ledger nor engine knows the order as a live one. */
  ghost predicate Agree(s: System, d: Deal) {
    var t := T.At(s.book, d.id);
    && Tracking(s.engine) && d.id != "" && Tradable(d.side)
    && t.requested == d.size > 0.0 && t.filled >= 0.0
    && t.marketID == d.marketID && t.tokenID == d.tokenID && t.side == d.side
    && (t.finalized ==>
          d.id !in s.engine.ledger.orders && d.id !in s.engine.accepted && d.id !in s.engine.pending)
    && (!t.finalized ==> d.id in s.engine.accepted && Reserves(s.engine.ledger, d, NonNeg(d.size - t.filled)))
  }

  /** The ledger reserves `open` of order `d`. */
  predicate Reserves(l: Ledger, d: Deal, open: real) {
    && d.id in l.orders
    && l.orders[d.id].terms.marketID == d.marketID && l.orders[d.id].terms.tokenID == d.tokenID
    && l.orders[d.id].terms.side == d.side && l.orders[d.id].terms.size == open
  }

  /** Messages about `d` repeat its terms, and neither cancel it nor fail a trade of it. */
  predicate Compatible(d: Deal, x: T.Touch) {
    x.id == d.id ==>
      && (x.detail.marketID == "" || x.detail.marketID == d.marketID)
      && (x.detail.tokenID == "" || x.detail.tokenID == d.tokenID)
      && x.detail.side == d.side
      && match x
         case FillTouch(_, _, _, status) => !status.Failed?
         case OrderTouch(_, detail, status) => !status.Canceled? && (detail.size <= 0.0 || detail.size == d.size)
         case Posted(_, _, detail) => detail.size <= 0.0 || detail.size == d.size
  }

  // ---------------------------------------------------------------- events of the order itself

  lemma OpenAfterFill(size: real, filled: real, delta: real)
    requires delta > 0.0
    ensures NonNeg(NonNeg(size - filled) - delta) == NonNeg(size - (filled + delta))
    ensures NonNeg(size - (filled + delta)) <= EPS <==> filled + delta + EPS >= size
  {
  }

  /** The ledger takes the fill, and drops the reservation exactly if what is left is within EPS. */
  lemma FillTaken(l: Ledger, d: Deal, open: real, ev: ExecutionEvent, today: string)
    requires Reserves(l, d, open) && d.id != "" && Tradable(d.side)
    requires ev.orderID == d.id && ev.marketID == d.marketID && ev.tokenID == d.tokenID && ev.side == d.side
    requires ev.filledSize > 0.0
    ensures var r := ApplyFill(l, EventFill(ev), today);
            && r.outcome.Done?
            && (d.id in r.ledger.orders <==> NonNeg(open - ev.filledSize) > EPS)
            && (d.id in r.ledger.orders ==> Reserves(r.ledger, d, NonNeg(open - ev.filledSize)))
  {
  }

  lemma FillHandled(e: Engine, d: Deal, open: real, ev: ExecutionEvent, c: Clock)
    requires Tracking(e) && d.id in e.accepted && Reserves(e.ledger, d, open) && d.id != "" && Tradable(d.side)
    requires ev.orderID == d.id && ev.marketID == d.marketID && ev.tokenID == d.tokenID && ev.side == d.side
    requires ev.filledSize > 0.0
    requires ev.IsFill() && (ev.status.Filled? <==> NonNeg(open - ev.filledSize) <= EPS)
    ensures var e' := Handle(e, ev, true, c);
            && Tracking(e')
            && (ev.status.Filled? ==> d.id !in e'.ledger.orders && d.id in e'.finalized)
            && (!ev.status.Filled? ==> d.id in e'.accepted && Reserves(e'.ledger, d, NonNeg(open - ev.filledSize)))
  {
    HandleTracks(e, ev, true, c);
    FillTaken(e.ledger, d, open, ev, c.today);
    assert d.id !in e.finalized;
    hide ApplyFill, Tracking;
  }

  /** A further acceptance finds the reservation in place. */
  lemma AcceptHandled(e: Engine, d: Deal, ev: ExecutionEvent, c: Clock)
    requires Tracking(e) && d.id != "" && ev.orderID == d.id && ev.status.Accepted?
    requires d.id in e.finalized || (d.id in e.accepted && d.id in e.ledger.orders)
    ensures var e' := Handle(e, ev, true, c);
            && Tracking(e') && (d.id in e'.accepted <==> d.id in e.accepted)
            && (d.id in e'.finalized <==> d.id in e.finalized)
            && (d.id in e'.ledger.orders <==> d.id in e.ledger.orders)
            && (d.id in e.ledger.orders ==> e'.ledger.orders[d.id] == e.ledger.orders[d.id])
  {
    HandleTracks(e, ev, true, c);
    if d.id !in e.finalized {
      var l' := Attach(e.ledger, ev.parentOrderID, d.id, EventTerms(ev)).ledger;
      assert l'.orders == e.ledger.orders;
    }
  }

  /** An acceptance announced for a completed order after the engine has forgotten it: a late
      response to the post, or a first LIVE message, once the finalized entry has expired. */
  predicate Reopens(s: System, d: Deal, x: T.Touch) {
    var t := T.At(s.book, d.id);
    x.id == d.id && t.finalized && d.id !in s.engine.finalized && T.Apply(t, x).out != []
  }

  lemma OpenTouchAgrees(s: System, d: Deal, x: T.Touch, c: Clock)
    requires Agree(s, d) && x.id == d.id && Compatible(d, x) && !T.At(s.book, d.id).finalized
    ensures Agree(Deliver(s, x, c), d)
  {
    var t := T.At(s.book, d.id);
    var r := T.Apply(t, x);
    if r.out != [] {
      var ev := r.out[0];
      if ev.status.Accepted? {
        AcceptHandled(s.engine, d, ev, c);
      } else {
        assert ev.IsFill() && r.order.filled == t.filled + ev.filledSize;
        OpenAfterFill(d.size, t.filled, ev.filledSize);
        FillHandled(s.engine, d, NonNeg(d.size - t.filled), ev, c);
        if ev.status.Filled? { TrackingParts(Handle(s.engine, ev, true, c), d.id); }
      }
    }
    hide Handle, Tracking;
  }

  lemma TrackingParts(e: Engine, id: string)
    requires Tracking(e) && id in e.finalized
    ensures id !in e.accepted && id !in e.pending
  {
  }

  /** A touch of a completed order announces an acceptance or nothing. */
  lemma DoneTouch(t: T.Tracked, d: Deal, x: T.Touch)
    requires t.finalized && x.id == d.id && Compatible(d, x)
    requires t.requested == d.size && t.marketID == d.marketID && t.tokenID == d.tokenID && t.side == d.side
    ensures var r := T.Apply(t, x);
            && r.order.finalized && r.order.requested == d.size && r.order.filled == t.filled
            && r.order.marketID == d.marketID && r.order.tokenID == d.tokenID && r.order.side == d.side
            && (r.out != [] ==> r.out[0].orderID == d.id && r.out[0].status.Accepted?)
  {
  }

  /** The engine ignores an acceptance of a finalized order and takes up any other. */
  lemma LateAcceptanceHandled(e: Engine, id: string, ev: ExecutionEvent, c: Clock)
    requires Tracking(e) && id != "" && ev.orderID == id && ev.status.Accepted? && id !in e.pending && id !in e.accepted
    ensures var e' := Handle(e, ev, true, c);
            && Tracking(e') && (id in e'.accepted <==> id !in e.finalized)
            && (id in e.finalized ==> e'.ledger == e.ledger && id !in e'.pending)
            && (id !in e.finalized ==> e'.ledger == Attach(e.ledger, ev.parentOrderID, id, EventTerms(ev)).ledger)
  {
    HandleTracks(e, ev, true, c);
    hide Attach;
  }

  lemma DoneTouchAgrees(s: System, d: Deal, x: T.Touch, c: Clock)
    requires Agree(s, d) && x.id == d.id && Compatible(d, x) && T.At(s.book, d.id).finalized
    ensures Agree(Deliver(s, x, c), d) <==> !Reopens(s, d, x)
  {
    var t := T.At(s.book, d.id);
    var r := T.Apply(t, x);
    DoneTouch(t, d, x);
    hide T.Apply;
    if r.out != [] { LateAcceptanceHandled(s.engine, d.id, r.out[0], c); }
    hide Handle, Tracking;
  }

  /** A message about the order keeps the agreement exactly if it does not reopen it. */
  lemma TouchAgrees(s: System, d: Deal, x: T.Touch, c: Clock)
    requires Agree(s, d) && x.id == d.id && Compatible(d, x)
    ensures Agree(Deliver(s, x, c), d) <==> !Reopens(s, d, x)
  {
    hide Agree, Deliver, Compatible;
    if T.At(s.book, d.id).finalized {
      DoneTouchAgrees(s, d, x, c);
    } else {
      OpenTouchAgrees(s, d, x, c);
    }
  }

  /** An instance: the response to the post of a completed order comes after its entry has expired,
      and the ledger reserves for it again. */
  lemma PostAfterExpiryReopens(c: Clock)
    ensures var d := Deal("o", "m", "t", BUY, 2.0);
            var l := Ledger(Balance(9.0, 0.0, 0.0), map[], map[], map[], 0.0, "");
            var s := System(map["o" := T.Tracked("m", "t", BUY, 0.5, 2.0, 2.0, true, true, {})],
                            Engine(l, {}, {}, map[], map[], Counters(0, 0, 0, 0, 0, 0)));
            var x := T.Posted("o", "i", T.Detail("m", "t", BUY, 0.5, 2.0));
            && Agree(s, d) && Compatible(d, x)
            && "o" in Deliver(s, x, c).engine.ledger.orders && !Agree(Deliver(s, x, c), d)
  {
    var l := Ledger(Balance(9.0, 0.0, 0.0), map[], map[], map[], 0.0, "");
    var e := Engine(l, {}, {}, map[], map[], Counters(0, 0, 0, 0, 0, 0));
    var ev := ExecutionEvent("o", "i", "m", "t", 0.5, BUY, 2.0, 0.0, Accepted, "");
    assert "o" in Attach(l, "i", "o", EventTerms(ev)).ledger.orders;
    LateAcceptanceHandled(e, "o", ev, c);
  }

  /** Every published fill is taken by the ledger, and FILLED is published on exactly the fill that
      deletes the reservation. */
  lemma FilledDeletesReservation(s: System, d: Deal, x: T.Touch, c: Clock)
    requires Agree(s, d) && x.id == d.id && Compatible(d, x)
    ensures var r := T.Apply(T.At(s.book, d.id), x);
            r.out != [] && r.out[0].IsFill() ==>
              && ApplyFill(s.engine.ledger, EventFill(r.out[0]), c.today).outcome.Done?
              && d.id in s.engine.ledger.orders
              && (r.out[0].status.Filled? <==>
                  d.id !in ApplyFill(s.engine.ledger, EventFill(r.out[0]), c.today).ledger.orders)
              && (r.out[0].status.Filled? <==> d.id !in Deliver(s, x, c).engine.ledger.orders)
  {
    var t := T.At(s.book, d.id);
    var r := T.Apply(t, x);
    if r.out != [] && r.out[0].IsFill() {
      var ev := r.out[0];
      assert !t.finalized && r.order.filled == t.filled + ev.filledSize;
      OpenAfterFill(d.size, t.filled, ev.filledSize);
      FillTaken(s.engine.ledger, d, NonNeg(d.size - t.filled), ev, c.today);
      FillHandled(s.engine, d, NonNeg(d.size - t.filled), ev, c);
    }
    hide Handle, ApplyFill;
  }

  // ---------------------------------------------------------------- events of other orders

  /** The engine looks the same from order `id`. */
  predicate SameFor(a: Engine, b: Engine, id: string) {
    && (id in a.accepted <==> id in b.accepted) && (id in a.finalized <==> id in b.finalized)
    && (id in a.pending <==> id in b.pending)
    && SameOrder(a.ledger, b.ledger, id)
  }

  predicate SameOrder(a: Ledger, b: Ledger, id: string) {
    (id in a.orders <==> id in b.orders) && (id in a.orders ==> a.orders[id] == b.orders[id])
  }

  lemma FillElsewhere(l: Ledger, f: Fill, today: string, id: string)
    requires f.orderID != id
    ensures SameOrder(l, ApplyFill(l, f, today).ledger, id)
  {
  }

  lemma CloseElsewhere(e: Engine, other: string, now: int, id: string)
    requires other != id
    ensures SameFor(e, Close(e, other, now), id)
  {
  }

  lemma BufferElsewhere(e: Engine, ev: ExecutionEvent, now: int, id: string)
    requires ev.orderID != id
    ensures SameFor(e, Buffer(e, ev, now), id)
  {
  }

  lemma HandleFillElsewhere(e: Engine, ev: ExecutionEvent, c: Clock, id: string)
    requires ev.orderID != id
    ensures SameFor(e, HandleFill(e, ev, c), id)
  {
    hide ApplyFill, Close, Buffer;
    FillElsewhere(e.ledger, EventFill(ev), c.today, id);
    BufferElsewhere(e, ev, c.now, id);
    var e1 := e.(counters := e.counters.(filled := e.counters.filled + 1));
    var r := if ev.filledSize > 0.0 then ApplyFill(e.ledger, EventFill(ev), c.today) else Result(e.ledger, Done);
    CloseElsewhere(e1.(ledger := r.ledger), ev.orderID, c.now, id);
  }

  lemma RejectElsewhere(e: Engine, ev: ExecutionEvent, now: int, id: string)
    requires ev.orderID != id
    ensures SameFor(e, HandleReject(e, ev, now), id)
  {
    hide Close;
    CloseElsewhere(e.(counters := e.counters.(rejected := e.counters.rejected + 1),
                      ledger := DropProvisional(e.ledger, ev.parentOrderID)), ev.orderID, now, id);
  }

  lemma PlainElsewhere(e: Engine, ev: ExecutionEvent, count: bool, c: Clock, id: string)
    requires PendingDeferrable(e) && ev.orderID != id && !ev.status.Accepted?
    ensures SameFor(e, Handle(e, ev, count, c), id)
  {
    hide Close, HandleFill, HandleReject, Buffer;
    var e0 := if count then e.(counters := e.counters.(events := e.counters.events + 1)) else e;
    CloseElsewhere(e0, ev.orderID, c.now, id);
    HandleFillElsewhere(e0, ev, c, id);
    BufferElsewhere(e0, ev, c.now, id);
    RejectElsewhere(e0, ev, c.now, id);
  }

  lemma {:induction false} ReplayElsewhere(e: Engine, evs: seq<ExecutionEvent>, c: Clock, id: string)
    requires PendingDeferrable(e) && forall i :: 0 <= i < |evs| ==> Deferrable(evs[i]) && evs[i].orderID != id
    ensures SameFor(e, Replay(e, evs, c), id)
    decreases |evs|
  {
    hide Handle;
    if evs == [] {
    } else {
      PlainElsewhere(e, evs[0], false, c, id);
      ReplayElsewhere(Handle(e, evs[0], false, c), evs[1..], c, id);
    }
  }

  lemma HandleElsewhere(e: Engine, ev: ExecutionEvent, count: bool, c: Clock, id: string)
    requires Tracking(e) && ev.orderID != id
    ensures SameFor(e, Handle(e, ev, count, c), id)
  {
    if !ev.status.Accepted? {
      PlainElsewhere(e, ev, count, c, id);
    } else if ev.orderID != "" && ev.orderID !in e.finalized {
      assert SameOrder(e.ledger, Attach(e.ledger, ev.parentOrderID, ev.orderID, EventTerms(ev)).ledger, id);
      hide Attach;
      var e1 := Accept(if count then e.(counters := e.counters.(events := e.counters.events + 1)) else e, ev);
      if ev.orderID in e.pending {
        ReplayElsewhere(e1.(pending := e1.pending - {ev.orderID}), e1.pending[ev.orderID].events, c, id);
      }
    }
  }

  // ---------------------------------------------------------------- other steps

  /** Ledger operations about order `id`, and restores, which are about every order. */
  predicate Names(op: Op, id: string) {
    match op
    case OpConfirm(_, orderID) => orderID == id
    case OpAttach(_, orderID, _) => orderID == id
    case OpAttachExternal(orderID, _) => orderID == id
    case OpEvict(orderID) => orderID == id
    case OpFill(f, _) => f.orderID == id
    case OpMergeOrder(other, _) => other == id
    case OpLoadOrder(o) => o.orderID == id
    case OpReset(_, _) => true
    case _ => false
  }

  lemma StepElsewhere(l: Ledger, op: Op, id: string)
    requires !Names(op, id)
    ensures SameOrder(l, Step(l, op), id)
  {
    hide Hold, Unhold, BookFill, Affordable, AfterFill, FillOutcome, Aligned, MatchPosition, OnchainAvailable,
        ValidateTerms;
  }

  lemma TickElsewhere(e: Engine, now: int, ttls: TTLs, drops: seq<string>, id: string)
    ensures var e' := Tick(e, now, ttls, drops);
            && e'.accepted == e.accepted && e'.pending.Keys <= e.pending.Keys && e'.ledger.orders == e.ledger.orders
            && (id in e'.finalized ==> id in e.finalized)
            && (id in e.finalized && id in e.finalizedAt && now - e.finalizedAt[id] < ttls.finalized ==>
                id in e'.finalized)
  {
    DropsEffect(e.ledger, drops);
    hide Run;
  }

  // ---------------------------------------------------------------- runs

  /** Messages to the tracker, and everything else that reaches the engine: events published by
      others, cleanup ticks and ledger operations made elsewhere. */
  datatype Input = Message(touch: T.Touch, clock: Clock) | Other(step: Engines.Input)

  function Take(s: System, x: Input, ttls: TTLs): System
    requires PendingDeferrable(s.engine)
  {
    match x
    case Message(touch, c) => Deliver(s, touch, c)
    case Other(y) => s.(engine := Advance(s.engine, y, ttls))
  }

  /** Messages about `d` are compatible; other events and ledger operations are not about `d`. */
  predicate Fits(d: Deal, x: Input) {
    match x
    case Message(touch, _) => Compatible(d, touch)
    case Other(Executed(a)) => a.ev.orderID != d.id
    case Other(Ticked(_, _)) => true
    case Other(Booked(op)) => !Names(op, d.id)
  }

  predicate StaysClosed(s: System, d: Deal, x: Input) {
    x.Message? ==> !Reopens(s, d, x.touch)
  }

  lemma OtherAgrees(s: System, d: Deal, y: Engines.Input, ttls: TTLs)
    requires Agree(s, d) && Fits(d, Other(y))
    ensures Agree(Take(s, Other(y), ttls), d)
  {
    AdvanceTracks(s.engine, y, ttls);
    match y {
      case Executed(a) => HandleElsewhere(s.engine, a.ev, true, a.clock, d.id);
      case Ticked(now, drops) => TickElsewhere(s.engine, now, ttls, drops, d.id);
      case Booked(op) => StepElsewhere(s.engine.ledger, op, d.id);
    }
    hide Handle, Tracking, Tick, Step, Names;
  }

  lemma MessageElsewhereAgrees(s: System, d: Deal, x: T.Touch, c: Clock)
    requires Agree(s, d) && x.id != d.id
    ensures Agree(Deliver(s, x, c), d)
  {
    var r := T.Apply(T.At(s.book, x.id), x);
    T.ApplyEnds(T.At(s.book, x.id), x);
    hide T.Apply;
    if r.out != [] {
      HandleTracks(s.engine, r.out[0], true, c);
      HandleElsewhere(s.engine, r.out[0], true, c, d.id);
    }
    hide Handle, Tracking;
  }

  lemma TakeAgrees(s: System, d: Deal, x: Input, ttls: TTLs)
    requires Agree(s, d) && Fits(d, x)
    ensures Agree(Take(s, x, ttls), d) <==> StaysClosed(s, d, x)
  {
    match x
    case Message(touch, c) =>
      if touch.id == d.id {
        TouchAgrees(s, d, touch, c);
      } else {
        MessageElsewhereAgrees(s, d, touch, c);
      }
      hide Deliver, Agree;
    case Other(y) => OtherAgrees(s, d, y, ttls);
  }

  lemma TakeTracks(s: System, x: Input, ttls: TTLs)
    requires Tracking(s.engine)
    ensures Tracking(Take(s, x, ttls).engine)
  {
    match x
    case Message(touch, c) =>
      var r := T.Apply(T.At(s.book, touch.id), touch);
      if r.out != [] { HandleTracks(s.engine, r.out[0], true, c); }
    case Other(y) => AdvanceTracks(s.engine, y, ttls);
  }

  ghost function TakeAll(s: System, xs: seq<Input>, ttls: TTLs): (r: System)
    requires Tracking(s.engine)
    ensures Tracking(r.engine)
    decreases |xs|
  {
    if xs == [] then s
    else
      TakeTracks(s, xs[0], ttls);
      TakeAll(Take(s, xs[0], ttls), xs[1..], ttls)
  }

  /** No message of the run reopens the order. */
  ghost predicate NeverReopens(s: System, d: Deal, xs: seq<Input>, ttls: TTLs)
    requires Tracking(s.engine)
    decreases |xs|
  {
    xs != [] ==>
      && StaysClosed(s, d, xs[0])
      && (TakeTracks(s, xs[0], ttls); NeverReopens(Take(s, xs[0], ttls), d, xs[1..], ttls))
  }

  ghost predicate AgreeThroughout(s: System, d: Deal, xs: seq<Input>, ttls: TTLs)
    requires Tracking(s.engine)
    decreases |xs|
  {
    && Agree(s, d)
    && (xs != [] ==> (TakeTracks(s, xs[0], ttls); AgreeThroughout(Take(s, xs[0], ttls), d, xs[1..], ttls)))
  }

  ghost predicate AllFit(d: Deal, xs: seq<Input>) {
    forall i :: 0 <= i < |xs| ==> Fits(d, xs[i])
  }

  /** Over every run in which the order is neither cancelled, failed nor reconciled, whatever else
      happens: tracker and ledger agree at every point if and only if no message reopens the order. */
  lemma {:induction false} AgreeThroughoutIff(s: System, d: Deal, xs: seq<Input>, ttls: TTLs)
    requires Agree(s, d) && AllFit(d, xs)
    ensures AgreeThroughout(s, d, xs, ttls) <==> NeverReopens(s, d, xs, ttls)
    decreases |xs|
  {
    if xs == [] {
    } else {
      TakeAgrees(s, d, xs[0], ttls);
      TakeTracks(s, xs[0], ttls);
      hide Take, Tracking, StaysClosed, Fits;
      if StaysClosed(s, d, xs[0]) {
        hide Agree;
        AgreeThroughoutIff(Take(s, xs[0], ttls), d, xs[1..], ttls);
      } else {
        assert !AgreeThroughout(Take(s, xs[0], ttls), d, xs[1..], ttls);
      }
    }
  }

  lemma {:induction false} RunKeepsAgree(s: System, d: Deal, xs: seq<Input>, ttls: TTLs)
    requires Agree(s, d) && AllFit(d, xs) && NeverReopens(s, d, xs, ttls)
    ensures Agree(TakeAll(s, xs, ttls), d)
    decreases |xs|
  {
    if xs == [] {
    } else {
      TakeAgrees(s, d, xs[0], ttls);
      TakeTracks(s, xs[0], ttls);
      hide Take, Tracking, Agree, Fits;
      RunKeepsAgree(Take(s, xs[0], ttls), d, xs[1..], ttls);
    }
  }

  /** And then the open size is the requested size less the tracked fills, and the reservation exists
      exactly while the tracker is not done. */
  lemma RunAgrees(s: System, d: Deal, xs: seq<Input>, ttls: TTLs)
    requires Agree(s, d) && AllFit(d, xs) && NeverReopens(s, d, xs, ttls)
    ensures var r := TakeAll(s, xs, ttls);
            var t := T.At(r.book, d.id);
            && Agree(r, d)
            && (d.id in r.engine.ledger.orders <==> !t.finalized)
            && (!t.finalized ==> r.engine.ledger.orders[d.id].terms.size == NonNeg(d.size - t.filled))
  {
    hide TakeAll, NeverReopens, AllFit;
    RunKeepsAgree(s, d, xs, ttls);
  }

  // ---------------------------------------------------------------- until the entry expires

  /** A completed order still has its finalized entry. */
  predicate Remembered(s: System, d: Deal) {
    T.At(s.book, d.id).finalized ==> d.id in s.engine.finalized
  }

  /** Cleanup ticks of the run come before the entry of the completed order expires. */
  ghost predicate TimelyRun(s: System, d: Deal, xs: seq<Input>, ttls: TTLs)
    requires Tracking(s.engine)
    decreases |xs|
  {
    xs != [] ==>
      && (xs[0].Other? && xs[0].step.Ticked? && T.At(s.book, d.id).finalized && d.id in s.engine.finalizedAt ==>
            xs[0].step.now - s.engine.finalizedAt[d.id] < ttls.finalized)
      && (TakeTracks(s, xs[0], ttls); TimelyRun(Take(s, xs[0], ttls), d, xs[1..], ttls))
  }

  lemma TakeRemembers(s: System, d: Deal, x: Input, ttls: TTLs)
    requires Agree(s, d) && Fits(d, x) && Remembered(s, d)
    requires x.Other? && x.step.Ticked? && T.At(s.book, d.id).finalized && d.id in s.engine.finalizedAt ==>
               x.step.now - s.engine.finalizedAt[d.id] < ttls.finalized
    ensures Remembered(Take(s, x, ttls), d)
  {
    match x
    case Message(touch, c) => MessageRemembers(s, d, touch, c);
    case Other(y) =>
      if T.At(s.book, d.id).finalized {
        AdvanceKeepsFinalized(s.engine, y, ttls, d.id);
      }
      hide Advance;
  }

  lemma MessageRemembers(s: System, d: Deal, x: T.Touch, c: Clock)
    requires Agree(s, d) && Compatible(d, x) && Remembered(s, d)
    ensures Remembered(Deliver(s, x, c), d)
  {
    var t, r := T.At(s.book, x.id), T.Apply(T.At(s.book, x.id), x);
    T.ApplyEnds(t, x);
    if r.out != [] {
      var ev := r.out[0];
      var e' := Handle(s.engine, ev, true, c);
      if T.At(s.book, d.id).finalized {
        AdvanceKeepsFinalized(s.engine, Executed(Arrival(ev, c)), TTLs(0, 0), d.id);
      } else if x.id == d.id && r.order.finalized {
        assert ev.status.Filled? && r.order.filled == t.filled + ev.filledSize;
        OpenAfterFill(d.size, t.filled, ev.filledSize);
        FillHandled(s.engine, d, NonNeg(d.size - t.filled), ev, c);
      }
    }
    hide Handle, Tracking, T.Apply;
  }

  /** Within the lifetime of its finalized entry no order is ever reopened. */
  lemma {:induction false} TimelyNeverReopens(s: System, d: Deal, xs: seq<Input>, ttls: TTLs)
    requires Agree(s, d) && Remembered(s, d) && AllFit(d, xs) && TimelyRun(s, d, xs, ttls)
    ensures NeverReopens(s, d, xs, ttls)
    decreases |xs|
  {
    if xs == [] {
    } else {
      assert StaysClosed(s, d, xs[0]);
      TakeAgrees(s, d, xs[0], ttls);
      TakeRemembers(s, d, xs[0], ttls);
      TakeTracks(s, xs[0], ttls);
      hide Take, Tracking, Agree, Fits, Remembered, StaysClosed;
      TimelyNeverReopens(Take(s, xs[0], ttls), d, xs[1..], ttls);
    }
  }

  // ---------------------------------------------------------------- from delivery to ledger

  const NEW_TRACKER := T.Tracker(map[], [])

  /** The tracker messages of a run. */
  function TouchesIn(xs: seq<Input>): seq<T.Touch> {
    if xs == [] then [] else TouchOf(xs[0]) + TouchesIn(xs[1..])
  }

  function TouchOf(x: Input): seq<T.Touch> {
    if x.Message? then [x.touch] else []
  }

  lemma TrackerFollowsOne(s: System, x: Input, before: seq<T.Touch>, ttls: TTLs)
    requires Tracking(s.engine) && s.book == T.Run(NEW_TRACKER, before).book
    ensures Take(s, x, ttls).book == T.Run(NEW_TRACKER, before + TouchOf(x)).book
  {
    hide Handle, Advance, T.Apply;
    if x.Message? {
      assert (before + [x.touch])[..|before|] == before;
    } else {
      assert before + [] == before;
    }
  }

  lemma {:induction false} TrackerFollows(s: System, xs: seq<Input>, before: seq<T.Touch>, ttls: TTLs)
    requires Tracking(s.engine) && s.book == T.Run(NEW_TRACKER, before).book
    ensures TakeAll(s, xs, ttls).book == T.Run(NEW_TRACKER, before + TouchesIn(xs)).book
    decreases |xs|
  {
    hide T.Run, Take;
    if xs == [] {
      assert before + TouchesIn(xs) == before;
    } else {
      TakeTracks(s, xs[0], ttls);
      TrackerFollowsOne(s, xs[0], before, ttls);
      TrackerFollows(Take(s, xs[0], ttls), xs[1..], before + TouchOf(xs[0]), ttls);
      assert before + TouchOf(xs[0]) + TouchesIn(xs[1..]) == before + TouchesIn(xs);
    }
  }

  /** The tracker is done with the order exactly if fills have reached its size up to EPS. */
  predicate Complete(t: T.Tracked, size: real) {
    t.finalized <==> t.filled > 0.0 && t.filled + EPS >= size
  }

  lemma TouchKeepsComplete(t: T.Tracked, d: Deal, x: T.Touch)
    requires x.id == d.id && Compatible(d, x) && t.requested == d.size > 0.0 && t.filled >= 0.0 && Complete(t, d.size)
    ensures Complete(T.Apply(t, x).order, d.size)
  {
  }

  lemma {:induction false} RunKeepsComplete(s: System, d: Deal, xs: seq<Input>, ttls: TTLs)
    requires Agree(s, d) && AllFit(d, xs) && NeverReopens(s, d, xs, ttls)
    requires Complete(T.At(s.book, d.id), d.size)
    ensures Complete(T.At(TakeAll(s, xs, ttls).book, d.id), d.size)
    decreases |xs|
  {
    if xs == [] {
    } else {
      TakeAgrees(s, d, xs[0], ttls);
      TakeTracks(s, xs[0], ttls);
      if xs[0].Message? && xs[0].touch.id == d.id { TouchKeepsComplete(T.At(s.book, d.id), d, xs[0].touch); }
      hide Handle, Advance, Tracking, T.Apply, Complete, Reopens, Compatible;
      RunKeepsComplete(Take(s, xs[0], ttls), d, xs[1..], ttls);
    }
  }

  /** End to end, despite repeated delivery: the ledger holds the order open for its size less the sum
      of the first deliveries of its MINED fills, and drops it exactly when that sum reaches the size
      up to EPS. */
  lemma DeliveredFillsReachLedger(s: System, d: Deal, before: seq<T.Touch>, xs: seq<Input>, ttls: TTLs)
    requires Agree(s, d) && AllFit(d, xs) && NeverReopens(s, d, xs, ttls)
    requires s.book == T.Run(NEW_TRACKER, before).book && Complete(T.At(s.book, d.id), d.size)
    ensures var l := TakeAll(s, xs, ttls).engine.ledger;
            var sum := T.Deserved(T.Attempts(NEW_TRACKER, before + TouchesIn(xs), d.id));
            && (d.id in l.orders <==> !(sum > 0.0 && sum + EPS >= d.size))
            && (d.id in l.orders ==> l.orders[d.id].terms.size == NonNeg(d.size - sum))
  {
    hide T.Run, T.Attempts, T.Deserved, T.Published, T.SeenIs, TakeAll, NeverReopens, AllFit, Reserves, Tracking;
    RunAgrees(s, d, xs, ttls);
    RunKeepsComplete(s, d, xs, ttls);
    TrackerFollows(s, xs, before, ttls);
    T.ExactlyOnce(before + TouchesIn(xs), d.id);
    assert NEW_TRACKER == T.Tracker(map[], []);
  }
}
