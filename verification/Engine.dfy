/**
 The execution-event state machine: orders are accepted, filled, cancelled or rejected by events
 that may arrive twice or too early. Events that arrive before their order is accepted are kept
 and replayed on acceptance; a finalized order ignores everything until its entry expires.
 */
module Engines {
  import opened Core
  import opened Ledgers
  import opened Reconcile

  datatype Pending = Pending(events: seq<ExecutionEvent>, firstSeen: int)

  datatype Counters = Counters(events: nat, accepted: nat, filled: nat, rejected: nat, buffered: nat, expired: nat)

  datatype Engine = Engine(
    ledger: Ledger,
    accepted: set<string>,
    finalized: set<string>,
    finalizedAt: map<string, int>,
    pending: map<string, Pending>,
    counters: Counters)

  /** Only fills and cancellations are ever kept for later. */
  predicate Deferrable(ev: ExecutionEvent) {
    ev.IsFill() || ev.status.Cancelled?
  }

  ghost predicate PendingDeferrable(e: Engine) {
    forall id, i :: id in e.pending && 0 <= i < |e.pending[id].events| ==> Deferrable(e.pending[id].events[i])
  }

  function EventTerms(ev: ExecutionEvent): Terms {
    Terms(ev.marketID, ev.tokenID, ev.side, ev.price, ev.requestedSize)
  }

  function EventFill(ev: ExecutionEvent): Fill {
    Fill(ev.orderID, ev.marketID, ev.tokenID, ev.side, ev.filledSize, ev.price)
  }

  function Buffer(e: Engine, ev: ExecutionEvent, now: int): Engine {
    var p := if ev.orderID in e.pending then e.pending[ev.orderID] else Pending([], now);
    e.(pending := e.pending[ev.orderID := p.(events := p.events + [ev])],
       counters := e.counters.(buffered := e.counters.buffered + 1))
  }

  function Finalize(e: Engine, id: string, now: int): Engine {
    e.(accepted := e.accepted - {id}, pending := e.pending - {id},
       finalized := e.finalized + {id}, finalizedAt := e.finalizedAt[id := now])
  }

  /** The order is over: whatever it still holds is released. */
  function Close(e: Engine, id: string, now: int): Engine {
    Finalize(e.(ledger := Evict(e.ledger, id)), id, now)
  }

  function HandleFill(e: Engine, ev: ExecutionEvent, c: Clock): Engine {
    if ev.orderID !in e.accepted then Buffer(e, ev, c.now)
    else
      var e1 := e.(counters := e.counters.(filled := e.counters.filled + 1));
      var r := if ev.filledSize > 0.0 then ApplyFill(e.ledger, EventFill(ev), c.today) else Result(e.ledger, Done);
      if r.outcome.Fail? then e1
      else if ev.status.Filled? then Close(e1.(ledger := r.ledger), ev.orderID, c.now)
      else e1.(ledger := r.ledger)
  }

  function HandleReject(e: Engine, ev: ExecutionEvent, now: int): Engine {
    var e1 := e.(counters := e.counters.(rejected := e.counters.rejected + 1),
                 ledger := DropProvisional(e.ledger, ev.parentOrderID));
    if ev.orderID == "" then e1
    else if ev.orderID in e.accepted then Close(e1, ev.orderID, now)
    else Finalize(e1, ev.orderID, now)
  }

  function Accept(e: Engine, ev: ExecutionEvent): Engine {
    e.(counters := e.counters.(accepted := e.counters.accepted + 1),
       accepted := e.accepted + {ev.orderID},
       ledger := Attach(e.ledger, ev.parentOrderID, ev.orderID, EventTerms(ev)).ledger)
  }

  /** Terminates because what has been kept for later is never itself an acceptance. */
  function Handle(e: Engine, ev: ExecutionEvent, count: bool, c: Clock): (r: Engine)
    requires PendingDeferrable(e)
    ensures PendingDeferrable(r)
    decreases if ev.status.Accepted? then 1 else 0, 0
  {
    var e0 := if count then e.(counters := e.counters.(events := e.counters.events + 1)) else e;
    if ev.orderID == "" then
      if ev.status.Rejected? then HandleReject(e0, ev, c.now) else e0
    else if ev.orderID in e.finalized then e0
    else match ev.status
      case Accepted =>
        var e1 := Accept(e0, ev);
        if ev.orderID !in e1.pending then e1
        else Replay(e1.(pending := e1.pending - {ev.orderID}), e1.pending[ev.orderID].events, c)
      case PartiallyFilled => HandleFill(e0, ev, c)
      case Filled => HandleFill(e0, ev, c)
      case Cancelled => if ev.orderID in e.accepted then Close(e0, ev.orderID, c.now) else Buffer(e0, ev, c.now)
      case Rejected => HandleReject(e0, ev, c.now)
      case OtherStatus(_) => e0
  }

  function Replay(e: Engine, evs: seq<ExecutionEvent>, c: Clock): (r: Engine)
    requires PendingDeferrable(e) && forall i :: 0 <= i < |evs| ==> Deferrable(evs[i])
    ensures PendingDeferrable(r)
    decreases 0, |evs|
  {
    if evs == [] then e
    else
      assert Deferrable(evs[0]);
      Replay(Handle(e, evs[0], false, c), evs[1..], c)
  }

  // ---------------------------------------------------------------- early events

  datatype Arrival = Arrival(ev: ExecutionEvent, clock: Clock)

  function HandleAll(e: Engine, arrivals: seq<Arrival>): (r: Engine)
    requires PendingDeferrable(e)
    ensures PendingDeferrable(r)
    decreases |arrivals|
  {
    if arrivals == [] then e else HandleAll(Handle(e, arrivals[0].ev, true, arrivals[0].clock), arrivals[1..])
  }

  function EventsOf(arrivals: seq<Arrival>): seq<ExecutionEvent> {
    seq(|arrivals|, i requires 0 <= i < |arrivals| => arrivals[i].ev)
  }

  /** Ledgers equal but for the daily profit and its date. */
  ghost predicate SameBooks(a: Ledger, b: Ledger) {
    a.(dailyPnL := b.dailyPnL, dailyDate := b.dailyDate) == b
  }

  /** Equal up to time stamps and the event and buffer counters; unless `oneDay`, also up to the
      daily profit. */
  ghost predicate Same(a: Engine, b: Engine, oneDay: bool) {
    && SameBooks(a.ledger, b.ledger) && (oneDay ==> a.ledger == b.ledger)
    && a.accepted == b.accepted && a.finalized == b.finalized && a.pending == b.pending
    && a.finalizedAt.Keys == b.finalizedAt.Keys
    && a.counters.accepted == b.counters.accepted && a.counters.filled == b.counters.filled
    && a.counters.rejected == b.counters.rejected
  }

  /** The order has been accepted, or is already over. */
  predicate Known(e: Engine, id: string) {
    id in e.accepted || id in e.finalized
  }

  /** Fills and cancellations of order `id`. */
  ghost predicate DeferrableFor(arrivals: seq<Arrival>, id: string) {
    forall i :: 0 <= i < |arrivals| ==> Deferrable(arrivals[i].ev) && arrivals[i].ev.orderID == id
  }

  ghost predicate AllOn(arrivals: seq<Arrival>, today: string) {
    forall i :: 0 <= i < |arrivals| ==> arrivals[i].clock.today == today
  }

  lemma EvictSame(a: Ledger, b: Ledger, id: string)
    requires SameBooks(a, b)
    ensures SameBooks(Evict(a, id), Evict(b, id))
  {
  }

  lemma CloseSame(a: Engine, b: Engine, id: string, na: int, nb: int, oneDay: bool)
    requires Same(a, b, oneDay)
    ensures Same(Close(a, id, na), Close(b, id, nb), oneDay)
  {
    EvictSame(a.ledger, b.ledger, id);
    hide Evict;
  }

  lemma ApplyFillSame(a: Ledger, b: Ledger, f: Fill, ta: string, tb: string)
    requires SameBooks(a, b)
    ensures ApplyFill(a, f, ta).outcome == ApplyFill(b, f, tb).outcome
    ensures SameBooks(ApplyFill(a, f, ta).ledger, ApplyFill(b, f, tb).ledger)
  {
    hide AfterFill, AverageIn, FillPrice, Consumed, TokenAt;
  }

  lemma FillKnown(a: Engine, b: Engine, ev: ExecutionEvent, ca: Clock, cb: Clock, oneDay: bool)
    requires Same(a, b, oneDay) && ev.orderID in a.accepted && (oneDay ==> ca.today == cb.today)
    ensures Same(HandleFill(a, ev, ca), HandleFill(b, ev, cb), oneDay)
    ensures Known(HandleFill(a, ev, ca), ev.orderID)
  {
    hide ApplyFill, Close, SameBooks;
    var f := EventFill(ev);
    ApplyFillSame(a.ledger, b.ledger, f, ca.today, cb.today);
    var ra := if ev.filledSize > 0.0 then ApplyFill(a.ledger, f, ca.today) else Result(a.ledger, Done);
    var rb := if ev.filledSize > 0.0 then ApplyFill(b.ledger, f, cb.today) else Result(b.ledger, Done);
    var a1 := a.(counters := a.counters.(filled := a.counters.filled + 1), ledger := ra.ledger);
    var b1 := b.(counters := b.counters.(filled := b.counters.filled + 1), ledger := rb.ledger);
    CloseSame(a1, b1, ev.orderID, ca.now, cb.now, oneDay);
    CloseKnown(a1, ev.orderID, ca.now);
  }

  lemma HandleKnown(a: Engine, b: Engine, ev: ExecutionEvent, na: bool, nb: bool, ca: Clock, cb: Clock, oneDay: bool)
    requires PendingDeferrable(a) && PendingDeferrable(b) && Same(a, b, oneDay)
    requires Deferrable(ev) && ev.orderID != "" && Known(a, ev.orderID) && (oneDay ==> ca.today == cb.today)
    ensures Same(Handle(a, ev, na, ca), Handle(b, ev, nb, cb), oneDay)
    ensures Known(Handle(a, ev, na, ca), ev.orderID)
  {
    hide HandleFill, Close, SameBooks;
    var a0 := if na then a.(counters := a.counters.(events := a.counters.events + 1)) else a;
    var b0 := if nb then b.(counters := b.counters.(events := b.counters.events + 1)) else b;
    if ev.orderID in a.accepted && ev.orderID !in a.finalized {
      FillKnown(a0, b0, ev, ca, cb, oneDay);
      CloseSame(a0, b0, ev.orderID, ca.now, cb.now, oneDay);
      CloseKnown(a0, ev.orderID, ca.now);
    }
  }

  lemma CloseKnown(e: Engine, id: string, now: int)
    ensures Known(Close(e, id, now), id)
  {
  }

  lemma {:induction false} HandleAllKnown(a: Engine, b: Engine, arrivals: seq<Arrival>, id: string, oneDay: bool)
    requires PendingDeferrable(a) && PendingDeferrable(b) && Same(a, b, oneDay)
    requires DeferrableFor(arrivals, id) && id != "" && Known(a, id)
    ensures Same(HandleAll(a, arrivals), HandleAll(b, arrivals), oneDay)
    decreases |arrivals|
  {
    if arrivals == [] {
    } else {
      var x := arrivals[0];
      HandleKnown(a, b, x.ev, true, true, x.clock, x.clock, oneDay);
      HandleAllKnown(Handle(a, x.ev, true, x.clock), Handle(b, x.ev, true, x.clock), arrivals[1..], id, oneDay);
    }
  }

  /** Replaying kept events later is the same as handling them as they come. */
  lemma {:induction false} ReplayIsHandling(a: Engine, b: Engine, arrivals: seq<Arrival>, id: string, c: Clock,
                                            oneDay: bool)
    requires PendingDeferrable(a) && PendingDeferrable(b) && Same(a, b, oneDay)
    requires DeferrableFor(arrivals, id) && (oneDay ==> AllOn(arrivals, c.today)) && id != "" && Known(a, id)
    ensures forall i :: 0 <= i < |EventsOf(arrivals)| ==> Deferrable(EventsOf(arrivals)[i])
    ensures Same(Replay(a, EventsOf(arrivals), c), HandleAll(b, arrivals), oneDay)
    ensures Known(Replay(a, EventsOf(arrivals), c), id)
    decreases |arrivals|
  {
    if arrivals == [] {
    } else {
      var x := arrivals[0];
      HandleKnown(a, b, x.ev, false, true, c, x.clock, oneDay);
      assert EventsOf(arrivals)[1..] == EventsOf(arrivals[1..]);
      ReplayIsHandling(Handle(a, x.ev, false, c), Handle(b, x.ev, true, x.clock), arrivals[1..], id, c, oneDay);
    }
  }

  /** An event of an order nobody knows yet is kept. */
  lemma KeepOne(e: Engine, x: Arrival)
    requires PendingDeferrable(e) && Deferrable(x.ev) && x.ev.orderID != "" && !Known(e, x.ev.orderID)
    ensures Handle(e, x.ev, true, x.clock)
         == Buffer(e.(counters := e.counters.(events := e.counters.events + 1)), x.ev, x.clock.now)
  {
  }

  /** Before acceptance, events are kept in order and nothing else happens. */
  lemma {:induction false} EarlyEventsKept(e: Engine, arrivals: seq<Arrival>, id: string)
    requires PendingDeferrable(e) && DeferrableFor(arrivals, id) && id != ""
    requires !Known(e, id) && id !in e.pending
    ensures var r := HandleAll(e, arrivals);
            && r.ledger == e.ledger && r.accepted == e.accepted && r.finalized == e.finalized
            && r.finalizedAt == e.finalizedAt && r.pending - {id} == e.pending
            && r.counters == e.counters.(events := e.counters.events + |arrivals|,
                                         buffered := e.counters.buffered + |arrivals|)
            && (id in r.pending <==> arrivals != [])
            && (arrivals != [] ==> r.pending[id].events == EventsOf(arrivals))
  {
    if arrivals == [] {
      assert e.pending - {id} == e.pending;
    } else {
      var n := |arrivals| - 1;
      var front, x := arrivals[..n], arrivals[n];
      EarlyEventsKept(e, front, id);
      HandleAllSnoc(e, front, x);
      assert arrivals == front + [x];
      var mid := HandleAll(e, front);
      KeepOne(mid, x);
      hide Handle, HandleAll;
      var r := Handle(mid, x.ev, true, x.clock);
      assert EventsOf(arrivals) == EventsOf(front) + [x.ev];
      assert r.pending - {id} == mid.pending - {id};
    }
  }

  lemma {:induction false} HandleAllConcat(e: Engine, a: seq<Arrival>, b: seq<Arrival>)
    requires PendingDeferrable(e)
    ensures HandleAll(e, a + b) == HandleAll(HandleAll(e, a), b)
    decreases |a|
  {
    if a == [] {
      assert a + b == b;
    } else {
      assert (a + b)[1..] == a[1..] + b;
      HandleAllConcat(Handle(e, a[0].ev, true, a[0].clock), a[1..], b);
    }
  }

  lemma HandleAllSnoc(e: Engine, a: seq<Arrival>, x: Arrival)
    requires PendingDeferrable(e)
    ensures HandleAll(e, a + [x]) == Handle(HandleAll(e, a), x.ev, true, x.clock)
  {
    HandleAllConcat(e, a, [x]);
    assert [x][1..] == [];
  }

  /** The acceptance of a new order attaches it and replays what was kept for it. */
  lemma AcceptOne(e: Engine, x: Arrival)
    requires PendingDeferrable(e) && x.ev.status.Accepted? && x.ev.orderID != "" && x.ev.orderID !in e.finalized
    ensures var id := x.ev.orderID;
            var e1 := Accept(e.(counters := e.counters.(events := e.counters.events + 1)), x.ev);
            && (id !in e.pending ==> Handle(e, x.ev, true, x.clock) == e1)
            && (id in e.pending ==>
                  && (forall i :: 0 <= i < |e.pending[id].events| ==> Deferrable(e.pending[id].events[i]))
                  && PendingDeferrable(e1.(pending := e.pending - {id}))
                  && Handle(e, x.ev, true, x.clock)
                     == Replay(e1.(pending := e.pending - {id}), e.pending[id].events, x.clock))
  {
    hide Attach;
  }

  /** An acceptance after `early` events is the acceptance followed by them. */
  lemma LateAcceptance(e: Engine, accept: Arrival, early: seq<Arrival>, oneDay: bool)
    requires PendingDeferrable(e)
    requires accept.ev.status.Accepted? && accept.ev.orderID != ""
    requires !Known(e, accept.ev.orderID) && accept.ev.orderID !in e.pending
    requires DeferrableFor(early, accept.ev.orderID) && (oneDay ==> AllOn(early, accept.clock.today))
    ensures var late := Handle(HandleAll(e, early), accept.ev, true, accept.clock);
            && Same(late, HandleAll(Handle(e, accept.ev, true, accept.clock), early), oneDay)
            && Known(late, accept.ev.orderID)
  {
    hide Attach, Handle, Replay, EventsOf;
    var id := accept.ev.orderID;
    var kept := HandleAll(e, early);
    EarlyEventsKept(e, early, id);
    assert e.pending - {id} == e.pending;
    AcceptOne(e, accept);
    AcceptOne(kept, accept);
    if early != [] {
      var taken := Accept(kept.(counters := kept.counters.(events := kept.counters.events + 1)), accept.ev);
      var prompt := Handle(e, accept.ev, true, accept.clock);
      ReplayIsHandling(taken.(pending := taken.pending - {id}), prompt, early, id, accept.clock, oneDay);
    }
  }

  lemma SplitArrivals(e: Engine, accept: Arrival, early: seq<Arrival>, rest: seq<Arrival>)
    requires PendingDeferrable(e)
    ensures HandleAll(e, early + [accept] + rest)
         == HandleAll(Handle(HandleAll(e, early), accept.ev, true, accept.clock), rest)
  {
    HandleAllSnoc(e, early, accept);
    HandleAllConcat(e, early + [accept], rest);
  }

  lemma BufferingSplit(e: Engine, accept: Arrival, early: seq<Arrival>, rest: seq<Arrival>, oneDay: bool)
    requires PendingDeferrable(e)
    requires accept.ev.status.Accepted? && accept.ev.orderID != ""
    requires !Known(e, accept.ev.orderID) && accept.ev.orderID !in e.pending
    requires DeferrableFor(early, accept.ev.orderID) && DeferrableFor(rest, accept.ev.orderID)
    requires oneDay ==> AllOn(early, accept.clock.today)
    ensures Same(HandleAll(e, early + [accept] + rest), HandleAll(e, [accept] + (early + rest)), oneDay)
  {
    hide Handle, HandleAll, Same;
    var prompt := Handle(e, accept.ev, true, accept.clock);
    LateAcceptance(e, accept, early, oneDay);
    SplitArrivals(e, accept, early, rest);
    HandleAllKnown(Handle(HandleAll(e, early), accept.ev, true, accept.clock), HandleAll(prompt, early), rest,
                   accept.ev.orderID, oneDay);
    SplitArrivals(e, accept, [], early + rest);
    assert [] + [accept] + (early + rest) == [accept] + (early + rest);
    HandleNone(e);
    HandleAllConcat(prompt, early, rest);
  }

  /** Whatever part of an order's fills and cancellations arrives before its acceptance, the
      outcome is as if the acceptance had come first; the daily profit, which is booked under the
      date of handling, is the same when the early events carry the acceptance's date. */
  lemma BufferingEquivalence(e: Engine, accept: Arrival, arrivals: seq<Arrival>, i: nat)
    requires PendingDeferrable(e) && i <= |arrivals|
    requires accept.ev.status.Accepted? && accept.ev.orderID != ""
    requires !Known(e, accept.ev.orderID) && accept.ev.orderID !in e.pending
    requires DeferrableFor(arrivals, accept.ev.orderID)
    ensures Same(HandleAll(e, arrivals[..i] + [accept] + arrivals[i..]), HandleAll(e, [accept] + arrivals),
                 AllOn(arrivals[..i], accept.clock.today))
  {
    hide Handle, HandleAll, Same;
    assert arrivals[..i] + arrivals[i..] == arrivals;
    BufferingSplit(e, accept, arrivals[..i], arrivals[i..], AllOn(arrivals[..i], accept.clock.today));
  }

  lemma HandleNone(e: Engine)
    requires PendingDeferrable(e)
    ensures HandleAll(e, []) == e
  {
  }

  // ---------------------------------------------------------------- tracking

  /** An order is accepted, waiting with kept events, or finalized, never two of these. */
  ghost predicate Tracking(e: Engine) {
    && e.accepted !! e.finalized && e.accepted !! e.pending.Keys && e.finalized !! e.pending.Keys
    && e.finalized == e.finalizedAt.Keys
    && PendingDeferrable(e)
    && (forall id, i :: id in e.pending && 0 <= i < |e.pending[id].events| ==> e.pending[id].events[i].orderID == id)
  }

  /** Every order reservation belongs to an accepted order. */
  ghost predicate Owned(e: Engine) {
    e.ledger.orders.Keys <= e.accepted
  }

  lemma AttachOrders(l: Ledger, intentID: string, orderID: string, t: Terms)
    ensures Attach(l, intentID, orderID, t).ledger.orders.Keys <= l.orders.Keys + {orderID}
  {
  }

  lemma BufferTracks(e: Engine, ev: ExecutionEvent, now: int)
    requires Tracking(e) && Deferrable(ev) && !Known(e, ev.orderID)
    ensures Tracking(Buffer(e, ev, now))
    ensures Owned(e) ==> Owned(Buffer(e, ev, now))
  {
  }

  lemma FinalizeTracks(e: Engine, id: string, now: int)
    requires Tracking(e)
    ensures Tracking(Finalize(e, id, now)) && Known(Finalize(e, id, now), id)
    ensures Owned(e) && id !in e.ledger.orders ==> Owned(Finalize(e, id, now))
  {
  }

  lemma CloseTracks(e: Engine, id: string, now: int)
    requires Tracking(e)
    ensures Tracking(Close(e, id, now)) && Known(Close(e, id, now), id)
    ensures Owned(e) ==> Owned(Close(e, id, now))
  {
    FinalizeTracks(e.(ledger := Evict(e.ledger, id)), id, now);
  }

  lemma FillTracks(e: Engine, ev: ExecutionEvent, c: Clock)
    requires Tracking(e) && ev.IsFill() && ev.orderID !in e.finalized
    ensures Tracking(HandleFill(e, ev, c))
    ensures Owned(e) ==> Owned(HandleFill(e, ev, c))
    ensures ev.orderID in e.accepted ==> Known(HandleFill(e, ev, c), ev.orderID)
  {
    FillOrders(e.ledger, EventFill(ev), c.today);
    hide ApplyFill, Buffer, Close, Tracking;
    if ev.orderID !in e.accepted {
      BufferTracks(e, ev, c.now);
    } else {
      var r := if ev.filledSize > 0.0 then ApplyFill(e.ledger, EventFill(ev), c.today) else Result(e.ledger, Done);
      var e1 := e.(counters := e.counters.(filled := e.counters.filled + 1), ledger := r.ledger);
      TrackingIsLocal(e, e1);
      TrackingIsLocal(e, e1.(ledger := e.ledger));
      CloseTracks(e1, ev.orderID, c.now);
    }
  }

  /** Tracking does not look at the ledger or the counters. */
  lemma TrackingIsLocal(a: Engine, b: Engine)
    requires Tracking(a) && a.(ledger := b.ledger, counters := b.counters) == b
    ensures Tracking(b)
  {
  }

  lemma RejectTracks(e: Engine, ev: ExecutionEvent, now: int)
    requires Tracking(e)
    ensures Tracking(HandleReject(e, ev, now))
    ensures Owned(e) ==> Owned(HandleReject(e, ev, now))
  {
    hide Tracking, Close, Finalize;
    var e1 := e.(counters := e.counters.(rejected := e.counters.rejected + 1),
                 ledger := DropProvisional(e.ledger, ev.parentOrderID));
    TrackingIsLocal(e, e1);
    CloseTracks(e1, ev.orderID, now);
    FinalizeTracks(e1, ev.orderID, now);
  }

  lemma PlainHandleTracks(e: Engine, ev: ExecutionEvent, count: bool, c: Clock)
    requires Tracking(e) && !ev.status.Accepted?
    ensures Tracking(Handle(e, ev, count, c))
    ensures Owned(e) ==> Owned(Handle(e, ev, count, c))
    ensures Known(e, ev.orderID) && Deferrable(ev) && ev.orderID != "" ==> Known(Handle(e, ev, count, c), ev.orderID)
  {
    hide Tracking, Buffer, Close, HandleFill, HandleReject;
    var e0 := if count then e.(counters := e.counters.(events := e.counters.events + 1)) else e;
    TrackingIsLocal(e, e0);
    RejectTracks(e0, ev, c.now);
    if ev.orderID !in e.finalized {
      if ev.IsFill() {
        FillTracks(e0, ev, c);
      } else if ev.status.Cancelled? {
        CloseTracks(e0, ev.orderID, c.now);
        if ev.orderID !in e.accepted { BufferTracks(e0, ev, c.now); }
      }
    }
  }

  lemma FillOrders(l: Ledger, f: Fill, today: string)
    ensures ApplyFill(l, f, today).ledger.orders.Keys <= l.orders.Keys
  {
  }

  lemma {:induction false} ReplayTracks(e: Engine, evs: seq<ExecutionEvent>, id: string, c: Clock)
    requires Tracking(e) && id != "" && Known(e, id)
    requires forall i :: 0 <= i < |evs| ==> Deferrable(evs[i]) && evs[i].orderID == id
    ensures Tracking(Replay(e, evs, c))
    ensures Owned(e) ==> Owned(Replay(e, evs, c))
    decreases |evs|
  {
    hide Handle;
    if evs == [] {
    } else {
      PlainHandleTracks(e, evs[0], false, c);
      ReplayTracks(Handle(e, evs[0], false, c), evs[1..], id, c);
    }
  }

  /** Handling any event keeps orders sorted into the three classes. */
  lemma HandleTracks(e: Engine, ev: ExecutionEvent, count: bool, c: Clock)
    requires Tracking(e)
    ensures Tracking(Handle(e, ev, count, c))
    ensures Owned(e) ==> Owned(Handle(e, ev, count, c))
  {
    var id := ev.orderID;
    if !ev.status.Accepted? {
      PlainHandleTracks(e, ev, count, c);
    } else if id != "" && id !in e.finalized {
      AttachOrders(e.ledger, ev.parentOrderID, id, EventTerms(ev));
      hide Attach;
      var e1 := Accept(if count then e.(counters := e.counters.(events := e.counters.events + 1)) else e, ev);
      if id in e.pending {
        ReplayTracks(e1.(pending := e1.pending - {id}), e1.pending[id].events, id, c);
      }
    }
  }

  // ---------------------------------------------------------------- expiry

  /** Kept events that have waited too long are dropped, and finalized entries forgotten. */
  function ExpirePending(e: Engine, now: int, ttl: int): Engine {
    if ttl <= 0 then e
    else e.(pending := map id | id in e.pending && now - e.pending[id].firstSeen < ttl :: e.pending[id])
  }

  function ExpireFinalized(e: Engine, now: int, ttl: int): Engine {
    if ttl <= 0 then e
    else
      var keep := map id | id in e.finalizedAt && now - e.finalizedAt[id] < ttl :: e.finalizedAt[id];
      e.(finalizedAt := keep, finalized := e.finalized - (e.finalizedAt.Keys - keep.Keys))
  }

  datatype TTLs = TTLs(pending: int, finalized: int)

  /** One tick of the cleanup; `drops` are the expired intents in the order they are released. */
  function Tick(e: Engine, now: int, ttls: TTLs, drops: seq<string>): Engine {
    var e1 := ExpireFinalized(ExpirePending(e, now, ttls.pending), now, ttls.finalized);
    e1.(ledger := Run(e1.ledger, Drops(drops)))
  }

  lemma TickTracks(e: Engine, now: int, ttls: TTLs, drops: seq<string>)
    requires Tracking(e)
    ensures Tracking(Tick(e, now, ttls, drops))
    ensures Owned(e) ==> Owned(Tick(e, now, ttls, drops))
  {
    DropsEffect(e.ledger, drops);
    hide Run;
  }

  // ---------------------------------------------------------------- runs

  /** What reaches the engine: execution events, cleanup ticks, and ledger operations performed
      elsewhere. */
  datatype Input =
    | Executed(arrival: Arrival)
    | Ticked(now: int, drops: seq<string>)
    | Booked(op: Op)

  function Advance(e: Engine, x: Input, ttls: TTLs): Engine
    requires PendingDeferrable(e)
  {
    match x
    case Executed(a) => Handle(e, a.ev, true, a.clock)
    case Ticked(now, drops) => Tick(e, now, ttls, drops)
    case Booked(op) => e.(ledger := Step(e.ledger, op))
  }

  /** Ledger operations that create no order reservation. */
  predicate AddsNoOrder(op: Op) {
    || op.OpReserve? || op.OpUnprovision? || op.OpEvict? || op.OpFill?
    || op.OpOnchain? || op.OpMatchToken? || op.OpDropToken?
  }

  lemma StepAddsNoOrder(l: Ledger, op: Op)
    requires AddsNoOrder(op)
    ensures Step(l, op).orders.Keys <= l.orders.Keys
  {
    if op.OpFill? { FillOrders(l, op.fill, op.today); }
  }

  lemma AdvanceTracks(e: Engine, x: Input, ttls: TTLs)
    requires Tracking(e)
    ensures Tracking(Advance(e, x, ttls))
    ensures Owned(e) && (x.Booked? ==> AddsNoOrder(x.op)) ==> Owned(Advance(e, x, ttls))
  {
    match x
    case Executed(a) => HandleTracks(e, a.ev, true, a.clock);
    case Ticked(now, drops) => TickTracks(e, now, ttls, drops);
    case Booked(op) => if AddsNoOrder(op) { StepAddsNoOrder(e.ledger, op); }
  }

  /** The engine after `xs`; defined while kept events are deferrable, which every step preserves. */
  ghost function Trace(e: Engine, xs: seq<Input>, ttls: TTLs): (r: Engine)
    requires Tracking(e)
    ensures Tracking(r)
    decreases |xs|
  {
    if xs == [] then e
    else
      AdvanceTracks(e, xs[0], ttls);
      Trace(Advance(e, xs[0], ttls), xs[1..], ttls)
  }

  /** Over every run the three classes stay disjoint, and without reconciliation no reservation is
      left without an accepted order. */
  lemma {:induction false} TraceTracks(e: Engine, xs: seq<Input>, ttls: TTLs)
    requires Tracking(e) && Owned(e)
    requires forall i :: 0 <= i < |xs| ==> xs[i].Booked? ==> AddsNoOrder(xs[i].op)
    ensures Tracking(Trace(e, xs, ttls)) && Owned(Trace(e, xs, ttls))
    decreases |xs|
  {
    hide Advance;
    if xs == [] {
    } else {
      AdvanceTracks(e, xs[0], ttls);
      TraceTracks(Advance(e, xs[0], ttls), xs[1..], ttls);
    }
  }

  // ---------------------------------------------------------------- finalized orders

  lemma HandleKeepsFinalized(e: Engine, ev: ExecutionEvent, count: bool, c: Clock, id: string)
    requires PendingDeferrable(e) && id in e.finalized && id in e.finalizedAt && !ev.status.Accepted?
    ensures id in Handle(e, ev, count, c).finalized
    ensures id in Handle(e, ev, count, c).finalizedAt
    ensures Handle(e, ev, count, c).finalizedAt[id] == e.finalizedAt[id]
  {
    hide ApplyFill, Evict, DropProvisional;
  }

  lemma {:induction false} ReplayKeepsFinalized(e: Engine, evs: seq<ExecutionEvent>, c: Clock, id: string)
    requires PendingDeferrable(e) && id in e.finalized && id in e.finalizedAt
    requires forall i :: 0 <= i < |evs| ==> Deferrable(evs[i])
    ensures var r := Replay(e, evs, c);
            id in r.finalized && id in r.finalizedAt && r.finalizedAt[id] == e.finalizedAt[id]
    decreases |evs|
  {
    hide Handle;
    if evs == [] {
    } else {
      HandleKeepsFinalized(e, evs[0], false, c, id);
      ReplayKeepsFinalized(Handle(e, evs[0], false, c), evs[1..], c, id);
    }
  }

  /** Until its entry expires a finalized order stays finalized, whatever happens to it or to others. */
  lemma AdvanceKeepsFinalized(e: Engine, x: Input, ttls: TTLs, id: string)
    requires Tracking(e) && id in e.finalized
    requires x.Ticked? ==> x.now - e.finalizedAt[id] < ttls.finalized
    ensures id in Advance(e, x, ttls).finalized && id in Advance(e, x, ttls).finalizedAt
    ensures Advance(e, x, ttls).finalizedAt[id] == e.finalizedAt[id]
  {
    if x.Executed? {
      var ev, c := x.arrival.ev, x.arrival.clock;
      if !ev.status.Accepted? {
        HandleKeepsFinalized(e, ev, true, c, id);
      } else if ev.orderID != "" && ev.orderID !in e.finalized {
        hide Attach;
        var e1 := Accept(e.(counters := e.counters.(events := e.counters.events + 1)), ev);
        if ev.orderID in e.pending {
          ReplayKeepsFinalized(e1.(pending := e1.pending - {ev.orderID}), e1.pending[ev.orderID].events, c, id);
        }
      }
    } else if x.Ticked? {
      hide Run;
    } else {
      hide Step;
    }
  }

  /** An event of a finalized order changes neither ledger nor tracking, at any later point of any
      run whose cleanup ticks come before the entry expires. */
  lemma {:induction false} FinalizedIsFinal(e: Engine, xs: seq<Input>, ttls: TTLs, id: string, late: Arrival)
    requires Tracking(e) && id in e.finalized && id != ""
    requires forall i :: 0 <= i < |xs| && xs[i].Ticked? ==> xs[i].now - e.finalizedAt[id] < ttls.finalized
    requires late.ev.orderID == id
    ensures var r := Trace(e, xs, ttls);
            && id in r.finalized
            && Handle(r, late.ev, true, late.clock) == r.(counters := r.counters.(events := r.counters.events + 1))
    decreases |xs|
  {
    if xs == [] {
    } else {
      AdvanceTracks(e, xs[0], ttls);
      AdvanceKeepsFinalized(e, xs[0], ttls, id);
      hide Advance;
      FinalizedIsFinal(Advance(e, xs[0], ttls), xs[1..], ttls, id, late);
    }
  }
}
