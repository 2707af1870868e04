/**
 Tracker and ledger with the bus between them: the tracker's events wait in a queue until the engine
 takes them. The two stay in step, the queue accounting for the difference, and agree on an order
 whenever no event of it is waiting.
 */
module Deliveries {
  import opened Core
  import opened Ledgers
  import opened Engines
  import opened Agreement
  import T = Trackers

  datatype Link = Link(book: T.Book, queue: seq<ExecutionEvent>, engine: Engine)

  /** Tracker messages, the delivery of the oldest waiting event, and everything else that reaches the
      engine. */
  datatype Event = Said(touch: T.Touch) | Taken(clock: Clock) | Besides(step: Engines.Input)

  function Next(s: Link, x: Event, ttls: TTLs): Link
    requires PendingDeferrable(s.engine)
  {
    match x
    case Said(touch) =>
      var r := T.Apply(T.At(s.book, touch.id), touch);
      s.(book := s.book[touch.id := r.order], queue := s.queue + r.out)
    case Taken(c) =>
      if s.queue == [] then s
      else s.(queue := s.queue[1..], engine := Handle(s.engine, s.queue[0], true, c))
    case Besides(y) => s.(engine := Advance(s.engine, y, ttls))
  }

  /** An order as the ledger or the tracker sees it: open for some size, or over. */
  datatype View = Live(open: real) | Over

  function LedgerView(l: Ledger, id: string): View {
    if id in l.orders then Live(l.orders[id].terms.size) else Over
  }

  function TrackerView(t: T.Tracked, size: real): View {
    if t.finalized then Over else Live(NonNeg(size - t.filled))
  }

  /** Does the event make sense to somebody who sees `v`? */
  predicate Expected(v: View, ev: ExecutionEvent, d: Deal) {
    ev.orderID == d.id ==>
      || ev.status.Accepted?
      || (&& v.Live? && ev.IsFill() && ev.filledSize > 0.0
          && ev.marketID == d.marketID && ev.tokenID == d.tokenID && ev.side == d.side
          && (ev.status.Filled? <==> NonNeg(v.open - ev.filledSize) <= EPS))
  }

  function Seen(v: View, ev: ExecutionEvent, d: Deal): View {
    if ev.orderID != d.id || ev.status.Accepted? || v.Over? then v
    else if ev.status.Filled? then Over
    else Live(NonNeg(v.open - ev.filledSize))
  }

  /** The waiting events make sense one after the other, and lead from `v` to `w`. */
  predicate Leads(v: View, queue: seq<ExecutionEvent>, w: View, d: Deal)
    decreases |queue|
  {
    if queue == [] then v == w else Expected(v, queue[0], d) && Leads(Seen(v, queue[0], d), queue[1..], w, d)
  }

  lemma {:induction false} LeadsFurther(v: View, queue: seq<ExecutionEvent>, w: View, ev: ExecutionEvent, d: Deal)
    requires Leads(v, queue, w, d) && Expected(w, ev, d)
    ensures Leads(v, queue + [ev], Seen(w, ev, d), d)
    decreases |queue|
  {
    hide Expected, Seen;
    if queue == [] {
      assert queue + [ev] == [ev] && [ev][1..] == [];
      assert Leads(Seen(w, ev, d), [], Seen(w, ev, d), d);
    } else {
      assert (queue + [ev])[1..] == queue[1..] + [ev];
      LeadsFurther(Seen(v, queue[0], d), queue[1..], w, ev, d);
    }
  }

  /** What the tracker knows of the order. */
  predicate TrackerHas(t: T.Tracked, d: Deal) {
    && t.requested == d.size > 0.0 && t.filled >= 0.0
    && t.marketID == d.marketID && t.tokenID == d.tokenID && t.side == d.side
  }

  /** What the engine knows of the order. */
  ghost predicate EngineHas(e: Engine, d: Deal) {
    && Tracking(e) && d.id != "" && Tradable(d.side)
    && (d.id in e.ledger.orders ==> d.id in e.accepted && Reserves(e.ledger, d, e.ledger.orders[d.id].terms.size))
    && (d.id !in e.ledger.orders ==> d.id !in e.accepted && d.id !in e.pending)
  }

  /** The waiting events lead from what the ledger sees to what the tracker sees. */
  ghost predicate InStep(s: Link, d: Deal) {
    && TrackerHas(T.At(s.book, d.id), d) && EngineHas(s.engine, d)
    && Leads(LedgerView(s.engine.ledger, d.id), s.queue, TrackerView(T.At(s.book, d.id), d.size), d)
  }

  ghost predicate NothingWaits(queue: seq<ExecutionEvent>, d: Deal) {
    forall i :: 0 <= i < |queue| ==> queue[i].orderID != d.id
  }

  lemma {:induction false} NothingWaitsLeads(v: View, queue: seq<ExecutionEvent>, w: View, d: Deal)
    requires NothingWaits(queue, d)
    ensures Leads(v, queue, w, d) <==> v == w
    decreases |queue|
  {
    if queue == [] {
    } else {
      NothingWaitsLeads(v, queue[1..], w, d);
    }
  }

  /** In step with nothing of the order waiting is agreement. */
  lemma InStepIsAgree(s: Link, d: Deal)
    requires NothingWaits(s.queue, d)
    ensures InStep(s, d) <==> Agree(System(s.book, s.engine), d)
  {
    NothingWaitsLeads(LedgerView(s.engine.ledger, d.id), s.queue, TrackerView(T.At(s.book, d.id), d.size), d);
    hide Tracking, Leads;
  }

  // ---------------------------------------------------------------- steps

  /** What one message about the order does to the tracker, and what it says. */
  lemma SaidOfOrder(t: T.Tracked, d: Deal, x: T.Touch)
    requires TrackerHas(t, d) && x.id == d.id && Compatible(d, x)
    ensures var r := T.Apply(t, x);
            && TrackerHas(r.order, d) && |r.out| <= 1
            && (r.out == [] ==> TrackerView(r.order, d.size) == TrackerView(t, d.size))
            && (r.out != [] ==>
                  && Expected(TrackerView(t, d.size), r.out[0], d)
                  && TrackerView(r.order, d.size) == Seen(TrackerView(t, d.size), r.out[0], d))
  {
    var r := T.Apply(t, x);
    if r.out != [] && !r.out[0].status.Accepted? {
      assert r.out[0].IsFill() && !t.finalized && r.order.filled == t.filled + r.out[0].filledSize;
      OpenAfterFill(d.size, t.filled, r.out[0].filledSize);
    }
  }

  lemma SaidKeepsStep(s: Link, d: Deal, x: T.Touch, ttls: TTLs)
    requires InStep(s, d) && Compatible(d, x)
    ensures InStep(Next(s, Said(x), ttls), d)
  {
    var t, w := T.At(s.book, x.id), TrackerView(T.At(s.book, d.id), d.size);
    var v, r := LedgerView(s.engine.ledger, d.id), T.Apply(T.At(s.book, x.id), x);
    T.ApplyEnds(t, x);
    if x.id == d.id { SaidOfOrder(t, d, x); }
    hide T.Apply, EngineHas, TrackerHas, Leads, Expected, TrackerView, LedgerView;
    if r.out == [] {
      assert s.queue + r.out == s.queue;
    } else {
      assert r.out == [r.out[0]];
      if x.id != d.id { OfOthers(w, r.out[0], d); }
      LeadsFurther(v, s.queue, w, r.out[0], d);
    }
  }

  lemma OfOthers(v: View, ev: ExecutionEvent, d: Deal)
    requires ev.orderID != d.id
    ensures Expected(v, ev, d) && Seen(v, ev, d) == v
  {
  }

  /** An acceptance is delivered for an order that is over and that the engine has forgotten. */
  predicate TakenTooLate(s: Link, d: Deal, x: Event) {
    && x.Taken? && s.queue != [] && s.queue[0].orderID == d.id && s.queue[0].status.Accepted?
    && d.id !in s.engine.ledger.orders && d.id !in s.engine.finalized
  }

  lemma TakenByEngine(e: Engine, d: Deal, ev: ExecutionEvent, c: Clock)
    requires EngineHas(e, d) && Expected(LedgerView(e.ledger, d.id), ev, d)
    requires ev.orderID == d.id && ev.status.Accepted? && d.id !in e.ledger.orders ==> d.id in e.finalized
    ensures var e' := Handle(e, ev, true, c);
            EngineHas(e', d) && LedgerView(e'.ledger, d.id) == Seen(LedgerView(e.ledger, d.id), ev, d)
  {
    HandleTracks(e, ev, true, c);
    if ev.orderID != d.id {
      HandleElsewhere(e, ev, true, c, d.id);
    } else if !ev.status.Accepted? {
      FillHandled(e, d, e.ledger.orders[d.id].terms.size, ev, c);
      if ev.status.Filled? { TrackingParts(Handle(e, ev, true, c), d.id); }
    } else if d.id in e.ledger.orders {
      AcceptHandled(e, d, ev, c);
    } else {
      LateAcceptanceHandled(e, d.id, ev, c);
    }
    hide Handle, Tracking;
  }

  lemma TakenKeepsStep(s: Link, d: Deal, c: Clock, ttls: TTLs)
    requires InStep(s, d) && !TakenTooLate(s, d, Taken(c))
    ensures InStep(Next(s, Taken(c), ttls), d)
  {
    if s.queue != [] { TakenByEngine(s.engine, d, s.queue[0], c); }
    hide Handle, EngineHas, TrackerHas, LedgerView, TrackerView, Expected, Seen;
  }

  lemma BesidesKeepsStep(s: Link, d: Deal, y: Engines.Input, ttls: TTLs)
    requires InStep(s, d) && Fits(d, Other(y))
    ensures InStep(Next(s, Besides(y), ttls), d)
  {
    AdvanceTracks(s.engine, y, ttls);
    match y {
      case Executed(a) => HandleElsewhere(s.engine, a.ev, true, a.clock, d.id);
      case Ticked(now, drops) => TickElsewhere(s.engine, now, ttls, drops, d.id);
      case Booked(op) => StepElsewhere(s.engine.ledger, op, d.id);
    }
    hide Handle, Tracking, Tick, Step, Names, Leads, TrackerHas;
  }

  /** Messages about `d` are compatible; other events and ledger operations are not about `d`. */
  predicate Suits(d: Deal, x: Event) {
    match x
    case Said(touch) => Compatible(d, touch)
    case Taken(_) => true
    case Besides(y) => Fits(d, Other(y))
  }

  lemma NextKeepsStep(s: Link, d: Deal, x: Event, ttls: TTLs)
    requires InStep(s, d) && Suits(d, x) && !TakenTooLate(s, d, x)
    ensures InStep(Next(s, x, ttls), d)
  {
    hide InStep, Next, TakenTooLate, Compatible, Fits;
    match x
    case Said(touch) => SaidKeepsStep(s, d, touch, ttls);
    case Taken(c) => TakenKeepsStep(s, d, c, ttls);
    case Besides(y) => BesidesKeepsStep(s, d, y, ttls);
  }

  lemma NextTracks(s: Link, x: Event, ttls: TTLs)
    requires Tracking(s.engine)
    ensures Tracking(Next(s, x, ttls).engine)
  {
    match x
    case Said(_) =>
    case Taken(c) => if s.queue != [] { HandleTracks(s.engine, s.queue[0], true, c); }
    case Besides(y) => AdvanceTracks(s.engine, y, ttls);
  }

  // ---------------------------------------------------------------- runs

  ghost function RunAll(s: Link, xs: seq<Event>, ttls: TTLs): (r: Link)
    requires Tracking(s.engine)
    ensures Tracking(r.engine)
    decreases |xs|
  {
    if xs == [] then s
    else
      NextTracks(s, xs[0], ttls);
      RunAll(Next(s, xs[0], ttls), xs[1..], ttls)
  }

  /** No acceptance is delivered too late. */
  ghost predicate InTime(s: Link, d: Deal, xs: seq<Event>, ttls: TTLs)
    requires Tracking(s.engine)
    decreases |xs|
  {
    xs != [] ==>
      && !TakenTooLate(s, d, xs[0])
      && (NextTracks(s, xs[0], ttls); InTime(Next(s, xs[0], ttls), d, xs[1..], ttls))
  }

  ghost predicate AllSuit(d: Deal, xs: seq<Event>) {
    forall i :: 0 <= i < |xs| ==> Suits(d, xs[i])
  }

  lemma {:induction false} RunKeepsStep(s: Link, d: Deal, xs: seq<Event>, ttls: TTLs)
    requires Tracking(s.engine) && InStep(s, d) && AllSuit(d, xs) && InTime(s, d, xs, ttls)
    ensures InStep(RunAll(s, xs, ttls), d)
    decreases |xs|
  {
    hide InStep, Next, Suits, TakenTooLate;
    if xs == [] {
    } else {
      NextTracks(s, xs[0], ttls);
      NextKeepsStep(s, d, xs[0], ttls);
      hide Tracking;
      RunKeepsStep(Next(s, xs[0], ttls), d, xs[1..], ttls);
    }
  }

  /** However long events wait: tracker and ledger stay in step, and whenever no event of the order is
      waiting they agree on it. */
  lemma DelayedDeliveryAgrees(s: Link, d: Deal, xs: seq<Event>, ttls: TTLs)
    requires Agree(System(s.book, s.engine), d) && NothingWaits(s.queue, d) && AllSuit(d, xs) && InTime(s, d, xs, ttls)
    ensures var r := RunAll(s, xs, ttls);
            && InStep(r, d)
            && (NothingWaits(r.queue, d) ==>
                  var t := T.At(r.book, d.id);
                  && Agree(System(r.book, r.engine), d)
                  && (d.id in r.engine.ledger.orders <==> !t.finalized)
                  && (!t.finalized ==> r.engine.ledger.orders[d.id].terms.size == NonNeg(d.size - t.filled)))
  {
    InStepIsAgree(s, d);
    hide InStep, RunAll, InTime, AllSuit, NothingWaits;
    RunKeepsStep(s, d, xs, ttls);
    var r := RunAll(s, xs, ttls);
    if NothingWaits(r.queue, d) { InStepIsAgree(r, d); }
  }
}
