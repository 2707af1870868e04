/**
 What each execution event does to its own order, told on the engine's fields: which events end the
 order, what is left of it afterwards, and that nothing can bring it back before its entry expires.
 */
module Endings {
  import opened Core
  import opened Ledgers
  import opened Engines
  import opened Reconcile

  /** Order `id` is over since `now`, and every other order is as it was. */
  ghost predicate Ended(e: Engine, r: Engine, id: string, now: int) {
    && id in r.finalized && id in r.finalizedAt && r.finalizedAt[id] == now
    && id !in r.accepted && id !in r.pending
    && (forall k :: k != id ==> (k in r.finalized <==> k in e.finalized) && (k in r.accepted <==> k in e.accepted))
    && (forall k :: k != id ==> (k in r.finalizedAt <==> k in e.finalizedAt) && (k in r.pending <==> k in e.pending))
    && (forall k :: k != id && k in e.finalizedAt ==> r.finalizedAt[k] == e.finalizedAt[k])
    && (forall k :: k != id && k in e.pending ==> r.pending[k] == e.pending[k])
  }

  /** The reservation of `id` is gone, and every other one is as it was. */
  ghost predicate Released(l: Ledger, l': Ledger, id: string) {
    && id !in l'.orders
    && (forall k :: k != id ==> (k in l'.orders <==> k in l.orders))
    && (forall k :: k != id && k in l.orders ==> l'.orders[k] == l.orders[k])
  }

  /** What a release gives back: the whole reserved amount of the order, to cash or to its token. */
  ghost predicate GivenBack(l: Ledger, l': Ledger, id: string) {
    if id !in l.orders then l'.balance == l.balance && l'.tokens == l.tokens
    else
      var o := l.orders[id];
      var tp := TokenAt(l.tokens, o.terms.tokenID);
      && (o.terms.side == BUY ==>
            && l'.balance.available == l.balance.available + o.reserved && l'.tokens == l.tokens
            && l'.balance.reserved == (if l.balance.reserved > o.reserved
                                       then l.balance.reserved - o.reserved else 0.0))
      && (o.terms.side == SELL ==>
            && l'.balance == l.balance
            && l'.tokens == l.tokens[o.terms.tokenID :=
                 tp.(available := tp.available + o.reserved,
                     reserved := if tp.reserved > o.reserved then tp.reserved - o.reserved else 0.0)])
  }

  lemma EvictReleases(l: Ledger, id: string)
    ensures Released(l, Evict(l, id), id) && GivenBack(l, Evict(l, id), id)
    ensures Evict(l, id).provisionals == l.provisionals
    ensures Evict(l, id).dailyPnL == l.dailyPnL && Evict(l, id).dailyDate == l.dailyDate
  {
  }

  lemma FinalizeEnds(e: Engine, e1: Engine, id: string, now: int)
    requires e1.(ledger := e.ledger, counters := e.counters) == e
    ensures Ended(e, Finalize(e1, id, now), id, now)
    ensures Finalize(e1, id, now).ledger == e1.ledger && Finalize(e1, id, now).counters == e1.counters
  {
  }

  lemma DropProvisionalExactly(l: Ledger, intentID: string)
    ensures DropProvisional(l, intentID).orders == l.orders
    ensures forall k :: k in DropProvisional(l, intentID).provisionals <==>
                          k in l.provisionals && (k != intentID || intentID == "")
  {
  }

  /** A cancellation of an accepted order releases and finalizes it. */
  lemma CancelEnds(e: Engine, ev: ExecutionEvent, count: bool, c: Clock)
    requires Tracking(e) && ev.status == Cancelled && ev.orderID != "" && ev.orderID in e.accepted
    ensures var r := Handle(e, ev, count, c);
            && Ended(e, r, ev.orderID, c.now)
            && Released(e.ledger, r.ledger, ev.orderID) && GivenBack(e.ledger, r.ledger, ev.orderID)
            && r.ledger.provisionals == e.ledger.provisionals
            && r.counters == e.counters.(events := e.counters.events + if count then 1 else 0)
  {
    EvictReleases(e.ledger, ev.orderID);
    hide Evict, Released, GivenBack;
  }

  /** A rejection finalizes its order whether or not it was accepted, gives up the intent's provisional
      reservation and, of an accepted order, the reservation. */
  lemma RejectEnds(e: Engine, ev: ExecutionEvent, count: bool, c: Clock)
    requires Tracking(e) && ev.status == Rejected && ev.orderID != "" && ev.orderID !in e.finalized
    ensures var r := Handle(e, ev, count, c);
            && Ended(e, r, ev.orderID, c.now)
            && (ev.orderID in e.accepted ==> Released(e.ledger, r.ledger, ev.orderID))
            && (ev.orderID !in e.accepted ==> r.ledger.orders == e.ledger.orders)
            && (ev.parentOrderID != "" ==> ev.parentOrderID !in r.ledger.provisionals)
            && (forall k :: k in r.ledger.provisionals <==>
                              k in e.ledger.provisionals && (k != ev.parentOrderID || k == ""))
            && r.counters == e.counters.(events := e.counters.events + (if count then 1 else 0),
                                         rejected := e.counters.rejected + 1)
  {
    hide Handle, DropProvisional, Evict, GivenBack, Finalize, Ended;
    var l := DropProvisional(e.ledger, ev.parentOrderID);
    var e1 := Rejecting(e, ev, count);
    RejectIs(e, ev, count, c);
    EvictReleases(l, ev.orderID);
    DropProvisionalExactly(e.ledger, ev.parentOrderID);
    FinalizeEnds(e, e1, ev.orderID, c.now);
  }

  /** The engine of a rejection before it is finalized. */
  function Rejecting(e: Engine, ev: ExecutionEvent, count: bool): Engine {
    var l := DropProvisional(e.ledger, ev.parentOrderID);
    e.(ledger := if ev.orderID in e.accepted then Evict(l, ev.orderID) else l,
       counters := e.counters.(events := e.counters.events + (if count then 1 else 0),
                               rejected := e.counters.rejected + 1))
  }

  lemma RejectIs(e: Engine, ev: ExecutionEvent, count: bool, c: Clock)
    requires Tracking(e) && ev.status == Rejected && ev.orderID != "" && ev.orderID !in e.finalized
    ensures Handle(e, ev, count, c) == Finalize(Rejecting(e, ev, count), ev.orderID, c.now)
  {
    hide DropProvisional, Evict, Finalize;
  }

  /** A rejection without an order gives up the intent's provisional reservation and nothing else. */
  lemma RejectOfIntent(e: Engine, ev: ExecutionEvent, count: bool, c: Clock)
    requires Tracking(e) && ev.orderID == ""
    ensures var r := Handle(e, ev, count, c);
            && r.accepted == e.accepted && r.finalized == e.finalized && r.finalizedAt == e.finalizedAt
            && r.pending == e.pending && r.ledger.orders == e.ledger.orders
            && (ev.status != Rejected || ev.parentOrderID == "" ==> r.ledger == e.ledger)
            && (ev.status == Rejected && ev.parentOrderID != "" ==>
                  r.ledger.provisionals == e.ledger.provisionals - {ev.parentOrderID})
            && r.counters.rejected == e.counters.rejected + if ev.status == Rejected then 1 else 0
  {
    assert ev.parentOrderID !in e.ledger.provisionals ==>
             e.ledger.provisionals - {ev.parentOrderID} == e.ledger.provisionals;
  }

  /** A fill of an accepted order: it is applied with the event's own fields; a failed one changes
      nothing, a FILLED one ends the order and releases what is left. */
  lemma FillHandledExactly(e: Engine, ev: ExecutionEvent, count: bool, c: Clock)
    requires Tracking(e) && (ev.status == PartiallyFilled || ev.status == Filled)
    requires ev.orderID != "" && ev.orderID in e.accepted
    ensures var r := Handle(e, ev, count, c);
            var f := Fill(ev.orderID, ev.marketID, ev.tokenID, ev.side, ev.filledSize, ev.price);
            var taken := ApplyFill(e.ledger, f, c.today);
            var l := if ev.filledSize > 0.0 then taken.ledger else e.ledger;
            var failed := ev.filledSize > 0.0 && taken.outcome.Fail?;
            && (failed ==> r.ledger == e.ledger)
            && (failed || ev.status == PartiallyFilled ==>
                  && r.accepted == e.accepted && r.finalized == e.finalized && r.finalizedAt == e.finalizedAt
                  && r.pending == e.pending)
            && (!failed && ev.status == PartiallyFilled ==> r.ledger == l)
            && (!failed && ev.status == Filled ==>
                  && Ended(e, r, ev.orderID, c.now) && Released(l, r.ledger, ev.orderID)
                  && GivenBack(l, r.ledger, ev.orderID))
            && r.counters == e.counters.(events := e.counters.events + (if count then 1 else 0),
                                         filled := e.counters.filled + 1)
  {
    var f := Fill(ev.orderID, ev.marketID, ev.tokenID, ev.side, ev.filledSize, ev.price);
    var taken := ApplyFill(e.ledger, f, c.today);
    hide ApplyFill, Evict, Finalize, Ended, Released, GivenBack;
    FailedFillKeeps(e.ledger, f, c.today);
    var l := if ev.filledSize > 0.0 then taken.ledger else e.ledger;
    EvictReleases(l, ev.orderID);
    var n := if count then e.counters.events + 1 else e.counters.events;
    var e1 := e.(ledger := Evict(l, ev.orderID), counters := e.counters.(events := n, filled := e.counters.filled + 1));
    FinalizeEnds(e, e1, ev.orderID, c.now);
  }

  lemma FailedFillKeeps(l: Ledger, f: Fill, today: string)
    ensures ApplyFill(l, f, today).outcome.Fail? ==> ApplyFill(l, f, today).ledger == l
  {
  }

  /** A fill or cancellation of an order that is neither accepted nor over is kept behind the earlier
      ones, the entry keeping the time of its first event; nothing else happens. */
  lemma KeptExactly(e: Engine, ev: ExecutionEvent, count: bool, c: Clock)
    requires Tracking(e) && (ev.status == PartiallyFilled || ev.status == Filled || ev.status == Cancelled)
    requires ev.orderID != "" && ev.orderID !in e.accepted && ev.orderID !in e.finalized
    ensures var r := Handle(e, ev, count, c);
            var known := ev.orderID in e.pending;
            && r == e.(pending := r.pending, counters := r.counters)
            && r.pending == e.pending[ev.orderID :=
                 Pending(if known then e.pending[ev.orderID].events + [ev] else [ev],
                         if known then e.pending[ev.orderID].firstSeen else c.now)]
            && r.counters == e.counters.(events := e.counters.events + (if count then 1 else 0),
                                         buffered := e.counters.buffered + 1)
  {
    assert [] + [ev] == [ev];
  }

  /** Any other status, and any event of an order that is over, is only counted. */
  lemma IgnoredExactly(e: Engine, ev: ExecutionEvent, count: bool, c: Clock)
    requires Tracking(e) && ev.orderID != "" && (ev.status.OtherStatus? || ev.orderID in e.finalized)
    ensures Handle(e, ev, count, c)
         == e.(counters := e.counters.(events := e.counters.events + if count then 1 else 0))
  {
  }

  /** An acceptance with nothing kept: the order is accepted and attached with the event's own fields. */
  lemma AcceptHandledExactly(e: Engine, ev: ExecutionEvent, count: bool, c: Clock)
    requires Tracking(e) && ev.status == Accepted && ev.orderID != ""
    requires ev.orderID !in e.finalized && ev.orderID !in e.pending
    ensures var r := Handle(e, ev, count, c);
            && r.accepted == e.accepted + {ev.orderID} && r.finalized == e.finalized
            && r.finalizedAt == e.finalizedAt && r.pending == e.pending
            && r.ledger == Attach(e.ledger, ev.parentOrderID, ev.orderID,
                                  Terms(ev.marketID, ev.tokenID, ev.side, ev.price, ev.requestedSize)).ledger
            && r.counters == e.counters.(events := e.counters.events + (if count then 1 else 0),
                                         accepted := e.counters.accepted + 1)
  {
    hide Attach;
  }

  // ---------------------------------------------------------------- until the entry expires

  /** Ticks of the run come before the entry of an order that ended at `now` expires. */
  ghost predicate BeforeExpiry(xs: seq<Input>, now: int, ttls: TTLs) {
    forall i :: 0 <= i < |xs| && xs[i].Ticked? ==> xs[i].now - now < ttls.finalized
  }

  lemma EndedStays(e: Engine, r: Engine, xs: seq<Input>, ttls: TTLs, id: string, now: int, late: Arrival)
    requires Tracking(r) && Ended(e, r, id, now) && id != "" && BeforeExpiry(xs, now, ttls) && late.ev.orderID == id
    ensures var s := Trace(r, xs, ttls);
            && id in s.finalized && id !in s.accepted && id !in s.pending
            && Handle(s, late.ev, true, late.clock).ledger == s.ledger
            && Handle(s, late.ev, true, late.clock).accepted == s.accepted
  {
    FinalizedIsFinal(r, xs, ttls, id, late);
    hide Handle, Trace;
  }

  /** After a cancellation no later event of the order changes the ledger or revives it, at any point
      of any run, before its entry expires. */
  lemma CancelledStaysCancelled(e: Engine, cancel: Arrival, xs: seq<Input>, ttls: TTLs, late: Arrival)
    requires Tracking(e) && cancel.ev.status == Cancelled && cancel.ev.orderID != "" && cancel.ev.orderID in e.accepted
    requires BeforeExpiry(xs, cancel.clock.now, ttls) && late.ev.orderID == cancel.ev.orderID
    ensures var r := Handle(e, cancel.ev, true, cancel.clock);
            && Tracking(r) && cancel.ev.orderID !in r.ledger.orders
            && (var s := Trace(r, xs, ttls);
                && cancel.ev.orderID in s.finalized && cancel.ev.orderID !in s.accepted
                && Handle(s, late.ev, true, late.clock).ledger == s.ledger)
  {
    HandleTracks(e, cancel.ev, true, cancel.clock);
    CancelEnds(e, cancel.ev, true, cancel.clock);
    hide Handle, Trace, Ended;
    EndedStays(e, Handle(e, cancel.ev, true, cancel.clock), xs, ttls, cancel.ev.orderID, cancel.clock.now, late);
  }

  /** The same after a rejection. */
  lemma RejectedStaysRejected(e: Engine, reject: Arrival, xs: seq<Input>, ttls: TTLs, late: Arrival)
    requires Tracking(e) && reject.ev.status == Rejected && reject.ev.orderID != ""
    requires reject.ev.orderID !in e.finalized
    requires BeforeExpiry(xs, reject.clock.now, ttls) && late.ev.orderID == reject.ev.orderID
    ensures var r := Handle(e, reject.ev, true, reject.clock);
            && Tracking(r)
            && (var s := Trace(r, xs, ttls);
                && reject.ev.orderID in s.finalized && reject.ev.orderID !in s.accepted
                && Handle(s, late.ev, true, late.clock).ledger == s.ledger)
  {
    HandleTracks(e, reject.ev, true, reject.clock);
    RejectEnds(e, reject.ev, true, reject.clock);
    hide Handle, Trace, Ended;
    EndedStays(e, Handle(e, reject.ev, true, reject.clock), xs, ttls, reject.ev.orderID, reject.clock.now, late);
  }

  /** A tick keeps exactly the entries that are young enough, unchanged, and no order loses or gains
      acceptance. */
  lemma TickKeepsTheYoung(e: Engine, now: int, ttls: TTLs, drops: seq<string>, id: string)
    requires Tracking(e)
    ensures var r := Tick(e, now, ttls, drops);
            && r.accepted == e.accepted && r.ledger.orders == e.ledger.orders
            && (id in r.pending <==>
                  id in e.pending && (ttls.pending <= 0 || now < e.pending[id].firstSeen + ttls.pending))
            && (id in r.pending ==> r.pending[id] == e.pending[id])
            && (id in r.finalized <==>
                  id in e.finalized && (ttls.finalized <= 0 || now < e.finalizedAt[id] + ttls.finalized))
            && (id in r.finalized ==> r.finalizedAt[id] == e.finalizedAt[id])
            && (forall k :: k in r.ledger.provisionals <==> k in e.ledger.provisionals && k !in drops)
  {
    DropsEffect(e.ledger, drops);
    hide Run;
  }
}
