/**
 Daily profit is booked under the date of handling, so events kept over midnight may be booked under
 another date than they would have been on arrival. This module says exactly when that shows.
 */
module Midnights {
  import opened Core
  import opened Ledgers
  import opened Engines

  /** Daily profit and its date. */
  datatype Day = Day(pnl: real, date: string)

  function DayOf(l: Ledger): Day {
    Day(l.dailyPnL, l.dailyDate)
  }

  /** A realized profit and the date it is booked under. */
  datatype Booking = Booking(profit: real, date: string)

  /** What a day still counts for on `date`. */
  function Carry(d: Day, date: string): real {
    if d.date == date then d.pnl else 0.0
  }

  function Book(d: Day, b: Booking): Day {
    Day(Carry(d, b.date) + b.profit, b.date)
  }

  function BookAll(d: Day, bs: seq<Booking>): Day {
    if bs == [] then d else Book(BookAll(d, bs[..|bs| - 1]), bs[|bs| - 1])
  }

  function Redated(bs: seq<Booking>, date: string): seq<Booking> {
    seq(|bs|, i requires 0 <= i < |bs| => bs[i].(date := date))
  }

  function Profit(bs: seq<Booking>): real {
    if bs == [] then 0.0 else Profit(bs[..|bs| - 1]) + bs[|bs| - 1].profit
  }

  /** The profit of the last bookings that share `date`, back to the opening amount if all do. */
  function Trailing(d: Day, bs: seq<Booking>, date: string): real {
    if bs == [] then Carry(d, date)
    else if bs[|bs| - 1].date != date then 0.0
    else Trailing(d, bs[..|bs| - 1], date) + bs[|bs| - 1].profit
  }

  lemma {:induction false} BookAllConcat(d: Day, a: seq<Booking>, b: seq<Booking>)
    ensures BookAll(d, a + b) == BookAll(BookAll(d, a), b)
    decreases |b|
  {
    if b == [] {
      assert a + b == a;
    } else {
      assert (a + b)[..|a + b| - 1] == a + b[..|b| - 1];
      BookAllConcat(d, a, b[..|b| - 1]);
    }
  }

  lemma {:induction false} CarryIsTrailing(d: Day, bs: seq<Booking>, date: string)
    ensures Carry(BookAll(d, bs), date) == Trailing(d, bs, date)
    ensures bs != [] ==> BookAll(d, bs).date == bs[|bs| - 1].date
  {
    if bs == [] {
    } else {
      CarryIsTrailing(d, bs[..|bs| - 1], date);
    }
  }

  lemma {:induction false} RedatedDay(d: Day, bs: seq<Booking>, date: string)
    requires bs != []
    ensures BookAll(d, Redated(bs, date)) == Day(Carry(d, date) + Profit(bs), date)
  {
    var n := |bs| - 1;
    assert Redated(bs, date)[..n] == Redated(bs[..n], date);
    if n > 0 { RedatedDay(d, bs[..n], date); }
  }

  ghost predicate AllDated(bs: seq<Booking>, date: string) {
    forall i :: 0 <= i < |bs| ==> bs[i].date == date
  }

  /** Bookings on one date keep a difference; a change of date clears it. */
  lemma {:induction false} DifferenceKept(x: Day, y: Day, bs: seq<Booking>)
    ensures BookAll(x, bs) == BookAll(y, bs) <==>
              if bs == [] then x == y
              else !AllDated(bs, bs[0].date) || Carry(x, bs[0].date) == Carry(y, bs[0].date)
    ensures bs != [] && AllDated(bs, bs[0].date) ==>
              BookAll(x, bs).pnl - BookAll(y, bs).pnl == Carry(x, bs[0].date) - Carry(y, bs[0].date)
  {
    if |bs| > 1 {
      var n := |bs| - 1;
      var front := bs[..n];
      assert forall i :: 0 <= i < n ==> front[i] == bs[i];
      DifferenceKept(x, y, front);
      CarryIsTrailing(x, front, bs[n].date);
      CarryIsTrailing(y, front, bs[n].date);
      assert BookAll(x, front).date == BookAll(y, front).date == bs[n - 1].date;
      if AllDated(front, bs[0].date) {
        assert AllDated(bs, bs[0].date) <==> bs[n].date == bs[n - 1].date;
      }
    } else if |bs| == 1 {
      assert bs[..0] == [];
    }
  }

  // ---------------------------------------------------------------- what events book

  /** What a SELL fill realizes on a position. */
  function Realized(o: Order, tp: TokenPosition, f: Fill): real {
    (FillPrice(o, f) - tp.avgCost) * f.size
  }

  /** The profit an event of a known order books, under the given date. */
  function BookingsOf(e: Engine, ev: ExecutionEvent, date: string): seq<Booking> {
    var f := EventFill(ev);
    if ev.orderID in e.accepted && ev.orderID !in e.finalized && ev.IsFill() && ev.filledSize > 0.0
       && FillOutcome(e.ledger, f).Done? && f.side.SELL? && TokenAt(e.ledger.tokens, f.tokenID).avgCostKnown
    then
      [Booking(Realized(e.ledger.orders[f.orderID], TokenAt(e.ledger.tokens, f.tokenID), f), date)]
    else []
  }

  /** The profits a sequence of arrivals books. */
  function Bookings(e: Engine, arrivals: seq<Arrival>): seq<Booking>
    requires PendingDeferrable(e)
    decreases |arrivals|
  {
    if arrivals == [] then []
    else
      var x := arrivals[0];
      BookingsOf(e, x.ev, x.clock.today) + Bookings(Handle(e, x.ev, true, x.clock), arrivals[1..])
  }

  lemma FillBooks(l: Ledger, f: Fill, today: string)
    requires FillOutcome(l, f).Done?
    ensures DayOf(ApplyFill(l, f, today).ledger)
         == if f.side.SELL? && TokenAt(l.tokens, f.tokenID).avgCostKnown
            then Book(DayOf(l), Booking(Realized(l.orders[f.orderID], TokenAt(l.tokens, f.tokenID), f), today))
            else DayOf(l)
  {
    hide FillPrice, Consumed, AverageIn, AfterFill;
  }

  lemma EvictKeepsDay(l: Ledger, id: string)
    ensures DayOf(Evict(l, id)) == DayOf(l)
  {
  }

  lemma BookOne(d: Day, b: Booking)
    ensures BookAll(d, [b]) == Book(d, b) && BookAll(d, []) == d
  {
    assert [b][..0] == [];
  }

  lemma HandleFillBooks(e: Engine, ev: ExecutionEvent, c: Clock)
    requires ev.orderID in e.accepted && ev.orderID !in e.finalized && ev.IsFill()
    ensures DayOf(HandleFill(e, ev, c).ledger) == BookAll(DayOf(e.ledger), BookingsOf(e, ev, c.today))
  {
    var f := EventFill(ev);
    var l' := ApplyFill(e.ledger, f, c.today).ledger;
    if FillOutcome(e.ledger, f).Done? {
      FillBooks(e.ledger, f, c.today);
      BookOne(DayOf(e.ledger),
              Booking(Realized(e.ledger.orders[f.orderID], TokenAt(e.ledger.tokens, f.tokenID), f), c.today));
    }
    EvictKeepsDay(l', ev.orderID);
    EvictKeepsDay(e.ledger, ev.orderID);
    hide FillOutcome, Realized, BookFill, AfterFill, Evict, Book;
  }

  /** An event of a known order books exactly its own profit. */
  lemma HandleBooks(e: Engine, ev: ExecutionEvent, count: bool, c: Clock)
    requires PendingDeferrable(e) && Deferrable(ev) && ev.orderID != "" && Known(e, ev.orderID)
    ensures DayOf(Handle(e, ev, count, c).ledger) == BookAll(DayOf(e.ledger), BookingsOf(e, ev, c.today))
  {
    hide Realized;
    var e0 := if count then e.(counters := e.counters.(events := e.counters.events + 1)) else e;
    if ev.orderID in e.accepted && ev.orderID !in e.finalized {
      assert BookingsOf(e0, ev, c.today) == BookingsOf(e, ev, c.today);
      if ev.IsFill() {
        HandleFillBooks(e0, ev, c);
        hide BookingsOf, BookAll, HandleFill;
      } else {
        EvictKeepsDay(e.ledger, ev.orderID);
        hide Evict;
      }
    }
  }

  /** Engines that differ in daily profit only book the same profits. */
  lemma SameBookings(a: Engine, b: Engine, ev: ExecutionEvent, date: string)
    requires Same(a, b, false)
    ensures BookingsOf(a, ev, date) == BookingsOf(b, ev, date)
  {
    hide Realized;
  }

  lemma {:induction false} HandleAllBooks(e: Engine, arrivals: seq<Arrival>, id: string)
    requires PendingDeferrable(e) && DeferrableFor(arrivals, id) && id != "" && Known(e, id)
    ensures DayOf(HandleAll(e, arrivals).ledger) == BookAll(DayOf(e.ledger), Bookings(e, arrivals))
    ensures Known(HandleAll(e, arrivals), id)
    decreases |arrivals|
  {
    hide Handle, BookingsOf, DayOf;
    if arrivals == [] {
    } else {
      var x := arrivals[0];
      var e1 := Handle(e, x.ev, true, x.clock);
      HandleBooks(e, x.ev, true, x.clock);
      HandleKnown(e, e, x.ev, true, true, x.clock, x.clock, true);
      HandleAllBooks(e1, arrivals[1..], id);
      BookAllConcat(DayOf(e.ledger), BookingsOf(e, x.ev, x.clock.today), Bookings(e1, arrivals[1..]));
    }
  }

  lemma RedatedConcat(a: seq<Booking>, b: seq<Booking>, date: string)
    ensures Redated(a + b, date) == Redated(a, date) + Redated(b, date)
  {
  }

  lemma RedatedOf(e: Engine, ev: ExecutionEvent, d1: string, d2: string)
    ensures Redated(BookingsOf(e, ev, d1), d2) == BookingsOf(e, ev, d2)
  {
  }

  /** Replayed events book the same profits, all under the date of the replay. */
  lemma {:induction false} ReplayBooks(a: Engine, b: Engine, arrivals: seq<Arrival>, id: string, c: Clock)
    requires PendingDeferrable(a) && PendingDeferrable(b) && Same(a, b, false)
    requires DeferrableFor(arrivals, id) && id != "" && Known(a, id)
    requires forall i :: 0 <= i < |EventsOf(arrivals)| ==> Deferrable(EventsOf(arrivals)[i])
    ensures DayOf(Replay(a, EventsOf(arrivals), c).ledger)
              == BookAll(DayOf(a.ledger), Redated(Bookings(b, arrivals), c.today))
    decreases |arrivals|
  {
    hide Handle, BookingsOf, DayOf, Same, Redated;
    if arrivals == [] {
      RedatedNone(c.today);
    } else {
      var x, rest := arrivals[0], arrivals[1..];
      var a1, b1 := Handle(a, x.ev, false, c), Handle(b, x.ev, true, x.clock);
      assert EventsOf(arrivals)[1..] == EventsOf(rest);
      HandleBooks(a, x.ev, false, c);
      HandleKnown(a, b, x.ev, false, true, c, x.clock, false);
      SameBookings(a, b, x.ev, c.today);
      RedatedOf(b, x.ev, x.clock.today, c.today);
      ReplayBooks(a1, b1, rest, id, c);
      RedatedConcat(BookingsOf(b, x.ev, x.clock.today), Bookings(b1, rest), c.today);
      BookAllConcat(DayOf(a.ledger), BookingsOf(a, x.ev, c.today), Redated(Bookings(b1, rest), c.today));
    }
  }

  lemma RedatedNone(date: string)
    ensures Redated([], date) == []
  {
  }

  // ---------------------------------------------------------------- early events

  /** The order is accepted, with nothing kept for it yet. */
  ghost predicate NewOrder(e: Engine, accept: Arrival) {
    && PendingDeferrable(e) && accept.ev.status.Accepted? && accept.ev.orderID != ""
    && !Known(e, accept.ev.orderID) && accept.ev.orderID !in e.pending
  }

  lemma AttachKeepsDay(l: Ledger, intentID: string, orderID: string, t: Terms)
    ensures DayOf(Attach(l, intentID, orderID, t).ledger) == DayOf(l)
  {
  }

  /** The day after a late acceptance, and after a prompt one. */
  lemma LateDay(e: Engine, accept: Arrival, early: seq<Arrival>)
    requires NewOrder(e, accept) && DeferrableFor(early, accept.ev.orderID)
    ensures var prompt := Handle(e, accept.ev, true, accept.clock);
            var bs := Bookings(prompt, early);
            && Known(prompt, accept.ev.orderID)
            && DayOf(prompt.ledger) == DayOf(e.ledger)
            && DayOf(HandleAll(prompt, early).ledger) == BookAll(DayOf(e.ledger), bs)
            && DayOf(Handle(HandleAll(e, early), accept.ev, true, accept.clock).ledger)
               == BookAll(DayOf(e.ledger), Redated(bs, accept.clock.today))
  {
    hide Attach, Handle, Replay, EventsOf, HandleAll, BookAll, Bookings, Redated;
    var id := accept.ev.orderID;
    var kept := HandleAll(e, early);
    EarlyEventsKept(e, early, id);
    assert e.pending - {id} == e.pending;
    AcceptOne(e, accept);
    AcceptOne(kept, accept);
    AttachKeepsDay(e.ledger, accept.ev.parentOrderID, id, EventTerms(accept.ev));
    var prompt := Handle(e, accept.ev, true, accept.clock);
    HandleAllBooks(prompt, early, id);
    if early != [] {
      var taken := Accept(kept.(counters := kept.counters.(events := kept.counters.events + 1)), accept.ev);
      var taken' := taken.(pending := taken.pending - {id});
      EventsDeferrable(early, id);
      ReplayBooks(taken', prompt, early, id, accept.clock);
    } else {
      NothingBooked(prompt, DayOf(e.ledger), accept.clock.today);
    }
  }

  lemma EventsDeferrable(arrivals: seq<Arrival>, id: string)
    requires DeferrableFor(arrivals, id)
    ensures forall i :: 0 <= i < |EventsOf(arrivals)| ==> Deferrable(EventsOf(arrivals)[i])
  {
  }

  lemma NothingBooked(e: Engine, d: Day, date: string)
    requires PendingDeferrable(e)
    ensures Bookings(e, []) == [] && Redated([], date) == [] && BookAll(d, []) == d
  {
  }

  /** Late and prompt acceptance end with the same daily profit exactly if this holds of the profits
      booked by the early events (`es`, under their own dates) and by the later ones (`rs`), where
      `date` is the date of the acceptance and `d` the day before. */
  ghost predicate Unnoticed(d: Day, es: seq<Booking>, rs: seq<Booking>, date: string) {
    || es == []
    || (rs != [] && !AllDated(rs, rs[0].date))
    || (rs == [] && es[|es| - 1].date == date && Trailing(d, es, date) == Carry(d, date) + Profit(es))
    || (rs != [] && Trailing(d, es, rs[0].date) == if rs[0].date == date then Carry(d, date) + Profit(es) else 0.0)
  }

  lemma UnnoticedIff(d: Day, es: seq<Booking>, rs: seq<Booking>, date: string)
    ensures BookAll(BookAll(d, Redated(es, date)), rs) == BookAll(BookAll(d, es), rs) <==> Unnoticed(d, es, rs, date)
  {
    var x, y := BookAll(d, Redated(es, date)), BookAll(d, es);
    DifferenceKept(x, y, rs);
    if es == [] {
      RedatedNone(date);
    } else {
      RedatedDay(d, es, date);
      CarryIsTrailing(d, es, date);
      if rs != [] { CarryIsTrailing(d, es, rs[0].date); }
    }
    hide BookAll, Trailing, Redated, Profit;
  }

  /** Buffering, exactly: moving the acceptance of a new order behind `i` of its events gives the same
      ledger, daily profit included, if and only if the change of date goes unnoticed. */
  lemma BufferingExact(e: Engine, accept: Arrival, arrivals: seq<Arrival>, i: nat)
    requires NewOrder(e, accept) && DeferrableFor(arrivals, accept.ev.orderID) && i <= |arrivals|
    ensures var prompt := Handle(e, accept.ev, true, accept.clock);
            var es, rs := Bookings(prompt, arrivals[..i]), Bookings(HandleAll(prompt, arrivals[..i]), arrivals[i..]);
            HandleAll(e, arrivals[..i] + [accept] + arrivals[i..]).ledger == HandleAll(e, [accept] + arrivals).ledger
            <==> Unnoticed(DayOf(e.ledger), es, rs, accept.clock.today)
  {
    hide Handle, HandleAll, Bookings, Redated, BookAll, Unnoticed, PendingDeferrable, Deferrable;
    var id, early, rest := accept.ev.orderID, arrivals[..i], arrivals[i..];
    var prompt := Handle(e, accept.ev, true, accept.clock);
    var a, b := Handle(HandleAll(e, early), accept.ev, true, accept.clock), HandleAll(prompt, early);
    SplitArrivals(e, accept, early, rest);
    PromptSplit(e, accept, early, rest);
    assert early + rest == arrivals;
    LateDay(e, accept, early);
    LateAcceptance(e, accept, early, false);
    RestBooks(a, b, rest, id);
    UnnoticedIff(DayOf(e.ledger), Bookings(prompt, early), Bookings(b, rest), accept.clock.today);
    HandleAllKnown(a, b, rest, id, false);
    SameBooksDay(HandleAll(a, rest).ledger, HandleAll(b, rest).ledger);
  }

  lemma PromptSplit(e: Engine, accept: Arrival, early: seq<Arrival>, rest: seq<Arrival>)
    requires PendingDeferrable(e)
    ensures HandleAll(e, [accept] + (early + rest))
         == HandleAll(HandleAll(Handle(e, accept.ev, true, accept.clock), early), rest)
  {
    hide Handle, HandleAll;
    SplitArrivals(e, accept, [], early + rest);
    assert [] + [accept] + (early + rest) == [accept] + (early + rest);
    HandleNone(e);
    HandleAllConcat(Handle(e, accept.ev, true, accept.clock), early, rest);
  }

  lemma SameBooksDay(a: Ledger, b: Ledger)
    requires SameBooks(a, b)
    ensures a == b <==> DayOf(a) == DayOf(b)
  {
  }

  lemma {:induction false} RestBooks(a: Engine, b: Engine, rest: seq<Arrival>, id: string)
    requires PendingDeferrable(a) && PendingDeferrable(b) && Same(a, b, false)
    requires DeferrableFor(rest, id) && id != "" && Known(a, id)
    ensures DayOf(HandleAll(a, rest).ledger) == BookAll(DayOf(a.ledger), Bookings(b, rest))
    ensures DayOf(HandleAll(b, rest).ledger) == BookAll(DayOf(b.ledger), Bookings(b, rest))
  {
    HandleAllBooks(a, rest, id);
    HandleAllBooks(b, rest, id);
    BookingsAgree(a, b, rest, id);
    hide HandleAll, BookAll, Bookings;
  }

  lemma {:induction false} BookingsAgree(a: Engine, b: Engine, rest: seq<Arrival>, id: string)
    requires PendingDeferrable(a) && PendingDeferrable(b) && Same(a, b, false)
    requires DeferrableFor(rest, id) && id != "" && Known(a, id)
    ensures Bookings(a, rest) == Bookings(b, rest)
    decreases |rest|
  {
    hide Handle, BookingsOf, Same;
    if rest == [] {
    } else {
      var x := rest[0];
      SameBookings(a, b, x.ev, x.clock.today);
      HandleKnown(a, b, x.ev, true, true, x.clock, x.clock, false);
      BookingsAgree(Handle(a, x.ev, true, x.clock), Handle(b, x.ev, true, x.clock), rest[1..], id);
    }
  }

  /** If any early event books a profit, a late acceptance dates the day by itself and a prompt one by
      the last early booking: unless the two dates are equal, the ledgers differ. */
  lemma LastEarlyBookingShows(e: Engine, accept: Arrival, early: seq<Arrival>)
    requires NewOrder(e, accept) && DeferrableFor(early, accept.ev.orderID)
    ensures var bs := Bookings(Handle(e, accept.ev, true, accept.clock), early);
            bs != [] ==>
              && HandleAll(e, early + [accept]).ledger.dailyDate == accept.clock.today
              && HandleAll(e, [accept] + early).ledger.dailyDate == bs[|bs| - 1].date
  {
    hide Handle, HandleAll, Bookings, BookAll, Redated, PendingDeferrable, Deferrable;
    LateDay(e, accept, early);
    HandleAllSnoc(e, early, accept);
    SplitArrivals(e, accept, [], early);
    assert [] + [accept] + early == [accept] + early;
    HandleNone(e);
    var bs := Bookings(Handle(e, accept.ev, true, accept.clock), early);
    if bs != [] {
      CarryIsTrailing(DayOf(e.ledger), bs, accept.clock.today);
      RedatedDay(DayOf(e.ledger), bs, accept.clock.today);
    }
  }

  // ---------------------------------------------------------------- an instance

  const HOLDING := Ledger(Balance(0.0, 0.0, 0.0), map["t" := TokenPosition(2.0, 0.0, 0.25, true, 2.0)],
                          map[], map[], 0.0, "")
  const HOLDER := Engine(HOLDING, {}, {}, map[], map[], Counters(0, 0, 0, 0, 0, 0))
  const ACCEPT := Arrival(ExecutionEvent("o", "", "m", "t", 0.5, SELL, 2.0, 0.0, Accepted, ""), Clock(2, "d2"))
  const FILL := Arrival(ExecutionEvent("o", "", "m", "t", 0.5, SELL, 2.0, 2.0, Filled, ""), Clock(1, "d1"))

  lemma SellAttached()
    ensures var l := Attach(HOLDING, "", "o", EventTerms(ACCEPT.ev)).ledger;
            && "o" in l.orders && l.orders["o"].terms == Terms("m", "t", SELL, 0.5, 2.0)
            && "t" in l.tokens && l.tokens["t"].avgCostKnown
  {
  }

  lemma SellBooked()
    requires PendingDeferrable(HOLDER)
    ensures var bs := Bookings(Handle(HOLDER, ACCEPT.ev, true, ACCEPT.clock), [FILL]);
            |bs| == 1 && bs[0].date == "d1"
  {
    hide Attach, Realized;
    SellAttached();
    AcceptOne(HOLDER, ACCEPT);
    var prompt := Handle(HOLDER, ACCEPT.ev, true, ACCEPT.clock);
    var bs := BookingsOf(prompt, FILL.ev, "d1");
    assert |bs| == 1 && bs[0].date == "d1";
    hide Handle, BookingsOf;
    assert [FILL][1..] == [];
    assert Bookings(Handle(prompt, FILL.ev, true, FILL.clock), []) == [];
  }

  lemma HolderReady()
    ensures NewOrder(HOLDER, ACCEPT) && DeferrableFor([FILL], ACCEPT.ev.orderID)
  {
  }

  /** A known-cost SELL, filled on "d1" before its acceptance on "d2": kept, it is booked on "d2". */
  lemma KeptOverMidnight()
    ensures PendingDeferrable(HOLDER)
    ensures HandleAll(HOLDER, [FILL] + [ACCEPT]).ledger.dailyDate == "d2"
    ensures HandleAll(HOLDER, [ACCEPT] + [FILL]).ledger.dailyDate == "d1"
  {
    HolderReady();
    SellBooked();
    hide Handle, HandleAll, Bookings, DeferrableFor, BookAll;
    LastEarlyBookingShows(HOLDER, ACCEPT, [FILL]);
  }
}
