/**
 When a reservation is made and what it sets aside, told on the fields of the request and of the
 ledger; and how long a provisional one lives.
 */
module Reservations {
  import opened Core
  import opened Ledgers
  import opened Reconcile

  /** A request that can be an order: named market and token, something to trade, a price that is a
      probability, and a side. */
  predicate Proper(t: Terms) {
    && t.marketID != "" && t.tokenID != "" && t.size > 0.0 && 0.0 < t.price < 1.0
    && (t.side == BUY || t.side == SELL)
  }

  /** What it takes: cash at the limit, or the tokens. */
  function Needs(t: Terms): real {
    if t.side == BUY then t.price * t.size else t.size
  }

  /** There is enough of it, up to the tolerance. */
  predicate Enough(l: Ledger, t: Terms) {
    if t.side == BUY then l.balance.available + EPS >= t.price * t.size
    else if t.tokenID in l.tokens then l.tokens[t.tokenID].available + EPS >= t.size
    else EPS >= t.size
  }

  /** The request's need moves from available to reserved, in cash or in its token; with `floor`, a token
      is not left with less than nothing. */
  ghost predicate SetAside(l: Ledger, l': Ledger, t: Terms, floor: bool) {
    && (t.side == BUY ==>
          && l'.tokens == l.tokens
          && l'.balance == l.balance.(available := l.balance.available - t.price * t.size,
                                      reserved := l.balance.reserved + t.price * t.size))
    && (t.side == SELL ==>
          var tp := TokenAt(l.tokens, t.tokenID);
          var left := tp.available - t.size;
          && l'.balance == l.balance
          && l'.tokens == l.tokens[t.tokenID := tp.(available := if floor && left < 0.0 then 0.0 else left,
                                                    reserved := tp.reserved + t.size)])
    && l'.dailyPnL == l.dailyPnL && l'.dailyDate == l.dailyDate
  }

  lemma Commute(x: real, y: real)
    ensures x * y == y * x
  {
  }

  lemma HoldSetsAside(l: Ledger, t: Terms, floor: bool, orders: map<string, Order>,
                      provisionals: map<string, Provisional>)
    requires Proper(t)
    ensures SetAside(l, Hold(l, t, floor).(orders := orders, provisionals := provisionals), t, floor)
    ensures (Affordable(l, t).Done? <==> Enough(l, t)) && Collateral(t) == Needs(t)
  {
    Commute(t.price, t.size);
  }

  lemma ProperIff(t: Terms)
    ensures ValidateTerms(t).Done? <==> Proper(t)
  {
  }

  /** A provisional reservation is made exactly if the intent is new and named, the request is proper
      and there is enough; it records the request, what was set aside and when it lapses. */
  lemma ReserveMade(l: Ledger, intentID: string, t: Terms, now: int, ttl: int)
    ensures var r := TryReserve(l, intentID, t, now, ttl);
            && (r.outcome.Done? <==> intentID != "" && Proper(t) && intentID !in l.provisionals && Enough(l, t))
            && (r.outcome.Fail? ==> r.ledger == l)
            && (r.outcome.Done? ==>
                  && SetAside(l, r.ledger, t, true) && r.ledger.orders == l.orders
                  && r.ledger.provisionals
                     == l.provisionals[intentID :=
                          Provisional(intentID, t, Needs(t), now, if ttl > 0 then now + ttl else now + 5_000_000_000)])
  {
    ProperIff(t);
    if Proper(t) {
      var r := TryReserve(l, intentID, t, now, ttl);
      HoldSetsAside(l, t, true, l.orders, r.ledger.provisionals);
    }
    hide ValidateTerms, Proper, Hold, Affordable, Collateral, Needs, Enough, SetAside;
  }

  /** Why a reservation is refused, in the order the reasons are looked for. */
  lemma ReserveRefused(l: Ledger, intentID: string, t: Terms, now: int, ttl: int)
    ensures var out := TryReserve(l, intentID, t, now, ttl).outcome;
            && (out == Fail(EmptyID) <==> intentID == "")
            && (intentID != "" ==> (out == Fail(InvalidMarket) <==> t.marketID == ""))
            && (intentID != "" && t.marketID != "" ==> (out == Fail(InvalidToken) <==> t.tokenID == ""))
            && (intentID != "" && t.marketID != "" && t.tokenID != "" ==> (out == Fail(InvalidSize) <==> t.size <= 0.0))
            && (intentID != "" && t.marketID != "" && t.tokenID != "" && t.size > 0.0 ==>
                  (out == Fail(InvalidPrice) <==> t.price <= 0.0 || t.price >= 1.0))
            && (intentID != "" && Proper(t) ==>
                  && (out == Fail(IntentAlreadyReserved) <==> intentID in l.provisionals)
                  && (out == Fail(InsufficientBalance) <==>
                        intentID !in l.provisionals && t.side == BUY && !Enough(l, t))
                  && (out == Fail(InsufficientPosition) <==>
                        intentID !in l.provisionals && t.side == SELL && !Enough(l, t)))
  {
    hide Hold;
  }

  /** An order reservation with an intent whose provisional reservation is live takes that over as it
      is; otherwise it is made afresh, exactly if there is enough. */
  lemma AttachMade(l: Ledger, intentID: string, orderID: string, t: Terms)
    requires orderID != "" && Proper(t) && orderID !in l.orders
    ensures var r := Attach(l, intentID, orderID, t);
            && (intentID != "" && intentID in l.provisionals ==>
                  var v := l.provisionals[intentID];
                  && r.outcome.Done?
                  && r.ledger == l.(provisionals := l.provisionals - {intentID},
                                    orders := l.orders[orderID := Order(orderID, v.terms, v.reserved, false)]))
            && (intentID == "" || intentID !in l.provisionals ==>
                  && (r.outcome.Done? <==> Enough(l, t))
                  && (r.outcome.Fail? ==> r.ledger == l)
                  && (r.outcome.Done? ==>
                        && SetAside(l, r.ledger, t, true) && r.ledger.provisionals == l.provisionals
                        && r.ledger.orders == l.orders[orderID := Order(orderID, t, Needs(t), false)]))
  {
    ProperIff(t);
    HoldSetsAside(l, t, true, l.orders[orderID := Order(orderID, t, Needs(t), false)], l.provisionals);
    hide ValidateTerms, Proper, Hold, Affordable, Collateral, Needs, Enough, SetAside;
  }

  /** An improper request attaches nothing. */
  lemma AttachRefused(l: Ledger, intentID: string, orderID: string, t: Terms)
    requires orderID == "" || !Proper(t)
    ensures Attach(l, intentID, orderID, t).outcome.Fail? && Attach(l, intentID, orderID, t).ledger == l
    ensures AttachExternal(l, orderID, t).outcome.Fail? && AttachExternal(l, orderID, t).ledger == l
  {
  }

  /** An order from outside: left alone if known, made without the floor if there is enough. */
  lemma AttachExternalMade(l: Ledger, orderID: string, t: Terms)
    requires orderID != "" && Proper(t)
    ensures var r := AttachExternal(l, orderID, t);
            && (r.outcome.Done? <==> orderID in l.orders || Enough(l, t))
            && (orderID in l.orders || r.outcome.Fail? ==> r.ledger == l)
            && (orderID !in l.orders && r.outcome.Done? ==>
                  && SetAside(l, r.ledger, t, false) && r.ledger.provisionals == l.provisionals
                  && r.ledger.orders == l.orders[orderID := Order(orderID, t, Needs(t), true)])
  {
    ProperIff(t);
    HoldSetsAside(l, t, false, l.orders[orderID := Order(orderID, t, Needs(t), true)], l.provisionals);
    hide ValidateTerms, Proper, Hold, Affordable, Collateral, Needs, Enough, SetAside;
  }

  /** A confirmation succeeds exactly if the intent or the order is known; a live provisional reservation
      becomes the order's unless the order has one. */
  lemma ConfirmMade(l: Ledger, intentID: string, orderID: string)
    ensures var r := Confirm(l, intentID, orderID);
            && (r.outcome.Done? <==>
                  intentID != "" && orderID != "" && (intentID in l.provisionals || orderID in l.orders))
            && (r.outcome.Fail? || intentID !in l.provisionals ==> r.ledger == l)
            && (r.outcome.Done? && intentID in l.provisionals ==>
                  var v := l.provisionals[intentID];
                  && r.ledger.provisionals == l.provisionals - {intentID}
                  && (orderID in l.orders ==> r.ledger.orders == l.orders)
                  && (orderID !in l.orders ==>
                        && r.ledger.orders == l.orders[orderID := Order(orderID, v.terms, v.reserved, false)]
                        && r.ledger.balance == l.balance && r.ledger.tokens == l.tokens))
  {
    hide Unhold;
  }

  /** Dropping a provisional reservation gives back the whole amount it held. */
  lemma UnprovisionGivesBack(l: Ledger, intentID: string)
    ensures var l' := Unprovision(l, intentID);
            && l'.orders == l.orders && l'.provisionals == l.provisionals - {intentID}
            && (intentID !in l.provisionals ==> l' == l)
            && (intentID in l.provisionals ==>
                  var v := l.provisionals[intentID];
                  var tp := TokenAt(l.tokens, v.terms.tokenID);
                  && (v.terms.side == BUY ==>
                        && l'.tokens == l.tokens && l'.balance.available == l.balance.available + v.reserved
                        && (l.balance.reserved >= v.reserved ==> l'.balance.reserved == l.balance.reserved - v.reserved)
                        && (l.balance.reserved < v.reserved ==> l'.balance.reserved == 0.0))
                  && (v.terms.side == SELL ==>
                        && l'.balance == l.balance
                        && l'.tokens == l.tokens[v.terms.tokenID :=
                             tp.(available := tp.available + v.reserved,
                                 reserved := if tp.reserved >= v.reserved then tp.reserved - v.reserved else 0.0)]))
  {
    assert intentID !in l.provisionals ==> l.provisionals - {intentID} == l.provisionals;
  }

  // ---------------------------------------------------------------- how long it lives

  /** A sweep drops a provisional reservation, whatever happened to the ledger in between, exactly if
      its time to live has passed since it was made; without one, that is five seconds. */
  lemma LivesUntilItsTime(l: Ledger, intentID: string, t: Terms, now: int, ttl: int, later: Ledger, n: int,
                          drops: seq<string>)
    requires TryReserve(l, intentID, t, now, ttl).outcome.Done?
    requires intentID in later.provisionals
    requires later.provisionals[intentID] == TryReserve(l, intentID, t, now, ttl).ledger.provisionals[intentID]
    requires Lists(drops, ExpiredAt(later, n))
    ensures intentID !in Run(later, Drops(drops)).provisionals <==> n - now >= if ttl > 0 then ttl else 5_000_000_000
  {
    ReserveMade(l, intentID, t, now, ttl);
    hide TryReserve, Run;
    DropsEffect(later, drops);
  }

  /** A restore stores exactly the open orders with an id, and charges what they hold. */
  lemma LoadCharges(l: Ledger, o: Order)
    ensures var l' := LoadOrder(l, o);
            var held := if o.reserved > 0.0 then o.reserved else 0.0;
            var tp := TokenAt(l.tokens, o.terms.tokenID);
            && (o.orderID == "" || o.terms.size <= 0.0 ==> l' == l)
            && (o.orderID != "" && o.terms.size > 0.0 ==>
                  && l'.orders == l.orders[o.orderID := o.(reserved := held)] && l'.provisionals == l.provisionals
                  && (o.terms.side == BUY ==>
                        && l'.tokens == l.tokens
                        && l'.balance == l.balance.(available := l.balance.available - held,
                                                    reserved := l.balance.reserved + held))
                  && (o.terms.side == SELL ==>
                        && l'.balance == l.balance
                        && l'.tokens == l.tokens[o.terms.tokenID := tp.(available := tp.available - held,
                                                                        reserved := tp.reserved + held)]))
  {
  }
}
