/**
 Every order is acknowledged twice: by the websocket, which does not know the intent, and by the
 HTTP response, which does. The two may arrive in either order.
 */
module Acknowledgements {
  import opened Core
  import opened Ledgers
  import opened Books
  import opened Engines

  /** A live provisional reservation that `t` was made from. */
  predicate Provisioned(l: Ledger, intentID: string, t: Terms) {
    && intentID != "" && intentID in l.provisionals
    && l.provisionals[intentID].terms == t && l.provisionals[intentID].reserved == Collateral(t)
  }

  /** The tokens a SELL gains when the websocket reserves a second time and the first reservation
      is then given back: only what the second one could not take. */
  function Slack(l: Ledger, t: Terms): real {
    if t.side.SELL? && Affordable(l, t).Done? then Shortfall(l, t, Token(t.tokenID)) else 0.0
  }

  /** `l` with `amount` more of the token available. */
  function Credit(l: Ledger, tokenID: string, amount: real): Ledger {
    if amount == 0.0 then l
    else
      var tp := TokenAt(l.tokens, tokenID);
      l.(tokens := l.tokens[tokenID := tp.(available := tp.available + amount)])
  }

  /** Ledgers that agree when absent tokens read as empty positions. */
  ghost predicate SameLedger(a: Ledger, b: Ledger) {
    && a.balance == b.balance && a.orders == b.orders && a.provisionals == b.provisionals
    && a.dailyPnL == b.dailyPnL && a.dailyDate == b.dailyDate
    && (forall t :: TokenAt(a.tokens, t) == TokenAt(b.tokens, t))
  }

  /** HTTP first: the provisional reservation becomes the order, and the websocket adds nothing. */
  lemma HttpFirst(l: Ledger, intentID: string, orderID: string, t: Terms)
    requires Provisioned(l, intentID, t) && ValidateOrder(orderID, t).Done? && orderID !in l.orders
    ensures Attach(Attach(l, intentID, orderID, t).ledger, "", orderID, t).ledger
         == l.(provisionals := l.provisionals - {intentID},
               orders := l.orders[orderID := Order(orderID, t, Collateral(t), false)])
  {
  }

  /** Websocket first: whether or not the second reservation fits, the same order results. */
  lemma SocketFirst(l: Ledger, intentID: string, orderID: string, t: Terms)
    requires Provisioned(l, intentID, t) && ValidateOrder(orderID, t).Done? && orderID !in l.orders
    requires forall p :: Reserved(l, p) >= 0.0
    ensures SameLedger(
              Attach(Attach(l, "", orderID, t).ledger, intentID, orderID, t).ledger,
              Credit(l, t.tokenID, Slack(l, t)).(
                provisionals := l.provisionals - {intentID},
                orders := l.orders[orderID := Order(orderID, t, Collateral(t), false)]))
  {
    assert Reserved(l, Cash) >= 0.0 && Reserved(l, Token(t.tokenID)) >= 0.0;
  }

  /** The two acknowledgements in either order: same tracking, same counters, same ledger for a
      BUY; for a SELL the websocket-first order leaves at most EPS more of the token available,
      and nothing more when the second reservation is fully covered or does not fit at all. */
  lemma AcknowledgementsCommute(e: Engine, socket: Arrival, http: Arrival, intentID: string)
    requires PendingDeferrable(e)
    requires socket.ev.status.Accepted? && socket.ev.parentOrderID == ""
    requires http.ev == socket.ev.(parentOrderID := intentID)
    requires ValidateOrder(socket.ev.orderID, EventTerms(socket.ev)).Done?
    requires Provisioned(e.ledger, intentID, EventTerms(socket.ev))
    requires socket.ev.orderID !in e.ledger.orders && socket.ev.orderID !in e.finalized
    requires socket.ev.orderID !in e.pending
    requires forall p :: Reserved(e.ledger, p) >= 0.0
    ensures var t := EventTerms(socket.ev);
            var a := HandleAll(e, [socket, http]);
            var b := HandleAll(e, [http, socket]);
            && a.(ledger := b.ledger) == b
            && SameLedger(a.ledger, Credit(b.ledger, t.tokenID, Slack(e.ledger, t)))
            && 0.0 <= Slack(e.ledger, t) <= EPS
            && (Slack(e.ledger, t) > 0.0 <==>
                  t.side.SELL? && t.size - EPS <= Available(e.ledger, Token(t.tokenID)) < t.size)
  {
    hide Attach, HandleAll, Handle, Credit, Slack, SameLedger, Provisioned, PendingDeferrable;
    var id, t := socket.ev.orderID, EventTerms(socket.ev);
    assert EventTerms(http.ev) == t;
    SlackBounds(e.ledger, t);
    AttachmentsCommute(e.ledger, intentID, id, t);
    HandleTwo(e, socket, http);
    HandleTwo(e, http, socket);
  }

  lemma SlackBounds(l: Ledger, t: Terms)
    ensures 0.0 <= Slack(l, t) <= EPS
    ensures Slack(l, t) > 0.0 <==> t.side.SELL? && t.size - EPS <= Available(l, Token(t.tokenID)) < t.size
  {
  }

  /** The two attachments in either order. */
  lemma AttachmentsCommute(l: Ledger, intentID: string, orderID: string, t: Terms)
    requires Provisioned(l, intentID, t) && ValidateOrder(orderID, t).Done? && orderID !in l.orders
    requires forall p :: Reserved(l, p) >= 0.0
    ensures SameLedger(Attach(Attach(l, "", orderID, t).ledger, intentID, orderID, t).ledger,
                       Credit(Attach(Attach(l, intentID, orderID, t).ledger, "", orderID, t).ledger,
                              t.tokenID, Slack(l, t)))
  {
    hide Attach, Slack, SameLedger;
    HttpFirst(l, intentID, orderID, t);
    SocketFirst(l, intentID, orderID, t);
  }

  /** Attaching an order that is already known is not a no-op: it gives back the intent's
      provisional reservation, and leaves the ledger alone exactly if there is none. */
  lemma AttachKnownIff(l: Ledger, intentID: string, orderID: string, t: Terms)
    requires ValidateOrder(orderID, t).Done? && orderID in l.orders
    ensures Attach(l, intentID, orderID, t).outcome == Fail(OrderAlreadyReserved)
    ensures Attach(l, intentID, orderID, t).ledger == l <==> intentID == "" || intentID !in l.provisionals
  {
    if intentID != "" && intentID in l.provisionals {
      assert intentID !in Attach(l, intentID, orderID, t).ledger.provisionals;
    }
  }

  /** An instance: the duplicate moves one unit of cash back to available. */
  lemma AttachKnownReleases()
    ensures var t := Terms("m", "t", BUY, 0.5, 2.0);
            var l := Ledger(Balance(8.0, 2.0, 0.0), map[], map["o" := Order("o", t, 1.0, false)],
                            map["i" := Provisional("i", t, 1.0, 0, 1)], 0.0, "");
            Attach(l, "i", "o", t).ledger == l.(provisionals := map[], balance := Balance(9.0, 1.0, 0.0))
  {
    var t := Terms("m", "t", BUY, 0.5, 2.0);
    var v: map<string, Provisional> := map["i" := Provisional("i", t, 1.0, 0, 1)];
    assert v - {"i"} == map[];
  }

  /** An instance of the slack: half an EPS short of covering the second reservation of a SELL. */
  lemma SocketFirstGainsSlack()
    ensures var t := Terms("m", "t", SELL, 0.5, 2.0);
            var l := Ledger(Balance(0.0, 0.0, 0.0),
                            map["t" := NO_POSITION.(available := 2.0 - EPS / 2.0, reserved := 2.0)],
                            map[], map["i" := Provisional("i", t, 2.0, 0, 1)], 0.0, "");
            && Available(Attach(Attach(l, "i", "o", t).ledger, "", "o", t).ledger, Token("t")) == 2.0 - EPS / 2.0
            && Available(Attach(Attach(l, "", "o", t).ledger, "i", "o", t).ledger, Token("t")) == 2.0
  {
    var t := Terms("m", "t", SELL, 0.5, 2.0);
    var l := Ledger(Balance(0.0, 0.0, 0.0), map["t" := NO_POSITION.(available := 2.0 - EPS / 2.0, reserved := 2.0)],
                    map[], map["i" := Provisional("i", t, 2.0, 0, 1)], 0.0, "");
    HttpFirst(l, "i", "o", t);
    var held := Attach(l, "", "o", t).ledger;
    assert Available(held, Token("t")) == 0.0 && Reserved(held, Token("t")) == 4.0 && "o" in held.orders;
    assert "i" in held.provisionals && held.provisionals["i"] == l.provisionals["i"];
  }

  /** Two acceptances of an order with nothing kept: two attachments. */
  lemma HandleTwo(e: Engine, x: Arrival, y: Arrival)
    requires PendingDeferrable(e)
    requires x.ev.status.Accepted? && y.ev.status.Accepted? && y.ev.orderID == x.ev.orderID != ""
    requires x.ev.orderID !in e.finalized && x.ev.orderID !in e.pending
    ensures var l := Attach(e.ledger, x.ev.parentOrderID, x.ev.orderID, EventTerms(x.ev)).ledger;
            HandleAll(e, [x, y]) == e.(
              ledger := Attach(l, y.ev.parentOrderID, y.ev.orderID, EventTerms(y.ev)).ledger,
              accepted := e.accepted + {x.ev.orderID},
              counters := e.counters.(events := e.counters.events + 2, accepted := e.counters.accepted + 2))
  {
    hide Attach;
    var e1 := Handle(e, x.ev, true, x.clock);
    var e2 := Handle(e1, y.ev, true, y.clock);
    assert e2.accepted == e.accepted + {x.ev.orderID};
    assert [x, y][1..] == [y] && [y][1..] == [];
    assert HandleAll(e1, [y]) == HandleAll(e2, []);
  }
}
