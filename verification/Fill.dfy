/**
 What a fill does, told on the fields of the fill and of the order it fills: when it is taken, what
 it costs or brings in at its own price, and how the realized profits of a day add up.
 */
module Fills {
  import opened Core
  import opened Ledgers
  import opened Solvency

  /** The fill names a live order and agrees with it. */
  predicate Matches(l: Ledger, f: Fill) {
    && f.orderID != "" && f.size > 0.0 && (f.side == BUY || f.side == SELL)
    && f.orderID in l.orders
    && l.orders[f.orderID].terms.marketID == f.marketID
    && l.orders[f.orderID].terms.tokenID == f.tokenID
    && l.orders[f.orderID].terms.side == f.side
  }

  /** A fill without a price is paid at the order's limit. */
  function Paid(l: Ledger, f: Fill): real
    requires f.orderID in l.orders
  {
    if f.price > 0.0 then f.price else l.orders[f.orderID].terms.price
  }

  function Min(x: real, y: real): real {
    if x < y then x else y
  }

  function Max0(x: real): real {
    if x > 0.0 then x else 0.0
  }

  /** A fill is taken exactly if it matches; otherwise it changes nothing, and says why. */
  lemma FillTakenIff(l: Ledger, f: Fill, today: string)
    ensures var r := ApplyFill(l, f, today);
            && (r.outcome.Done? <==> Matches(l, f))
            && (r.outcome.Fail? ==> r.ledger == l)
            && (r.outcome == Fail(InvalidSize) <==> f.orderID != "" && f.size <= 0.0)
            && (f.size > 0.0 && (f.side == BUY || f.side == SELL) ==>
                  (r.outcome == Fail(ReservationNotFound) <==> f.orderID == "" || f.orderID !in l.orders))
            && (r.outcome == Fail(FillMarketTokenMismatch) ==>
                  l.orders[f.orderID].terms.marketID != f.marketID || l.orders[f.orderID].terms.tokenID != f.tokenID)
            && (r.outcome == Fail(FillSideMismatch) ==> l.orders[f.orderID].terms.side != f.side)
  {
    hide BookFill, AfterFill;
  }

  /** The order keeps everything but its open size and its reservation, and goes when the open size is
      within the tolerance; no other reservation is touched. */
  lemma FillShrinksOrder(l: Ledger, f: Fill, today: string)
    requires Matches(l, f)
    ensures var l' := ApplyFill(l, f, today).ledger;
            var o := l.orders[f.orderID];
            var used := Min(o.reserved, if f.side == BUY then Paid(l, f) * f.size else f.size);
            && l'.provisionals == l.provisionals
            && (forall id :: id != f.orderID ==> (id in l'.orders <==> id in l.orders))
            && (forall id :: id != f.orderID && id in l.orders ==> l'.orders[id] == l.orders[id])
            && (f.orderID in l'.orders <==> o.terms.size - f.size > EPS)
            && (f.orderID in l'.orders ==>
                  l'.orders[f.orderID] == o.(terms := o.terms.(size := o.terms.size - f.size),
                                             reserved := Max0(o.reserved - used)))
  {
    hide BookFill;
  }

  /** A SELL fill: the proceeds at the fill's price become available, the tokens leave the reserved
      part, and with a known cost the gain over it is booked on the day. */
  lemma SellPaidOut(l: Ledger, f: Fill, today: string)
    requires Matches(l, f) && f.side == SELL
    ensures var l' := ApplyFill(l, f, today).ledger;
            var o, tp := l.orders[f.orderID], TokenAt(l.tokens, f.tokenID);
            && l'.balance == l.balance.(available := l.balance.available + Paid(l, f) * f.size)
            && l'.tokens == l.tokens[f.tokenID := tp.(reserved := Max0(tp.reserved - Min(o.reserved, f.size)))]
            && (tp.avgCostKnown ==>
                  && l'.dailyPnL == (if l.dailyDate == today then l.dailyPnL else 0.0)
                                    + (Paid(l, f) - tp.avgCost) * f.size
                  && l'.dailyDate == today)
            && (!tp.avgCostKnown ==> l'.dailyPnL == l.dailyPnL && l'.dailyDate == l.dailyDate)
  {
    hide AfterFill;
  }

  /** A BUY fill: its cost at the fill's price leaves the reserved cash, as far as the order reserved
      it, and the tokens become available. */
  lemma BuyPaid(l: Ledger, f: Fill, today: string)
    requires Matches(l, f) && f.side == BUY
    ensures var l' := ApplyFill(l, f, today).ledger;
            var o, tp, tp' := l.orders[f.orderID], TokenAt(l.tokens, f.tokenID), TokenAt(l'.tokens, f.tokenID);
            && l'.balance == l.balance.(reserved := Max0(l.balance.reserved - Min(o.reserved, Paid(l, f) * f.size)))
            && l'.tokens == l.tokens[f.tokenID := tp']
            && tp'.available == tp.available + f.size && tp'.reserved == tp.reserved
            && tp'.totalBought == tp.totalBought + f.size && tp'.avgCostKnown
            && l'.dailyPnL == l.dailyPnL && l'.dailyDate == l.dailyDate
  {
    hide AfterFill, WeightedCost;
  }

  lemma DividedTimes(n: real, d: real)
    requires d > 0.0
    ensures n / d * d == n
  {
  }

  /** What has been paid for the token in all grows by the fill's cost. */
  lemma BuyRaisesCost(l: Ledger, f: Fill, today: string)
    requires Matches(l, f) && f.side == BUY && TokenAt(l.tokens, f.tokenID).totalBought >= 0.0
    ensures var tp, tp' := TokenAt(l.tokens, f.tokenID), TokenAt(ApplyFill(l, f, today).ledger.tokens, f.tokenID);
            tp'.avgCost * tp'.totalBought == tp.avgCost * tp.totalBought + Paid(l, f) * f.size
  {
    var tp, tp' := TokenAt(l.tokens, f.tokenID), TokenAt(ApplyFill(l, f, today).ledger.tokens, f.tokenID);
    var p := Paid(l, f);
    assert tp'.totalBought == tp.totalBought + f.size;
    assert tp'.avgCost == if tp.totalBought <= 0.0 then p
                          else (tp.avgCost * tp.totalBought + p * f.size) / (tp.totalBought + f.size);
    hide ApplyFill, Paid;
    if tp.totalBought > 0.0 {
      DividedTimes(tp.avgCost * tp.totalBought + p * f.size, tp.totalBought + f.size);
    }
  }

  /** The value by which fills move cash in a run, on the fill's own fields. */
  lemma ValuePaid(l: Ledger, f: Fill, today: string)
    ensures FillValue(l, OpFill(f, today))
         == if !Matches(l, f) then 0.0
            else if f.side == BUY then -(Paid(l, f) * f.size) else Paid(l, f) * f.size
  {
  }

  // ---------------------------------------------------------------- the profit of a day

  /** What a step realizes: a matching SELL fill of a token of known cost, its gain over the cost. */
  function Realizes(l: Ledger, op: Op): real {
    if op.OpFill? && Matches(l, op.fill) && op.fill.side == SELL && TokenAt(l.tokens, op.fill.tokenID).avgCostKnown
    then (Paid(l, op.fill) - TokenAt(l.tokens, op.fill.tokenID).avgCost) * op.fill.size
    else 0.0
  }

  ghost function TotalRealized(l: Ledger, ops: seq<Op>): real
    decreases |ops|
  {
    if ops == [] then 0.0 else Realizes(l, ops[0]) + TotalRealized(Step(l, ops[0]), ops[1..])
  }

  /** The daily figures belong to `day`, or are zero. */
  predicate OnDay(l: Ledger, day: string) {
    l.dailyDate == day || l.dailyPnL == 0.0
  }

  ghost predicate AllFillsOn(ops: seq<Op>, day: string) {
    forall i :: 0 <= i < |ops| && ops[i].OpFill? ==> ops[i].today == day
  }

  lemma StepRealizes(l: Ledger, op: Op, day: string)
    requires OnDay(l, day) && (op.OpFill? ==> op.today == day)
    ensures OnDay(Step(l, op), day) && Step(l, op).dailyPnL == l.dailyPnL + Realizes(l, op)
  {
    if op.OpFill? {
      FillTakenIff(l, op.fill, day);
      if Matches(l, op.fill) {
        if op.fill.side == SELL { SellPaidOut(l, op.fill, day); } else { BuyPaid(l, op.fill, day); }
      }
      hide ApplyFill;
    } else {
      OtherKeepsDay(l, op);
      hide Step;
    }
  }

  lemma OtherKeepsDay(l: Ledger, op: Op)
    requires !op.OpFill?
    ensures Step(l, op).dailyPnL == l.dailyPnL && Step(l, op).dailyDate == l.dailyDate
  {
    hide Affordable, MatchPosition, OnchainAvailable, Aligned, ValidateTerms;
  }

  /** Over every run of one day, whatever else happens in it, the daily profit moves by exactly the
      gains of its SELL fills at their own prices. */
  lemma {:induction false} RunRealizes(l: Ledger, ops: seq<Op>, day: string)
    requires OnDay(l, day) && AllFillsOn(ops, day)
    ensures OnDay(Run(l, ops), day) && Run(l, ops).dailyPnL == l.dailyPnL + TotalRealized(l, ops)
    decreases |ops|
  {
    hide Step, Realizes;
    if ops == [] {
    } else {
      StepRealizes(l, ops[0], day);
      RunRealizes(Step(l, ops[0]), ops[1..], day);
    }
  }
}
