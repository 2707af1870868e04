/**
 The risk gate. A whole batch of intents is judged against one snapshot; the reservations are then
 made one by one. The results say that a batch that passes can be reserved completely, that it
 respects the caps once its orders exist, and that the cooldown really separates batches.
 */
module Risks {
  import opened Core
  import opened Ledgers
  import opened Restores
  import opened Sums
  import Books

  datatype Action = Unset | Place | Cancel | Split | Merge | OtherAction(text: string)

  datatype Intent = Intent(
    action: Action, marketID: string, tokenID: string, price: real, side: Side, size: real,
    intentID: string, orderID: string, tokens: seq<string>)
  {
    predicate Placing() {
      action.Unset? || action.Place?
    }

    function Terms(): Terms {
      Core.Terms.Terms(marketID, tokenID, side, price, size)
    }
  }

  datatype Kind =
    | InsufficientBalanceRisk | BelowMinReserve | InsufficientPositionRisk | ExposureCap | Slippage
    | Cooldown | DailyLoss | MaxOpenOrders | InvalidIntent

  datatype Verdict = Pass | Reject(kind: Kind)

  /** A limit of zero is switched off. */
  datatype Limits = Limits(
    maxDailyLoss: real, maxExposurePerMarket: real, maxSlippageBps: int, maxOpenOrders: int, marketCooldown: int)

  // ---------------------------------------------------------------- what a batch needs

  /** The deviation from mid in basis points, cut off towards zero. */
  function DeviationBps(price: real, mid: real): int
    requires mid > 0.0
  {
    Abs((price - mid) / mid * 10000.0).Floor
  }

  function IntentFault(lim: Limits, mids: map<string, real>, o: Intent): Verdict {
    if o.action.Cancel? then (if o.orderID == "" then Reject(InvalidIntent) else Pass)
    else if o.marketID == "" || o.size <= 0.0 then Reject(InvalidIntent)
    else if o.Placing() then
      if o.tokenID == "" || o.price <= 0.0 || o.price >= 1.0 then Reject(InvalidIntent)
      else if lim.maxSlippageBps > 0 && o.tokenID in mids && mids[o.tokenID] > 0.0
              && DeviationBps(o.price, mids[o.tokenID]) > lim.maxSlippageBps then Reject(Slippage)
      else if !Tradable(o.side) then Reject(InvalidIntent)
      else Pass
    else if o.action.Split? || o.action.Merge? then (if |o.tokens| != 2 then Reject(InvalidIntent) else Pass)
    else Reject(InvalidIntent)
  }

  function FirstFault(lim: Limits, mids: map<string, real>, intents: seq<Intent>): Verdict {
    if intents == [] then Pass
    else if IntentFault(lim, mids, intents[0]).Reject? then IntentFault(lim, mids, intents[0])
    else FirstFault(lim, mids, intents[1..])
  }

  function BuyNeed(o: Intent): real {
    if o.Placing() && o.side.BUY? then Collateral(o.Terms())
    else if o.action.Split? then o.size
    else 0.0
  }

  /** A merge needs its size of every token it lists. */
  function ListedNeed(tokens: seq<string>, size: real, t: string): real {
    if tokens == [] then 0.0 else (if tokens[0] == t then size else 0.0) + ListedNeed(tokens[1..], size, t)
  }

  function SellNeed(o: Intent, t: string): real {
    if o.Placing() && o.side.SELL? then (if o.tokenID == t then o.size else 0.0)
    else if o.action.Merge? then ListedNeed(o.tokens, o.size, t)
    else 0.0
  }

  function MarketNeed(o: Intent, m: string): real {
    if o.Placing() && o.marketID == m then Collateral(o.Terms()) else 0.0
  }

  function TotalBuy(intents: seq<Intent>): real {
    if intents == [] then 0.0 else BuyNeed(intents[0]) + TotalBuy(intents[1..])
  }

  function TotalSell(intents: seq<Intent>, t: string): real {
    if intents == [] then 0.0 else SellNeed(intents[0], t) + TotalSell(intents[1..], t)
  }

  function TotalMarket(intents: seq<Intent>, m: string): real {
    if intents == [] then 0.0 else MarketNeed(intents[0], m) + TotalMarket(intents[1..], m)
  }

  function Places(intents: seq<Intent>): nat {
    if intents == [] then 0 else (if intents[0].Placing() then 1 else 0) + Places(intents[1..])
  }

  /** What an order holds in market `m`. */
  function InMarket(m: string): (string, Order) -> real {
    (_: string, o: Order) => if o.terms.marketID == m then o.reserved else 0.0
  }

  ghost predicate Cooling(lim: Limits, last: map<string, int>, intents: seq<Intent>, now: int) {
    lim.marketCooldown > 0 &&
    exists i :: 0 <= i < |intents| && intents[i].Placing() && intents[i].marketID in last
                && now - last[intents[i].marketID] < lim.marketCooldown
  }

  ghost predicate OverExposed(lim: Limits, intents: seq<Intent>, s: Snapshot) {
    lim.maxExposurePerMarket > 0.0 &&
    exists m :: TotalMarket(intents, m) > 0.0
                && Sum(s.orders, InMarket(m)) + TotalMarket(intents, m) > lim.maxExposurePerMarket + EPS
  }

  ghost predicate Short(intents: seq<Intent>, s: Snapshot) {
    exists t :: TotalSell(intents, t) > 0.0 && TokenAt(s.tokens, t).available < TotalSell(intents, t)
  }

  function CashVerdict(need: real, b: Balance): Verdict {
    if need <= 0.0 then Pass
    else if b.available <= b.minBalance + EPS then Reject(BelowMinReserve)
    else if b.available + EPS < need then Reject(InsufficientBalanceRisk)
    else if b.available - need <= b.minBalance + EPS then Reject(BelowMinReserve)
    else Pass
  }

  predicate LossStop(lim: Limits, intents: seq<Intent>, s: Snapshot) {
    && lim.maxDailyLoss > 0.0 && -s.dailyPnL >= lim.maxDailyLoss
    && exists i :: 0 <= i < |intents| && !intents[i].action.Cancel?
  }

  /** The checks in the order they are made. */
  ghost function Judge(lim: Limits, last: map<string, int>, intents: seq<Intent>, s: Snapshot,
                       mids: map<string, real>, now: int): Verdict
  {
    if intents == [] then Pass
    else if LossStop(lim, intents, s) then Reject(DailyLoss)
    else if FirstFault(lim, mids, intents).Reject? then FirstFault(lim, mids, intents)
    else if Cooling(lim, last, intents, now) then Reject(Cooldown)
    else if lim.maxOpenOrders > 0 && s.openOrderCount + Places(intents) > lim.maxOpenOrders then Reject(MaxOpenOrders)
    else if OverExposed(lim, intents, s) then Reject(ExposureCap)
    else if CashVerdict(TotalBuy(intents), s.balance).Reject? then CashVerdict(TotalBuy(intents), s.balance)
    else if Short(intents, s) then Reject(InsufficientPositionRisk)
    else Pass
  }

  /** Passing batches are remembered for the cooldown. */
  function Recorded(lim: Limits, last: map<string, int>, intents: seq<Intent>, now: int): map<string, int> {
    if intents == [] || lim.marketCooldown <= 0 then last
    else
      var l := Recorded(lim, last, intents[..|intents| - 1], now);
      var o := intents[|intents| - 1];
      if o.Placing() then l[o.marketID := now] else l
  }

  // ---------------------------------------------------------------- reserving a batch

  /** The reservations of a batch, one by one; intents already carry their ids. */
  function ReserveAll(l: Ledger, intents: seq<Intent>, now: int, ttl: int): Ledger
    decreases |intents|
  {
    if intents == [] then l
    else
      var o := intents[0];
      ReserveAll(if o.Placing() then TryReserve(l, o.intentID, o.Terms(), now, ttl).ledger else l,
                 intents[1..], now, ttl)
  }

  /** Every reservation of the batch is made. */
  ghost predicate AllReserved(l: Ledger, intents: seq<Intent>, now: int, ttl: int)
    decreases |intents|
  {
    intents != [] ==>
      var o := intents[0];
      && (o.Placing() ==> TryReserve(l, o.intentID, o.Terms(), now, ttl).outcome.Done?)
      && AllReserved(if o.Placing() then TryReserve(l, o.intentID, o.Terms(), now, ttl).ledger else l,
                     intents[1..], now, ttl)
  }

  /** The placed intents have distinct, non-empty ids that the ledger does not know. */
  ghost predicate FreshIDs(l: Ledger, intents: seq<Intent>) {
    && (forall i :: 0 <= i < |intents| && intents[i].Placing() ==>
          intents[i].intentID != "" && intents[i].intentID !in l.provisionals)
    && (forall i, j :: 0 <= i < j < |intents| && intents[i].Placing() && intents[j].Placing() ==>
          intents[i].intentID != intents[j].intentID)
  }

  lemma {:induction false} NeedsNonNegative(lim: Limits, mids: map<string, real>, intents: seq<Intent>, t: string)
    requires FirstFault(lim, mids, intents).Pass?
    ensures TotalBuy(intents) >= 0.0 && TotalSell(intents, t) >= 0.0 && TotalMarket(intents, t) >= 0.0
  {
    if intents == [] {
    } else {
      NeedsNonNegative(lim, mids, intents[1..], t);
      OneNeedNonNegative(lim, mids, intents[0], t);
    }
  }

  lemma {:induction false} ListedNeedNonNegative(tokens: seq<string>, size: real, t: string)
    requires size >= 0.0
    ensures ListedNeed(tokens, size, t) >= 0.0
  {
    if tokens == [] {
    } else {
      ListedNeedNonNegative(tokens[1..], size, t);
    }
  }

  lemma OneNeedNonNegative(lim: Limits, mids: map<string, real>, o: Intent, t: string)
    requires IntentFault(lim, mids, o).Pass?
    ensures BuyNeed(o) >= 0.0 && SellNeed(o, t) >= 0.0 && MarketNeed(o, t) >= 0.0
    ensures o.Placing() ==> ValidateTerms(o.Terms()).Done?
  {
    if o.action.Merge? { ListedNeedNonNegative(o.tokens, o.size, t); }
  }

  /** Enough cash above the minimum, and enough of every token, for the whole batch. */
  ghost predicate Covered(l: Ledger, intents: seq<Intent>) {
    && (TotalBuy(intents) > 0.0 ==> l.balance.available - TotalBuy(intents) > l.balance.minBalance + EPS)
    && (forall t :: TotalSell(intents, t) > 0.0 ==> TokenAt(l.tokens, t).available >= TotalSell(intents, t))
  }

  lemma PlaceCovered(l: Ledger, o: Intent, rest: seq<Intent>, now: int, ttl: int)
    requires o.Placing() && ValidateTerms(o.Terms()).Done? && o.intentID != "" && o.intentID !in l.provisionals
    requires l.balance.minBalance >= 0.0 && TotalBuy(rest) >= 0.0 && (forall t :: TotalSell(rest, t) >= 0.0)
    requires Covered(l, [o] + rest)
    ensures var r := TryReserve(l, o.intentID, o.Terms(), now, ttl);
            && r.outcome.Done? && Covered(r.ledger, rest)
            && r.ledger.balance.minBalance == l.balance.minBalance
            && r.ledger.balance.available == l.balance.available - BuyNeed(o)
            && r.ledger.provisionals.Keys == l.provisionals.Keys + {o.intentID}
  {
    assert ([o] + rest)[1..] == rest;
    assert TotalBuy([o] + rest) == BuyNeed(o) + TotalBuy(rest);
    forall t ensures TotalSell([o] + rest, t) == SellNeed(o, t) + TotalSell(rest, t) {}
    var r := TryReserve(l, o.intentID, o.Terms(), now, ttl);
    Books.CollateralPositive(o.Terms());
    if o.side.SELL? {
      assert TotalSell([o] + rest, o.tokenID) > 0.0;
    }
    assert r.outcome.Done?;
    forall t | TotalSell(rest, t) > 0.0 ensures TokenAt(r.ledger.tokens, t).available >= TotalSell(rest, t) {
      assert TotalSell([o] + rest, t) > 0.0;
    }
  }

  lemma {:induction false} CoveredBatchReserves(l: Ledger, lim: Limits, mids: map<string, real>,
                                                intents: seq<Intent>, now: int, ttl: int)
    requires FirstFault(lim, mids, intents).Pass? && FreshIDs(l, intents) && l.balance.minBalance >= 0.0
    requires Covered(l, intents)
    ensures AllReserved(l, intents, now, ttl)
    ensures ReserveAll(l, intents, now, ttl).balance.minBalance == l.balance.minBalance
    ensures ReserveAll(l, intents, now, ttl).balance.available >= l.balance.available - TotalBuy(intents)
    decreases |intents|
  {
    if intents == [] {
    } else {
      var o, rest := intents[0], intents[1..];
      assert [o] + rest == intents;
      OneNeedNonNegative(lim, mids, o, "");
      NeedsNonNegative(lim, mids, rest, "");
      forall t ensures TotalSell(rest, t) >= 0.0 && SellNeed(o, t) >= 0.0 {
        NeedsNonNegative(lim, mids, rest, t);
        OneNeedNonNegative(lim, mids, o, t);
      }
      var l' := l;
      if o.Placing() {
        PlaceCovered(l, o, rest, now, ttl);
        l' := TryReserve(l, o.intentID, o.Terms(), now, ttl).ledger;
        hide TryReserve;
        assert FreshIDs(l', rest);
        CoveredBatchReserves(l', lim, mids, rest, now, ttl);
      } else {
        forall t | TotalSell(rest, t) > 0.0 ensures TokenAt(l.tokens, t).available >= TotalSell(rest, t) {
          assert TotalSell(intents, t) > 0.0;
        }
        CoveredBatchReserves(l, lim, mids, rest, now, ttl);
      }
    }
  }

  /** The gate is sound: a batch that passes against the current ledger can be reserved completely,
      and if it buys or splits anything, more than the minimum balance stays available. */
  lemma PassedBatchReserves(l: Ledger, lim: Limits, last: map<string, int>, mids: map<string, real>,
                            intents: seq<Intent>, now: int, ttl: int)
    requires Judge(lim, last, intents, SnapshotOf(l), mids, now).Pass?
    requires FreshIDs(l, intents) && l.balance.minBalance >= 0.0
    ensures AllReserved(l, intents, now, ttl)
    ensures TotalBuy(intents) > 0.0 ==> ReserveAll(l, intents, now, ttl).balance.available > l.balance.minBalance
  {
    if intents != [] {
      CoveredBatchReserves(l, lim, mids, intents, now, ttl);
    }
  }

  // ---------------------------------------------------------------- when a batch can be reserved

  /** Cash set aside by the BUYs a batch places. */
  function PlacedBuy(intents: seq<Intent>): real {
    if intents == [] then 0.0
    else
      var o := intents[|intents| - 1];
      PlacedBuy(intents[..|intents| - 1]) + if o.Placing() && o.side.BUY? then Collateral(o.Terms()) else 0.0
  }

  /** Units of token `t` set aside by the SELLs a batch places. */
  function PlacedSell(intents: seq<Intent>, t: string): real {
    if intents == [] then 0.0
    else
      var o := intents[|intents| - 1];
      PlacedSell(intents[..|intents| - 1], t) + if o.Placing() && o.side.SELL? && o.tokenID == t then o.size else 0.0
  }

  /** What is available of a token after `before` units of it have been set aside: the first SELL
      that uses the slack leaves nothing, not less than nothing. */
  function Left(available: real, before: real): real {
    if before > 0.0 then NonNeg(available - before) else available
  }

  /** The `i`-th intent, if it places an order, fits into what the ones before it leave. */
  predicate FitsAt(l: Ledger, intents: seq<Intent>, i: nat)
    requires i < |intents|
  {
    var o := intents[i];
    o.Placing() ==>
      && (o.side.BUY? ==> PlacedBuy(intents[..i]) + Collateral(o.Terms()) <= l.balance.available + EPS)
      && (o.side.SELL? ==>
            o.size <= Left(TokenAt(l.tokens, o.tokenID).available, PlacedSell(intents[..i], o.tokenID)) + EPS)
  }

  ghost predicate AllValid(intents: seq<Intent>) {
    forall i :: 0 <= i < |intents| && intents[i].Placing() ==> ValidateTerms(intents[i].Terms()).Done?
  }

  /** A ledger after the placements of a batch have all been reserved. */
  ghost predicate Reserves(l: Ledger, intents: seq<Intent>, r: Ledger) {
    && r.balance.available == l.balance.available - PlacedBuy(intents)
    && (forall t :: TokenAt(r.tokens, t).available == Left(TokenAt(l.tokens, t).available, PlacedSell(intents, t)))
    && (forall k :: k in r.provisionals ==> k in l.provisionals || Names(intents, k))
  }

  ghost predicate Names(intents: seq<Intent>, k: string) {
    exists i :: 0 <= i < |intents| && intents[i].Placing() && intents[i].intentID == k
  }

  /** One more intent at the end of a batch. */
  lemma {:induction false} ReserveAllNext(l: Ledger, front: seq<Intent>, o: Intent, now: int, ttl: int)
    ensures var mid := ReserveAll(l, front, now, ttl);
            var r := TryReserve(mid, o.intentID, o.Terms(), now, ttl);
            && ReserveAll(l, front + [o], now, ttl) == (if o.Placing() then r.ledger else mid)
            && (AllReserved(l, front + [o], now, ttl) <==>
                  AllReserved(l, front, now, ttl) && (o.Placing() ==> r.outcome.Done?))
    decreases |front|
  {
    hide TryReserve;
    if front == [] {
      assert [o][1..] == [] && front + [o] == [o];
    } else {
      var x := front[0];
      assert (front + [o])[1..] == front[1..] + [o];
      ReserveAllNext(if x.Placing() then TryReserve(l, x.intentID, x.Terms(), now, ttl).ledger else l,
                     front[1..], o, now, ttl);
    }
  }

  lemma PlacedSellNonNegative(intents: seq<Intent>, t: string)
    requires AllValid(intents)
    ensures PlacedSell(intents, t) >= 0.0
  {
    if intents != [] { PlacedSellNonNegative(intents[..|intents| - 1], t); }
  }

  lemma PlacedNext(front: seq<Intent>, o: Intent)
    ensures PlacedBuy(front + [o])
         == PlacedBuy(front) + if o.Placing() && o.side.BUY? then Collateral(o.Terms()) else 0.0
    ensures forall t :: PlacedSell(front + [o], t)
                     == PlacedSell(front, t) + if o.Placing() && o.side.SELL? && o.tokenID == t then o.size else 0.0
  {
    assert (front + [o])[..|front|] == front;
  }

  /** Does the next placement fit, and what does it leave? */
  lemma PlaceNext(l: Ledger, front: seq<Intent>, o: Intent, mid: Ledger, now: int, ttl: int)
    requires Reserves(l, front, mid) && AllValid(front)
    requires o.Placing() && ValidateTerms(o.Terms()).Done? && o.intentID != "" && o.intentID !in mid.provisionals
    ensures var r := TryReserve(mid, o.intentID, o.Terms(), now, ttl);
            && (r.outcome.Done? <==> FitsAt(l, front + [o], |front|))
            && (r.outcome.Done? ==>
                  && r.ledger.balance.available
                     == mid.balance.available - (if o.side.BUY? then Collateral(o.Terms()) else 0.0)
                  && (forall t :: TokenAt(r.ledger.tokens, t).available
                       == var had := TokenAt(mid.tokens, t).available;
                          if o.side.SELL? && o.tokenID == t then NonNeg(had - o.size) else had)
                  && r.ledger.provisionals.Keys == mid.provisionals.Keys + {o.intentID})
  {
    hide PlacedBuy, PlacedSell, Left;
    assert (front + [o])[..|front|] == front;
    var r := TryReserve(mid, o.intentID, o.Terms(), now, ttl);
    assert r.outcome == Affordable(mid, o.Terms());
  }

  /** Reservations made one by one all succeed exactly if each fits into what the ones before it
      leave; and then that is what they leave. */
  lemma {:induction false} ReservedIff(l: Ledger, intents: seq<Intent>, now: int, ttl: int)
    requires AllValid(intents) && FreshIDs(l, intents)
    ensures AllReserved(l, intents, now, ttl) <==> forall i :: 0 <= i < |intents| ==> FitsAt(l, intents, i)
    ensures AllReserved(l, intents, now, ttl) ==> Reserves(l, intents, ReserveAll(l, intents, now, ttl))
    decreases |intents|
  {
    if intents == [] {
    } else {
      var n := |intents| - 1;
      var front, o := intents[..n], intents[n];
      assert intents == front + [o];
      assert forall i :: 0 <= i < n ==> front[i] == intents[i];
      ReservedIff(l, front, now, ttl);
      ReserveAllNext(l, front, o, now, ttl);
      hide FitsAt, ReserveAll, AllReserved, Reserves;
      forall i | 0 <= i < n ensures FitsAt(l, intents, i) <==> FitsAt(l, front, i) {
        FitsPrefix(l, front, [o], i);
      }
      if AllReserved(l, front, now, ttl) {
        ReservedNext(l, front, o, ReserveAll(l, front, now, ttl), now, ttl);
      }
    }
  }

  lemma FreshNext(l: Ledger, front: seq<Intent>, o: Intent)
    requires FreshIDs(l, front + [o]) && o.Placing()
    ensures o.intentID != "" && o.intentID !in l.provisionals && !Names(front, o.intentID)
  {
    var all := front + [o];
    assert all[|front|] == o && forall i :: 0 <= i < |front| ==> all[i] == front[i];
  }

  lemma ValidNext(front: seq<Intent>, o: Intent)
    requires AllValid(front + [o])
    ensures AllValid(front) && (o.Placing() ==> ValidateTerms(o.Terms()).Done?)
  {
    var all := front + [o];
    assert all[|front|] == o && forall i :: 0 <= i < |front| ==> all[i] == front[i];
    hide ValidateTerms;
  }

  lemma PlacingReserves(l: Ledger, front: seq<Intent>, o: Intent, mid: Ledger, now: int, ttl: int)
    requires Reserves(l, front, mid) && AllValid(front) && o.Placing() && ValidateTerms(o.Terms()).Done?
    requires o.intentID != "" && o.intentID !in mid.provisionals
    requires TryReserve(mid, o.intentID, o.Terms(), now, ttl).outcome.Done?
    ensures Reserves(l, front + [o], TryReserve(mid, o.intentID, o.Terms(), now, ttl).ledger)
  {
    var all, r := front + [o], TryReserve(mid, o.intentID, o.Terms(), now, ttl).ledger;
    PlacedNext(front, o);
    PlaceNext(l, front, o, mid, now, ttl);
    SizePositive(o);
    hide PlacedBuy, PlacedSell, FitsAt, Left, TryReserve, Names, AllValid;
    forall t ensures TokenAt(r.tokens, t).available == Left(TokenAt(l.tokens, t).available, PlacedSell(all, t)) {
      PlacedSellNonNegative(front, t);
      LeftNext(TokenAt(l.tokens, t).available, PlacedSell(front, t), o.size);
    }
    forall k | k in r.provisionals ensures k in l.provisionals || Names(all, k) {
      NamesNext(front, o, k);
    }
  }

  lemma IdleReserves(l: Ledger, front: seq<Intent>, o: Intent, mid: Ledger)
    requires Reserves(l, front, mid) && !o.Placing()
    ensures Reserves(l, front + [o], mid)
  {
    PlacedNext(front, o);
    hide PlacedBuy, PlacedSell, Left, Names;
    forall k | k in mid.provisionals ensures k in l.provisionals || Names(front + [o], k) {
      NamesNext(front, o, k);
    }
  }

  /** One more placement after those in `front` have been reserved. */
  lemma ReservedNext(l: Ledger, front: seq<Intent>, o: Intent, mid: Ledger, now: int, ttl: int)
    requires AllValid(front + [o]) && FreshIDs(l, front + [o]) && Reserves(l, front, mid)
    ensures var r := TryReserve(mid, o.intentID, o.Terms(), now, ttl);
            && (FitsAt(l, front + [o], |front|) <==> (o.Placing() ==> r.outcome.Done?))
            && ((o.Placing() ==> r.outcome.Done?) ==> Reserves(l, front + [o], if o.Placing() then r.ledger else mid))
  {
    hide TryReserve, FitsAt, AllValid, FreshIDs, Names, PlacedBuy, PlacedSell, Left, ValidateTerms;
    ValidNext(front, o);
    if o.Placing() {
      FreshNext(l, front, o);
      PlaceNext(l, front, o, mid, now, ttl);
      if TryReserve(mid, o.intentID, o.Terms(), now, ttl).outcome.Done? {
        PlacingReserves(l, front, o, mid, now, ttl);
      }
    } else {
      NotPlacing(l, front, o);
      IdleReserves(l, front, o, mid);
    }
  }

  lemma LeftNext(available: real, before: real, size: real)
    requires before >= 0.0 && size > 0.0
    ensures Left(available, before + size) == NonNeg(Left(available, before) - size)
  {
  }

  lemma NotPlacing(l: Ledger, front: seq<Intent>, o: Intent)
    requires !o.Placing()
    ensures FitsAt(l, front + [o], |front|)
  {
  }

  lemma SizePositive(o: Intent)
    requires ValidateTerms(o.Terms()).Done?
    ensures o.size > 0.0 && Tradable(o.side)
  {
  }

  lemma NamesNext(front: seq<Intent>, o: Intent, k: string)
    ensures Names(front + [o], k) <==> Names(front, k) || (o.Placing() && o.intentID == k)
  {
    assert (front + [o])[|front|] == o && forall i :: 0 <= i < |front| ==> (front + [o])[i] == front[i];
  }

  /** Reserving two batches one after the other is reserving their concatenation. */
  lemma {:induction false} ReserveConcat(l: Ledger, a: seq<Intent>, b: seq<Intent>, now: int, ttl: int)
    ensures AllReserved(l, a + b, now, ttl) <==>
              AllReserved(l, a, now, ttl) && AllReserved(ReserveAll(l, a, now, ttl), b, now, ttl)
    decreases |a|
  {
    hide TryReserve;
    if a == [] {
      assert a + b == b;
    } else {
      var x := a[0];
      assert (a + b)[1..] == a[1..] + b;
      ReserveConcat(if x.Placing() then TryReserve(l, x.intentID, x.Terms(), now, ttl).ledger else l,
                    a[1..], b, now, ttl);
    }
  }

  lemma PassingIsValid(lim: Limits, mids: map<string, real>, intents: seq<Intent>)
    requires FirstFault(lim, mids, intents).Pass?
    ensures AllValid(intents)
  {
    forall i | 0 <= i < |intents| && intents[i].Placing() ensures ValidateTerms(intents[i].Terms()).Done? {
      FaultlessAt(lim, mids, intents, i);
      OneNeedNonNegative(lim, mids, intents[i], "");
    }
  }

  /** Strategies served in one round share a snapshot. When two batches each pass against it, the
      first is reserved completely, and the second exactly if each of its placements fits into what
      the placements of both batches before it leave: the gate alone does not ensure that. */
  lemma SharedSnapshot(l: Ledger, lim: Limits, lastA: map<string, int>, lastB: map<string, int>,
                       mids: map<string, real>,
                       a: seq<Intent>, b: seq<Intent>, now: int, ttl: int)
    requires Judge(lim, lastA, a, SnapshotOf(l), mids, now).Pass?
    requires Judge(lim, lastB, b, SnapshotOf(l), mids, now).Pass?
    requires FreshIDs(l, a + b) && l.balance.minBalance >= 0.0
    ensures AllReserved(l, a, now, ttl)
    ensures AllReserved(ReserveAll(l, a, now, ttl), b, now, ttl) <==>
              forall i :: |a| <= i < |a + b| ==> FitsAt(l, a + b, i)
  {
    var all := a + b;
    assert (forall i :: 0 <= i < |a| ==> all[i] == a[i]) && (forall i :: 0 <= i < |b| ==> all[|a| + i] == b[i]);
    PassingIsValid(lim, mids, a);
    PassingIsValid(lim, mids, b);
    assert forall i :: |a| <= i < |all| ==> all[i] == b[i - |a|];
    PassedBatchReserves(l, lim, lastA, mids, a, now, ttl);
    hide TryReserve, ReserveAll, AllReserved, FitsAt, ValidateTerms, Judge;
    ReserveConcat(l, a, b, now, ttl);
    ReservedIff(l, a, now, ttl);
    ReservedIff(l, all, now, ttl);
    forall i | 0 <= i < |a| ensures FitsAt(l, all, i) {
      FitsPrefix(l, a, b, i);
      assert FitsAt(l, a, i);
    }
  }

  lemma FitsPrefix(l: Ledger, a: seq<Intent>, b: seq<Intent>, i: nat)
    requires i < |a|
    ensures FitsAt(l, a + b, i) <==> FitsAt(l, a, i)
  {
    assert (a + b)[..i] == a[..i] && (a + b)[i] == a[i];
  }

  lemma {:induction false} PrefixWithin(intents: seq<Intent>, i: nat, t: string)
    requires AllValid(intents) && i <= |intents|
    ensures PlacedBuy(intents[..i]) <= PlacedBuy(intents) && PlacedSell(intents[..i], t) <= PlacedSell(intents, t)
    decreases |intents|
  {
    var n := |intents| - 1;
    if i == |intents| {
      assert intents[..i] == intents;
    } else {
      assert intents[..n][..i] == intents[..i];
      PrefixWithin(intents[..n], i, t);
      if intents[n].Placing() { Books.CollateralPositive(intents[n].Terms()); }
    }
  }

  /** Enough for the sums, up to one EPS each, is enough for every placement. */
  lemma TotalsSuffice(l: Ledger, intents: seq<Intent>, i: nat)
    requires AllValid(intents) && i < |intents|
    requires PlacedBuy(intents) <= l.balance.available + EPS
    requires forall t :: PlacedSell(intents, t) <= TokenAt(l.tokens, t).available + EPS
    ensures FitsAt(l, intents, i)
  {
    hide PlacedBuy, PlacedSell, ValidateTerms, Collateral, Left, TokenAt;
    var front, o := intents[..i], intents[i];
    assert intents[..i + 1] == front + [o];
    assert AllValid(front);
    PlacedNext(front, o);
    PrefixWithin(intents, i + 1, o.tokenID);
    PlacedSellNonNegative(front, o.tokenID);
    var have := TokenAt(l.tokens, o.tokenID).available;
    assert PlacedSell(intents, o.tokenID) <= have + EPS;
    if o.Placing() && o.side.SELL? { LeftCovers(have, PlacedSell(front, o.tokenID), o.size); }
  }

  lemma LeftCovers(available: real, before: real, size: real)
    requires before >= 0.0 && before + size <= available + EPS
    ensures size <= Left(available, before) + EPS
  {
  }

  const NO_LIMITS := Limits(0.0, 0.0, 0, 0, 0)

  /** Two intents, each passing alone on a snapshot, of which the second cannot be reserved. */
  ghost predicate PassYetFail(l: Ledger, a: Intent, b: Intent, now: int, ttl: int) {
    && Judge(NO_LIMITS, map[], [a], SnapshotOf(l), map[], now).Pass?
    && Judge(NO_LIMITS, map[], [b], SnapshotOf(l), map[], now).Pass?
    && AllReserved(l, [a], now, ttl) && !AllReserved(ReserveAll(l, [a], now, ttl), [b], now, ttl)
  }

  lemma SharedPairFails(l: Ledger, a: Intent, b: Intent, now: int, ttl: int)
    requires Judge(NO_LIMITS, map[], [a], SnapshotOf(l), map[], now).Pass?
    requires Judge(NO_LIMITS, map[], [b], SnapshotOf(l), map[], now).Pass?
    requires a.Placing() && b.Placing() && FreshIDs(l, [a, b]) && l.balance.minBalance >= 0.0 && !FitsAt(l, [a, b], 1)
    ensures PassYetFail(l, a, b, now, ttl)
  {
    assert [a] + [b] == [a, b];
    SharedSnapshot(l, NO_LIMITS, map[], map[], map[], [a], [b], now, ttl);
  }

  lemma JudgeOne(l: Ledger, o: Intent, now: int)
    requires IntentFault(NO_LIMITS, map[], o).Pass? && !o.action.Merge?
    requires BuyNeed(o) > 0.0 ==> BuyNeed(o) + l.balance.minBalance + EPS < l.balance.available
    requires SellNeed(o, o.tokenID) <= TokenAt(l.tokens, o.tokenID).available
    requires l.balance.minBalance >= 0.0
    ensures Judge(NO_LIMITS, map[], [o], SnapshotOf(l), map[], now).Pass?
  {
    assert [o][0] == o && [o][1..] == [];
    assert FirstFault(NO_LIMITS, map[], [o][1..]).Pass? && TotalBuy([o][1..]) == 0.0;
    assert TotalBuy([o]) == BuyNeed(o);
    forall t ensures TotalSell([o], t) == SellNeed(o, t) {
      assert TotalSell([o][1..], t) == 0.0;
    }
    assert !Short([o], SnapshotOf(l));
  }

  const CASH_ONLY := Ledger(Balance(10.0, 0.0, 0.0), map[], map[], map[], 0.0, "")
  const TOKENS_ONLY := Ledger(Balance(0.0, 0.0, 0.0), map["t" := NO_POSITION.(available := 10.0)],
                              map[], map[], 0.0, "")

  function PlaceOf(side: Side, size: real, intentID: string): Intent {
    Intent(Place, "m", "t", 0.5, side, size, intentID, "", [])
  }

  lemma TwoFresh(l: Ledger, side: Side, size: real)
    requires l.provisionals == map[]
    ensures FreshIDs(l, [PlaceOf(side, size, "i1"), PlaceOf(side, size, "i2")])
  {
  }

  /** An instance with cash: each of two orders is affordable on its own, the second fails after the
      first. */
  lemma SharedSnapshotFails(now: int, ttl: int)
    ensures PassYetFail(CASH_ONLY, PlaceOf(BUY, 12.0, "i1"), PlaceOf(BUY, 12.0, "i2"), now, ttl)
  {
    hide Judge, FreshIDs, PassYetFail;
    var a, b := PlaceOf(BUY, 12.0, "i1"), PlaceOf(BUY, 12.0, "i2");
    JudgeOne(CASH_ONLY, a, now);
    JudgeOne(CASH_ONLY, b, now);
    TwoFresh(CASH_ONLY, BUY, 12.0);
    assert [a, b][..1] == [] + [a];
    PlacedNext([], a);
    SharedPairFails(CASH_ONLY, a, b, now, ttl);
  }

  /** The same with tokens. */
  lemma SharedSnapshotFailsForSells(now: int, ttl: int)
    ensures PassYetFail(TOKENS_ONLY, PlaceOf(SELL, 6.0, "i1"), PlaceOf(SELL, 6.0, "i2"), now, ttl)
  {
    hide Judge, FreshIDs, PassYetFail;
    var a, b := PlaceOf(SELL, 6.0, "i1"), PlaceOf(SELL, 6.0, "i2");
    JudgeOne(TOKENS_ONLY, a, now);
    JudgeOne(TOKENS_ONLY, b, now);
    TwoFresh(TOKENS_ONLY, SELL, 6.0);
    assert [a, b][..1] == [] + [a];
    PlacedNext([], a);
    SharedPairFails(TOKENS_ONLY, a, b, now, ttl);
  }

  // ---------------------------------------------------------------- caps once the orders exist

  /** The batch's orders are confirmed, intent by intent, under the given order ids. */
  function AttachAll(l: Ledger, intents: seq<Intent>, ids: seq<string>): Ledger
    requires |ids| == |intents|
    decreases |intents|
  {
    if intents == [] then l
    else
      var o := intents[0];
      AttachAll(if o.Placing() then Attach(l, o.intentID, ids[0], o.Terms()).ledger else l, intents[1..], ids[1..])
  }

  /** Order ids that are new to the ledger. */
  ghost predicate FreshOrderIDs(l: Ledger, ids: seq<string>) {
    && (forall i :: 0 <= i < |ids| ==> ids[i] != "" && ids[i] !in l.orders)
    && (forall i, j :: 0 <= i < j < |ids| ==> ids[i] != ids[j])
  }

  ghost predicate HoldsFor(l: Ledger, o: Intent) {
    && o.intentID in l.provisionals
    && l.provisionals[o.intentID].terms == o.Terms() && l.provisionals[o.intentID].reserved == Collateral(o.Terms())
  }

  /** Each placed intent has its provisional reservation, under an id of its own. */
  ghost predicate Held(l: Ledger, intents: seq<Intent>) {
    && (forall i :: 0 <= i < |intents| && intents[i].Placing() ==>
          intents[i].intentID != "" && ValidateTerms(intents[i].Terms()).Done? && HoldsFor(l, intents[i]))
    && (forall i, j :: 0 <= i < j < |intents| && intents[i].Placing() && intents[j].Placing() ==>
          intents[i].intentID != intents[j].intentID)
  }

  lemma {:induction false} ReserveAllKeeps(l: Ledger, intents: seq<Intent>, now: int, ttl: int)
    ensures var r := ReserveAll(l, intents, now, ttl);
            && r.orders == l.orders
            && forall k :: k in l.provisionals ==> k in r.provisionals && r.provisionals[k] == l.provisionals[k]
    decreases |intents|
  {
    if intents == [] {
    } else {
      var o := intents[0];
      var l' := if o.Placing() then TryReserve(l, o.intentID, o.Terms(), now, ttl).ledger else l;
      assert l'.orders == l.orders;
      assert forall k :: k in l.provisionals ==> k in l'.provisionals && l'.provisionals[k] == l.provisionals[k];
      hide TryReserve;
      ReserveAllKeeps(l', intents[1..], now, ttl);
    }
  }

  lemma {:induction false} ReserveAllHolds(l: Ledger, intents: seq<Intent>, now: int, ttl: int, i: nat)
    requires AllReserved(l, intents, now, ttl) && i < |intents| && intents[i].Placing()
    ensures HoldsFor(ReserveAll(l, intents, now, ttl), intents[i])
    decreases |intents|
  {
    var o := intents[0];
    var l' := if o.Placing() then TryReserve(l, o.intentID, o.Terms(), now, ttl).ledger else l;
    if i == 0 {
      assert HoldsFor(l', o);
      hide TryReserve;
      ReserveAllKeeps(l', intents[1..], now, ttl);
    } else {
      hide TryReserve;
      ReserveAllHolds(l', intents[1..], now, ttl, i - 1);
    }
  }

  lemma AttachOne(l: Ledger, o: Intent, id: string, m: string)
    requires o.intentID != "" && ValidateTerms(o.Terms()).Done? && HoldsFor(l, o) && id != "" && id !in l.orders
    ensures var l' := Attach(l, o.intentID, id, o.Terms()).ledger;
            && l'.provisionals == l.provisionals - {o.intentID} && l'.orders.Keys == l.orders.Keys + {id}
            && |l'.orders| == |l.orders| + 1
            && Sum(l'.orders, InMarket(m))
               == Sum(l.orders, InMarket(m)) + (if o.marketID == m then Collateral(o.Terms()) else 0.0)
  {
    AttachPromotesIntent(l, o, id);
    hide Attach, ValidateTerms, Sum, Collateral;
    var n := Promote(id, l.provisionals[o.intentID]);
    SumUpdate(l.orders, InMarket(m), id, n);
    assert l.orders[id := n].Keys == l.orders.Keys + {id};
    assert |l.orders[id := n].Keys| == |l.orders.Keys| + 1;
  }

  lemma AttachPromotesIntent(l: Ledger, o: Intent, id: string)
    requires o.intentID != "" && ValidateTerms(o.Terms()).Done? && o.intentID in l.provisionals
    requires id != "" && id !in l.orders
    ensures Attach(l, o.intentID, id, o.Terms()).ledger
         == l.(provisionals := l.provisionals - {o.intentID},
               orders := l.orders[id := Promote(id, l.provisionals[o.intentID])])
  {
    hide Hold, Affordable;
  }

  /** Attaching the first placement takes its provisional reservation and leaves the others. */
  lemma HeldAfterFirst(l: Ledger, l': Ledger, intents: seq<Intent>)
    requires intents != [] && Held(l, intents)
    requires l'.provisionals == if intents[0].Placing() then l.provisionals - {intents[0].intentID} else l.provisionals
    ensures Held(l', intents[1..])
  {
    hide ValidateTerms;
    forall i | 0 <= i < |intents[1..]| && intents[1..][i].Placing()
      ensures HoldsFor(l', intents[1..][i])
    {
      assert HoldsFor(l, intents[i + 1]);
    }
  }

  lemma {:induction false} AttachAllCounts(l: Ledger, intents: seq<Intent>, ids: seq<string>, m: string)
    requires |ids| == |intents| && Held(l, intents) && FreshOrderIDs(l, ids)
    ensures var l' := AttachAll(l, intents, ids);
            && |l'.orders| == |l.orders| + Places(intents)
            && Sum(l'.orders, InMarket(m)) == Sum(l.orders, InMarket(m)) + TotalMarket(intents, m)
    decreases |intents|
  {
    if intents == [] {
    } else {
      var o := intents[0];
      var l' := l;
      if o.Placing() {
        l' := Attach(l, o.intentID, ids[0], o.Terms()).ledger;
        AttachOne(l, o, ids[0], m);
      }
      HeldAfterFirst(l, l', intents);
      hide Attach, Held, Collateral, InMarket;
      AttachAllCounts(l', intents[1..], ids[1..], m);
    }
  }

  lemma {:induction false} FaultlessAt(lim: Limits, mids: map<string, real>, intents: seq<Intent>, i: nat)
    requires FirstFault(lim, mids, intents).Pass? && i < |intents|
    ensures IntentFault(lim, mids, intents[i]).Pass?
  {
    if i > 0 { FaultlessAt(lim, mids, intents[1..], i - 1); }
  }

  /** Once a passing batch's orders exist under new ids, each market it places in holds at most the
      cap plus EPS, and the open orders are within their cap. */
  lemma CapsHold(l: Ledger, lim: Limits, last: map<string, int>, mids: map<string, real>, intents: seq<Intent>,
                 now: int, ttl: int, ids: seq<string>, m: string)
    requires intents != [] && |ids| == |intents|
    requires Judge(lim, last, intents, SnapshotOf(l), mids, now).Pass?
    requires FreshIDs(l, intents) && FreshOrderIDs(l, ids) && l.balance.minBalance >= 0.0
    ensures var l' := AttachAll(ReserveAll(l, intents, now, ttl), intents, ids);
            && (lim.maxExposurePerMarket > 0.0 && TotalMarket(intents, m) > 0.0 ==>
                  Sum(l'.orders, InMarket(m)) <= lim.maxExposurePerMarket + EPS)
            && (lim.maxOpenOrders > 0 ==> |l'.orders| <= lim.maxOpenOrders)
  {
    PassedBatchReserves(l, lim, last, mids, intents, now, ttl);
    ReserveAllKeeps(l, intents, now, ttl);
    var r := ReserveAll(l, intents, now, ttl);
    forall i | 0 <= i < |intents| && intents[i].Placing()
      ensures ValidateTerms(intents[i].Terms()).Done? && HoldsFor(r, intents[i])
    {
      FaultlessAt(lim, mids, intents, i);
      ReserveAllHolds(l, intents, now, ttl, i);
    }
    AttachAllCounts(r, intents, ids, m);
  }

  // ---------------------------------------------------------------- cooldown

  datatype Round = Round(intents: seq<Intent>, s: Snapshot, mids: map<string, real>, now: int)

  ghost predicate Passes(lim: Limits, last: map<string, int>, r: Round) {
    Judge(lim, last, r.intents, r.s, r.mids, r.now).Pass?
  }

  predicate PlacesIn(r: Round, m: string) {
    exists i :: 0 <= i < |r.intents| && r.intents[i].Placing() && r.intents[i].marketID == m
  }

  /** What is remembered after a number of rounds. */
  ghost function LastAfter(lim: Limits, last: map<string, int>, rounds: seq<Round>): map<string, int> {
    if rounds == [] then last
    else
      var l := LastAfter(lim, last, rounds[..|rounds| - 1]);
      var r := rounds[|rounds| - 1];
      if Passes(lim, l, r) then Recorded(lim, l, r.intents, r.now) else l
  }

  lemma {:induction false} RecordedAt(lim: Limits, last: map<string, int>, intents: seq<Intent>, now: int, m: string)
    requires lim.marketCooldown > 0
    ensures var l := Recorded(lim, last, intents, now);
            if exists i :: 0 <= i < |intents| && intents[i].Placing() && intents[i].marketID == m
            then m in l && l[m] == now
            else (m in l <==> m in last) && (m in last ==> l[m] == last[m])
  {
    if intents == [] {
    } else {
      var n := |intents| - 1;
      RecordedAt(lim, last, intents[..n], now, m);
      assert intents[n].Placing() && intents[n].marketID == m ==>
               exists i :: 0 <= i < |intents| && intents[i].Placing() && intents[i].marketID == m;
      assert forall i :: 0 <= i < n ==> intents[..n][i] == intents[i];
    }
  }

  ghost predicate Ordered(rounds: seq<Round>) {
    forall i, j :: 0 <= i <= j < |rounds| ==> rounds[i].now <= rounds[j].now
  }

  ghost function LastNext(lim: Limits, last: map<string, int>, r: Round): map<string, int> {
    if Passes(lim, last, r) then Recorded(lim, last, r.intents, r.now) else last
  }

  /** A remembered time is only ever replaced by that of a later round. */
  lemma RoundRemembers(lim: Limits, last: map<string, int>, r: Round, m: string, at: int)
    requires lim.marketCooldown > 0 && at <= r.now
    ensures m in last && last[m] >= at ==> m in LastNext(lim, last, r) && LastNext(lim, last, r)[m] >= at
    ensures Passes(lim, last, r) && PlacesIn(r, m) ==> m in LastNext(lim, last, r) && LastNext(lim, last, r)[m] == r.now
  {
    RecordedAt(lim, last, r.intents, r.now, m);
    hide Passes, Recorded;
  }

  lemma {:induction false} PlacementRemembered(lim: Limits, last: map<string, int>, rounds: seq<Round>, i: nat,
                                               m: string)
    requires lim.marketCooldown > 0 && Ordered(rounds) && i < |rounds|
    requires Passes(lim, LastAfter(lim, last, rounds[..i]), rounds[i]) && PlacesIn(rounds[i], m)
    ensures m in LastAfter(lim, last, rounds) && LastAfter(lim, last, rounds)[m] >= rounds[i].now
    decreases |rounds|
  {
    var n := |rounds| - 1;
    var front := rounds[..n];
    var l := LastAfter(lim, last, front);
    assert LastAfter(lim, last, rounds) == LastNext(lim, l, rounds[n]);
    hide LastAfter, LastNext, Passes, PlacesIn;
    assert forall j :: 0 <= j < n ==> front[j] == rounds[j];
    RoundRemembers(lim, l, rounds[n], m, rounds[i].now);
    if i < n {
      assert front[..i] == rounds[..i];
      PlacementRemembered(lim, last, front, i, m);
    }
  }

  /** Under a clock that does not run backwards, two batches that pass and place in the same market
      are at least the cooldown apart. */
  lemma CooldownSeparates(lim: Limits, last: map<string, int>, rounds: seq<Round>, i: nat, j: nat, m: string)
    requires lim.marketCooldown > 0 && Ordered(rounds) && i < j < |rounds|
    requires Passes(lim, LastAfter(lim, last, rounds[..i]), rounds[i]) && PlacesIn(rounds[i], m)
    requires Passes(lim, LastAfter(lim, last, rounds[..j]), rounds[j]) && PlacesIn(rounds[j], m)
    ensures rounds[j].now - rounds[i].now >= lim.marketCooldown
  {
    assert rounds[..j][..i] == rounds[..i];
    PlacementRemembered(lim, last, rounds[..j], i, m);
    var l := LastAfter(lim, last, rounds[..j]);
    assert !Cooling(lim, l, rounds[j].intents, rounds[j].now);
  }
}
