/**
 What the risk gate lets through, told on the fields of the intents, the limits and the snapshot: the
 exact condition for a batch to pass, the exact reason when it does not, and that a day's losses stop
 trading.
 */
module Verdicts {
  import opened Core
  import opened Ledgers
  import opened Restores
  import opened Sums
  import opened Risks
  import Fills

  // ---------------------------------------------------------------- one intent

  predicate IsPlace(o: Intent) {
    o.action == Unset || o.action == Place
  }

  /** The price is at least one whole basis point further from mid than allowed. */
  predicate TooFar(price: real, mid: real, bps: int) {
    || (price - mid) * 10000.0 >= (bps + 1) as real * mid
    || (mid - price) * 10000.0 >= (bps + 1) as real * mid
  }

  predicate Slips(lim: Limits, mids: map<string, real>, o: Intent) {
    lim.maxSlippageBps > 0 && o.tokenID in mids && mids[o.tokenID] > 0.0
    && TooFar(o.price, mids[o.tokenID], lim.maxSlippageBps)
  }

  /** Everything that is asked of an intent by itself. */
  predicate Sound(lim: Limits, mids: map<string, real>, o: Intent) {
    if o.action == Cancel then o.orderID != ""
    else
      && o.marketID != "" && o.size > 0.0
      && (IsPlace(o) ==>
            && o.tokenID != "" && 0.0 < o.price < 1.0 && (o.side == BUY || o.side == SELL)
            && !Slips(lim, mids, o))
      && (!IsPlace(o) ==> (o.action == Split || o.action == Merge) && |o.tokens| == 2)
  }

  lemma ScaledQuotient(d: real, mid: real, k: real)
    requires mid > 0.0
    ensures d / mid * 10000.0 >= k <==> d * 10000.0 >= k * mid
  {
    var q := d / mid;
    assert q * mid == d;
    assert d * 10000.0 == (q * 10000.0) * mid;
    if q * 10000.0 >= k {
      assert (q * 10000.0 - k) * mid >= 0.0;
    } else {
      assert (k - q * 10000.0) * mid > 0.0;
    }
  }

  lemma NegatedQuotient(d: real, mid: real)
    requires mid > 0.0
    ensures -(d / mid * 10000.0) == (-d) / mid * 10000.0
  {
  }

  /** The deviation in whole basis points exceeds the limit exactly if the price is that far away. */
  lemma DeviationIff(price: real, mid: real, bps: int)
    requires mid > 0.0 && bps >= 0
    ensures DeviationBps(price, mid) > bps <==> TooFar(price, mid, bps)
  {
    var x := (price - mid) / mid * 10000.0;
    var k := (bps + 1) as real;
    ScaledQuotient(price - mid, mid, k);
    ScaledQuotient(mid - price, mid, k);
    NegatedQuotient(price - mid, mid);
    assert -(price - mid) == mid - price;
    assert DeviationBps(price, mid) == Abs(x).Floor;
    assert Abs(x).Floor > bps <==> Abs(x) >= k;
    hide DeviationBps;
    assert Abs(x) >= k <==> x >= k || -x >= k;
  }

  /** An intent passes by itself exactly if it is sound; slippage is the reason exactly if a well-formed
      placement is too far from mid. */
  lemma IntentVerdict(lim: Limits, mids: map<string, real>, o: Intent)
    ensures IntentFault(lim, mids, o).Pass? <==> Sound(lim, mids, o)
    ensures IntentFault(lim, mids, o) == Reject(Slippage) <==>
              && IsPlace(o) && o.marketID != "" && o.size > 0.0 && o.tokenID != "" && 0.0 < o.price < 1.0
              && Slips(lim, mids, o)
    ensures IntentFault(lim, mids, o).Reject? ==> IntentFault(lim, mids, o).kind in {InvalidIntent, Slippage}
  {
    if lim.maxSlippageBps > 0 && o.tokenID in mids && mids[o.tokenID] > 0.0 {
      DeviationIff(o.price, mids[o.tokenID], lim.maxSlippageBps);
    }
    hide DeviationBps, TooFar;
  }

  lemma {:induction false} FirstFaultIff(lim: Limits, mids: map<string, real>, intents: seq<Intent>)
    ensures FirstFault(lim, mids, intents).Pass? <==> forall i :: 0 <= i < |intents| ==> Sound(lim, mids, intents[i])
    ensures FirstFault(lim, mids, intents).Reject? ==>
              exists i :: 0 <= i < |intents| && !Sound(lim, mids, intents[i])
                          && FirstFault(lim, mids, intents) == IntentFault(lim, mids, intents[i])
                          && forall j :: 0 <= j < i ==> Sound(lim, mids, intents[j])
  {
    hide Sound, IntentFault;
    if intents == [] {
    } else {
      var rest := intents[1..];
      IntentVerdict(lim, mids, intents[0]);
      FirstFaultIff(lim, mids, rest);
      assert forall i :: 0 <= i < |rest| ==> rest[i] == intents[i + 1];
      if IntentFault(lim, mids, intents[0]).Pass? && FirstFault(lim, mids, intents).Reject? {
        var i :| 0 <= i < |rest| && !Sound(lim, mids, rest[i])
                 && FirstFault(lim, mids, rest) == IntentFault(lim, mids, rest[i])
                 && forall j :: 0 <= j < i ==> Sound(lim, mids, rest[j]);
        assert intents[i + 1] == rest[i];
        assert forall j :: 0 < j < i + 1 ==> intents[j] == rest[j - 1];
      }
    }
  }

  // ---------------------------------------------------------------- what a batch needs

  /** Cash for BUY placements at their limits, and for splits. */
  function CashFor(o: Intent): real {
    if IsPlace(o) && o.side == BUY then o.price * o.size else if o.action == Split then o.size else 0.0
  }

  function CashForAll(intents: seq<Intent>): real {
    if intents == [] then 0.0 else CashForAll(intents[..|intents| - 1]) + CashFor(intents[|intents| - 1])
  }

  /** How often a token is listed. */
  function Times(tokens: seq<string>, t: string): nat {
    multiset(tokens)[t]
  }

  /** Tokens for SELL placements, and for merges of each token they list. */
  function TokensFor(o: Intent, t: string): real {
    if IsPlace(o) then (if o.side == SELL && o.tokenID == t then o.size else 0.0)
    else if o.action == Merge then Times(o.tokens, t) as real * o.size
    else 0.0
  }

  function TokensForAll(intents: seq<Intent>, t: string): real {
    if intents == [] then 0.0 else TokensForAll(intents[..|intents| - 1], t) + TokensFor(intents[|intents| - 1], t)
  }

  /** What placements set aside in a market: cash for BUYs, tokens for SELLs. */
  function ExposureFor(o: Intent, m: string): real {
    if !IsPlace(o) || o.marketID != m then 0.0
    else if o.side == BUY then o.price * o.size else if o.side == SELL then o.size else 0.0
  }

  function ExposureForAll(intents: seq<Intent>, m: string): real {
    if intents == [] then 0.0 else ExposureForAll(intents[..|intents| - 1], m) + ExposureFor(intents[|intents| - 1], m)
  }

  function PlaceCount(intents: seq<Intent>): nat {
    if intents == [] then 0 else PlaceCount(intents[..|intents| - 1]) + if IsPlace(intents[|intents| - 1]) then 1 else 0
  }

  lemma OneMore(n: real, size: real)
    ensures (1.0 + n) * size == size + n * size
  {
  }

  lemma TimesNext(tokens: seq<string>, t: string)
    requires tokens != []
    ensures Times(tokens, t) == (if tokens[0] == t then 1 else 0) + Times(tokens[1..], t)
  {
    assert tokens == [tokens[0]] + tokens[1..];
  }

  function Product(n: nat, size: real): real {
    n as real * size
  }

  lemma ProductNext(n: nat, m: nat, size: real, more: bool)
    requires n == m + if more then 1 else 0
    ensures Product(n, size) == Product(m, size) + if more then size else 0.0
  {
    OneMore(m as real, size);
    if more {
      assert n as real == 1.0 + m as real;
    } else {
      assert n == m;
    }
  }

  lemma NothingListed(size: real, t: string)
    ensures Product(Times([], t), size) == 0.0
  {
  }

  lemma {:induction false} ListedIsTimes(tokens: seq<string>, size: real, t: string)
    ensures ListedNeed(tokens, size, t) == Product(Times(tokens, t), size)
  {
    hide Times, Product;
    if tokens == [] {
      NothingListed(size, t);
    } else {
      ListedIsTimes(tokens[1..], size, t);
      TimesNext(tokens, t);
      ProductNext(Times(tokens, t), Times(tokens[1..], t), size, tokens[0] == t);
    }
  }

  lemma OneNeed(o: Intent, k: string)
    ensures BuyNeed(o) == CashFor(o) && SellNeed(o, k) == TokensFor(o, k) && MarketNeed(o, k) == ExposureFor(o, k)
  {
    ListedIsTimes(o.tokens, o.size, k);
    assert o.size * o.price == o.price * o.size;
  }

  lemma {:induction false} NeedsNext(front: seq<Intent>, o: Intent, k: string)
    ensures TotalBuy(front + [o]) == TotalBuy(front) + BuyNeed(o) && Places(front + [o]) == Places(front) + Places([o])
    ensures TotalSell(front + [o], k) == TotalSell(front, k) + SellNeed(o, k)
    ensures TotalMarket(front + [o], k) == TotalMarket(front, k) + MarketNeed(o, k)
    decreases |front|
  {
    hide BuyNeed, SellNeed, MarketNeed;
    if front == [] {
      assert front + [o] == [o] && [o][1..] == [];
      assert TotalBuy([o][1..]) == 0.0 && TotalSell([o][1..], k) == 0.0 && TotalMarket([o][1..], k) == 0.0;
    } else {
      assert (front + [o])[1..] == front[1..] + [o];
      NeedsNext(front[1..], o, k);
    }
  }

  /** The gate's sums are the sums of what the intents need. */
  lemma {:induction false} NeedsAre(intents: seq<Intent>, k: string)
    ensures TotalBuy(intents) == CashForAll(intents) && Places(intents) == PlaceCount(intents)
    ensures TotalSell(intents, k) == TokensForAll(intents, k) && TotalMarket(intents, k) == ExposureForAll(intents, k)
  {
    if intents == [] {
    } else {
      var n := |intents| - 1;
      var front, o := intents[..n], intents[n];
      assert intents == front + [o];
      NeedsAre(front, k);
      NeedsNext(front, o, k);
      OneNeed(o, k);
      assert [o][1..] == [] && Places([o]) == if IsPlace(o) then 1 else 0;
      hide BuyNeed, SellNeed, MarketNeed, CashFor, TokensFor, ExposureFor;
    }
  }

  /** An order counts towards its market's exposure with what it reserves. */
  lemma ExposureOf(orders: map<string, Order>, o: Order, m: string)
    ensures Sum(orders[o.orderID := o], InMarket(m))
         == Sum(orders - {o.orderID}, InMarket(m)) + if o.terms.marketID == m then o.reserved else 0.0
  {
    SumUpdate(orders, InMarket(m), o.orderID, o);
    SumDrop(orders, InMarket(m), o.orderID);
  }

  // ---------------------------------------------------------------- the verdict

  predicate LostTooMuch(lim: Limits, s: Snapshot) {
    lim.maxDailyLoss > 0.0 && s.dailyPnL <= -lim.maxDailyLoss
  }

  ghost predicate CancelsOnly(intents: seq<Intent>) {
    forall i :: 0 <= i < |intents| ==> intents[i].action == Cancel
  }

  ghost predicate AllSound(lim: Limits, mids: map<string, real>, intents: seq<Intent>) {
    forall i :: 0 <= i < |intents| ==> Sound(lim, mids, intents[i])
  }

  ghost predicate Rested(lim: Limits, last: map<string, int>, intents: seq<Intent>, now: int) {
    lim.marketCooldown > 0 ==>
      forall i :: 0 <= i < |intents| && IsPlace(intents[i]) && intents[i].marketID in last ==>
        now >= last[intents[i].marketID] + lim.marketCooldown
  }

  predicate FewEnough(lim: Limits, intents: seq<Intent>, s: Snapshot) {
    lim.maxOpenOrders > 0 ==> s.openOrderCount + PlaceCount(intents) <= lim.maxOpenOrders
  }

  ghost predicate WithinCaps(lim: Limits, intents: seq<Intent>, s: Snapshot) {
    lim.maxExposurePerMarket > 0.0 ==>
      forall m :: ExposureForAll(intents, m) > 0.0 ==>
        Sum(s.orders, InMarket(m)) + ExposureForAll(intents, m) <= lim.maxExposurePerMarket + EPS
  }

  predicate CashCovers(intents: seq<Intent>, b: Balance) {
    CashForAll(intents) > 0.0 ==>
      && b.available > b.minBalance + EPS && b.available + EPS >= CashForAll(intents)
      && b.available - CashForAll(intents) > b.minBalance + EPS
  }

  ghost predicate TokensCover(intents: seq<Intent>, s: Snapshot) {
    forall t :: TokensForAll(intents, t) > 0.0 ==>
      t in s.tokens && s.tokens[t].available >= TokensForAll(intents, t)
  }

  /** The gate's conditions, one by one, on the fields. */
  lemma Conditions(lim: Limits, last: map<string, int>, intents: seq<Intent>, s: Snapshot, mids: map<string, real>,
                   now: int)
    ensures LossStop(lim, intents, s) <==> LostTooMuch(lim, s) && !CancelsOnly(intents)
    ensures FirstFault(lim, mids, intents).Pass? <==> AllSound(lim, mids, intents)
    ensures Cooling(lim, last, intents, now) <==> !Rested(lim, last, intents, now)
    ensures lim.maxOpenOrders > 0 && s.openOrderCount + Places(intents) > lim.maxOpenOrders <==>
              !FewEnough(lim, intents, s)
    ensures OverExposed(lim, intents, s) <==> !WithinCaps(lim, intents, s)
    ensures CashVerdict(TotalBuy(intents), s.balance).Pass? <==> CashCovers(intents, s.balance)
    ensures Short(intents, s) <==> !TokensCover(intents, s)
  {
    FirstFaultIff(lim, mids, intents);
    NeedsAre(intents, "");
    forall k
      ensures TotalMarket(intents, k) == ExposureForAll(intents, k)
      ensures TotalSell(intents, k) == TokensForAll(intents, k)
    {
      NeedsAre(intents, k);
    }
    hide FirstFault, TotalBuy, TotalSell, TotalMarket, Places, Sum, Sound, CashForAll, TokensForAll, ExposureForAll,
         PlaceCount, InMarket;
  }

  /** A batch passes exactly if it is empty, or all of this holds. */
  lemma PassIff(lim: Limits, last: map<string, int>, intents: seq<Intent>, s: Snapshot, mids: map<string, real>,
                now: int)
    ensures Judge(lim, last, intents, s, mids, now).Pass? <==>
              || intents == []
              || (&& (LostTooMuch(lim, s) ==> CancelsOnly(intents)) && AllSound(lim, mids, intents)
                  && Rested(lim, last, intents, now) && FewEnough(lim, intents, s) && WithinCaps(lim, intents, s)
                  && CashCovers(intents, s.balance) && TokensCover(intents, s))
  {
    Conditions(lim, last, intents, s, mids, now);
    hide LossStop, FirstFault, Cooling, OverExposed, CashVerdict, Short, Places, LostTooMuch, CancelsOnly, AllSound,
         Rested, FewEnough, WithinCaps, CashCovers, TokensCover;
  }

  /** The reason is the first condition that fails. */
  lemma ReasonIs(lim: Limits, last: map<string, int>, intents: seq<Intent>, s: Snapshot, mids: map<string, real>,
                 now: int)
    requires intents != []
    ensures var v := Judge(lim, last, intents, s, mids, now);
            var stopped := LostTooMuch(lim, s) && !CancelsOnly(intents);
            && (v == Reject(DailyLoss) <==> stopped)
            && (!stopped && !AllSound(lim, mids, intents) ==> v == FirstFault(lim, mids, intents))
            && (!stopped && AllSound(lim, mids, intents) ==>
                  && (v == Reject(Cooldown) <==> !Rested(lim, last, intents, now))
                  && (Rested(lim, last, intents, now) ==>
                        && (v == Reject(MaxOpenOrders) <==> !FewEnough(lim, intents, s))
                        && (FewEnough(lim, intents, s) ==>
                              && (v == Reject(ExposureCap) <==> !WithinCaps(lim, intents, s))
                              && (WithinCaps(lim, intents, s) ==>
                                    && (v in {Reject(BelowMinReserve), Reject(InsufficientBalanceRisk)} <==>
                                          !CashCovers(intents, s.balance))
                                    && (CashCovers(intents, s.balance) ==>
                                          (v == Reject(InsufficientPositionRisk) <==> !TokensCover(intents, s)))))))
  {
    Conditions(lim, last, intents, s, mids, now);
    FaultKinds(lim, mids, intents);
    CashKinds(TotalBuy(intents), s.balance);
    hide LossStop, FirstFault, Cooling, OverExposed, CashVerdict, Short, Places, TotalBuy, LostTooMuch, CancelsOnly,
         AllSound, Rested, FewEnough, WithinCaps, CashCovers, TokensCover;
  }

  lemma FaultKinds(lim: Limits, mids: map<string, real>, intents: seq<Intent>)
    ensures FirstFault(lim, mids, intents).Reject? ==> FirstFault(lim, mids, intents).kind in {InvalidIntent, Slippage}
  {
    FirstFaultIff(lim, mids, intents);
    if FirstFault(lim, mids, intents).Reject? {
      var i :| 0 <= i < |intents| && FirstFault(lim, mids, intents) == IntentFault(lim, mids, intents[i]);
      IntentVerdict(lim, mids, intents[i]);
    }
  }

  lemma CashKinds(need: real, b: Balance)
    ensures CashVerdict(need, b).Reject? ==> CashVerdict(need, b).kind in {BelowMinReserve, InsufficientBalanceRisk}
    ensures CashVerdict(need, b) == Reject(InsufficientBalanceRisk) <==>
              need > 0.0 && b.available > b.minBalance + EPS && b.available + EPS < need
  {
  }

  /** Passing batches are remembered, market by market, with the time of the check. */
  lemma {:induction false} RememberedAt(lim: Limits, last: map<string, int>, intents: seq<Intent>, now: int, m: string)
    ensures var l := Recorded(lim, last, intents, now);
            var placed := exists i :: 0 <= i < |intents| && IsPlace(intents[i]) && intents[i].marketID == m;
            if lim.marketCooldown > 0 && placed then m in l && l[m] == now
            else (m in l <==> m in last) && (m in last ==> l[m] == last[m])
  {
    if lim.marketCooldown > 0 { RecordedAt(lim, last, intents, now, m); }
    assert forall i :: 0 <= i < |intents| ==> (IsPlace(intents[i]) <==> intents[i].Placing());
    hide Recorded;
    RecordedOff(lim, last, intents, now);
  }

  lemma RecordedOff(lim: Limits, last: map<string, int>, intents: seq<Intent>, now: int)
    ensures lim.marketCooldown <= 0 ==> Recorded(lim, last, intents, now) == last
  {
  }

  // ---------------------------------------------------------------- losses stop trading

  /** Once the SELL fills of a day have realized a loss of the limit or more, whatever else the day
      brought, no batch that does anything but cancel passes any more on that ledger. */
  lemma LossesStopTrading(l: Ledger, ops: seq<Op>, day: string, lim: Limits, last: map<string, int>,
                          intents: seq<Intent>, mids: map<string, real>, now: int)
    requires Fills.OnDay(l, day) && Fills.AllFillsOn(ops, day) && lim.maxDailyLoss > 0.0
    requires l.dailyPnL + Fills.TotalRealized(l, ops) <= -lim.maxDailyLoss
    ensures var v := Judge(lim, last, intents, SnapshotOf(Run(l, ops)), mids, now);
            (!CancelsOnly(intents) ==> v == Reject(DailyLoss)) && (v == Pass ==> CancelsOnly(intents))
  {
    Fills.RunRealizes(l, ops, day);
    hide Run, Judge;
    if intents != [] { ReasonIs(lim, last, intents, SnapshotOf(Run(l, ops)), mids, now); }
  }
}
