/** The risk engine object and the submission of a batch through it. */
module Gates {
  import opened Core
  import opened Ledgers
  import opened Restores
  import opened States
  import opened Sums
  import opened Risks
  import Books

  function Get(m: map<string, real>, k: string): real {
    if k in m then m[k] else 0.0
  }

  class RiskEngine {
    const lim: Limits
    var last: map<string, int>

    constructor (lim: Limits)
      ensures this.lim == lim && last == map[]
    {
      this.lim := lim;
      last := map[];
    }

    static method AddTokens(m: map<string, real>, tokens: seq<string>, size: real) returns (r: map<string, real>)
      requires size > 0.0 && forall t :: t in m ==> m[t] > 0.0
      ensures forall t :: Get(r, t) == Get(m, t) + ListedNeed(tokens, size, t)
      ensures forall t :: t in r ==> r[t] > 0.0
    {
      r := m;
      var i := 0;
      while i < |tokens|
        invariant i <= |tokens|
        invariant forall t :: Get(r, t) + ListedNeed(tokens[i..], size, t) == Get(m, t) + ListedNeed(tokens, size, t)
        invariant forall t :: t in r ==> r[t] > 0.0
      {
        ghost var before := r;
        var k := tokens[i];
        r := r[k := Get(r, k) + size];
        forall t
          ensures Get(r, t) + ListedNeed(tokens[i + 1..], size, t) == Get(before, t) + ListedNeed(tokens[i..], size, t)
        {
          assert tokens[i..][1..] == tokens[i + 1..];
        }
        i := i + 1;
      }
    }

    /** One pass over the batch: the first fault, or everything the batch needs. */
    method Tally(intents: seq<Intent>, mids: map<string, real>)
      returns (fault: Verdict, buy: real, sell: map<string, real>, exposure: map<string, real>, places: nat)
      ensures fault == FirstFault(lim, mids, intents)
      ensures fault.Pass? ==> buy == TotalBuy(intents) && places == Places(intents)
      ensures fault.Pass? ==> forall t :: Get(sell, t) == TotalSell(intents, t) && (t in sell ==> sell[t] > 0.0)
      ensures fault.Pass? ==>
                forall m :: Get(exposure, m) == TotalMarket(intents, m) && (m in exposure ==> exposure[m] > 0.0)
    {
      fault, buy, sell, exposure, places := Pass, 0.0, map[], map[], 0;
      var i := 0;
      while i < |intents|
        invariant i <= |intents| && fault == Pass
        invariant FirstFault(lim, mids, intents[i..]) == FirstFault(lim, mids, intents)
        invariant buy + TotalBuy(intents[i..]) == TotalBuy(intents) && places + Places(intents[i..]) == Places(intents)
        invariant forall t :: Get(sell, t) + TotalSell(intents[i..], t) == TotalSell(intents, t)
        invariant forall m :: Get(exposure, m) + TotalMarket(intents[i..], m) == TotalMarket(intents, m)
        invariant forall t :: t in sell ==> sell[t] > 0.0
        invariant forall m :: m in exposure ==> exposure[m] > 0.0
      {
        var o := intents[i];
        assert intents[i..][0] == o && intents[i..][1..] == intents[i + 1..];
        fault := IntentFault(lim, mids, o);
        if fault.Reject? { return; }
        var b, p;
        b, sell, exposure, p := TallyOne(o, mids, sell, exposure);
        buy, places := buy + b, places + p;
        i := i + 1;
      }
    }

    method TallyOne(o: Intent, mids: map<string, real>, sell: map<string, real>, exposure: map<string, real>)
      returns (b: real, sell': map<string, real>, exposure': map<string, real>, p: nat)
      requires IntentFault(lim, mids, o).Pass?
      requires (forall t :: t in sell ==> sell[t] > 0.0) && (forall m :: m in exposure ==> exposure[m] > 0.0)
      ensures b == BuyNeed(o) && p == if o.Placing() then 1 else 0
      ensures forall t :: Get(sell', t) == Get(sell, t) + SellNeed(o, t) && (t in sell' ==> sell'[t] > 0.0)
      ensures forall m ::
                Get(exposure', m) == Get(exposure, m) + MarketNeed(o, m) && (m in exposure' ==> exposure'[m] > 0.0)
    {
      b, sell', exposure', p := 0.0, sell, exposure, 0;
      if o.action.Cancel? { return; }
      if o.Placing() {
        p := 1;
        OneNeedNonNegative(lim, mids, o, "");
        Books.CollateralPositive(o.Terms());
        var amount := RequiredCollateral(o.side, o.price, o.size);
        if o.side == BUY {
          b := amount;
        } else {
          sell' := sell[o.tokenID := Get(sell, o.tokenID) + amount];
        }
        exposure' := exposure[o.marketID := Get(exposure, o.marketID) + amount];
      } else if o.action.Split? {
        b := o.size;
      } else {
        sell' := AddTokens(sell, o.tokens, o.size);
      }
    }

    method InCooldown(intents: seq<Intent>, now: int) returns (hit: bool)
      requires lim.marketCooldown > 0
      ensures hit <==> Cooling(lim, last, intents, now)
    {
      var i := 0;
      while i < |intents|
        invariant i <= |intents|
        invariant forall j :: 0 <= j < i ==> !(intents[j].Placing() && intents[j].marketID in last
                                               && now - last[intents[j].marketID] < lim.marketCooldown)
      {
        var o := intents[i];
        if o.Placing() && o.marketID in last && now - last[o.marketID] < lim.marketCooldown { return true; }
        i := i + 1;
      }
      hit := false;
    }

    /** Reserved amounts of the open orders, by market. */
    static method ExistingExposure(orders: map<string, Order>) returns (existing: map<string, real>)
      ensures forall m :: Get(existing, m) == Sum(orders, InMarket(m))
    {
      hide Sum;
      existing := map[];
      var todo := orders;
      while todo != map[]
        invariant forall m :: Get(existing, m) + Sum(todo, InMarket(m)) == Sum(orders, InMarket(m))
        decreases |todo|
      {
        var k :| k in todo;
        var o := todo[k];
        ghost var before := existing;
        existing := existing[o.terms.marketID := Get(existing, o.terms.marketID) + o.reserved];
        forall m ensures Get(existing, m) + Sum(todo - {k}, InMarket(m)) == Get(before, m) + Sum(todo, InMarket(m)) {
          SumRemove(todo, InMarket(m), k);
        }
        todo := todo - {k};
      }
      forall m ensures Get(existing, m) == Sum(orders, InMarket(m)) {
        SumEmpty<string, Order>(InMarket(m));
      }
    }

    method ExceedsCap(exposure: map<string, real>, orders: map<string, Order>) returns (hit: bool)
      ensures hit <==>
                exists m :: m in exposure && Sum(orders, InMarket(m)) + exposure[m] > lim.maxExposurePerMarket + EPS
    {
      var existing := ExistingExposure(orders);
      var todo := exposure.Keys;
      while todo != {}
        invariant todo <= exposure.Keys
        invariant forall m :: m in exposure && m !in todo ==>
                    Sum(orders, InMarket(m)) + exposure[m] <= lim.maxExposurePerMarket + EPS
        decreases |todo|
      {
        var m :| m in todo;
        if Get(existing, m) + exposure[m] > lim.maxExposurePerMarket + EPS { return true; }
        todo := todo - {m};
      }
      hit := false;
    }

    static method LacksTokens(sell: map<string, real>, tokens: map<string, TokenPosition>) returns (hit: bool)
      ensures hit <==> exists t :: t in sell && TokenAt(tokens, t).available < sell[t]
    {
      var todo := sell.Keys;
      while todo != {}
        invariant todo <= sell.Keys
        invariant forall t :: t in sell && t !in todo ==> TokenAt(tokens, t).available >= sell[t]
        decreases |todo|
      {
        var t :| t in todo;
        if TokenAt(tokens, t).available < sell[t] { return true; }
        todo := todo - {t};
      }
      hit := false;
    }

    method RecordPlacements(intents: seq<Intent>, now: int)
      modifies this`last
      ensures last == Recorded(lim, old(last), intents, now)
    {
      if lim.marketCooldown <= 0 { return; }
      var i := 0;
      while i < |intents|
        invariant i <= |intents|
        invariant last == Recorded(lim, old(last), intents[..i], now)
      {
        assert intents[..i + 1][..i] == intents[..i];
        if intents[i].Placing() { last := last[intents[i].marketID := now]; }
        i := i + 1;
      }
      assert intents[..i] == intents;
    }

    method Check(intents: seq<Intent>, s: Snapshot, mids: map<string, real>, now: int) returns (v: Verdict)
      modifies this`last
      ensures v == Judge(lim, old(last), intents, s, mids, now)
      ensures last == if v.Pass? then Recorded(lim, old(last), intents, now) else old(last)
    {
      hide Sum;
      if |intents| == 0 { return Pass; }
      if lim.maxDailyLoss > 0.0 && -s.dailyPnL >= lim.maxDailyLoss
         && exists i :: 0 <= i < |intents| && !intents[i].action.Cancel? { return Reject(DailyLoss); }
      var buy, sell, exposure, places;
      v, buy, sell, exposure, places := Tally(intents, mids);
      if v.Reject? { return; }
      assert forall m :: m in exposure <==> TotalMarket(intents, m) > 0.0;
      assert forall t :: t in sell <==> TotalSell(intents, t) > 0.0;
      if lim.marketCooldown > 0 {
        var cooling := InCooldown(intents, now);
        if cooling { return Reject(Cooldown); }
      }
      if lim.maxOpenOrders > 0 && s.openOrderCount + places > lim.maxOpenOrders { return Reject(MaxOpenOrders); }
      if lim.maxExposurePerMarket > 0.0 {
        var over := ExceedsCap(exposure, s.orders);
        if over { return Reject(ExposureCap); }
      }
      v := CashVerdict(buy, s.balance);
      if v.Reject? { return; }
      var short := LacksTokens(sell, s.tokens);
      if short { return Reject(InsufficientPositionRisk); }
      RecordPlacements(intents, now);
    }
  }

  // ---------------------------------------------------------------- submission

  /** Placed intents without an id get one; an unset action means PLACE. */
  function Named(o: Intent, newID: string): Intent {
    if !o.Placing() then o
    else o.(action := Place, intentID := if o.intentID == "" then newID else o.intentID)
  }

  function NamedAll(intents: seq<Intent>, newIDs: seq<string>): seq<Intent>
    requires |newIDs| == |intents|
  {
    seq(|intents|, i requires 0 <= i < |intents| => Named(intents[i], newIDs[i]))
  }

  /** Naming keeps everything but an unset action and a missing id of a placement. */
  lemma NamingKeepsTheRest(intents: seq<Intent>, newIDs: seq<string>, i: nat)
    requires |newIDs| == |intents| && i < |intents|
    ensures var o, o' := intents[i], NamedAll(intents, newIDs)[i];
            && o' == o.(action := o'.action, intentID := o'.intentID)
            && (o.action == Unset ==> o'.action == Place) && (o.action != Unset ==> o'.action == o.action)
            && (o.intentID != "" || !(o.action == Unset || o.action == Place) ==> o'.intentID == o.intentID)
            && (o.intentID == "" && (o.action == Unset || o.action == Place) ==> o'.intentID == newIDs[i])
  {
  }

  /** What is handed to the executor: everything but the placements that could not be reserved. */
  function Submitted(l: Ledger, intents: seq<Intent>, now: int, ttl: int): seq<Intent>
    decreases |intents|
  {
    if intents == [] then []
    else
      var o := intents[0];
      if !o.Placing() then [o] + Submitted(l, intents[1..], now, ttl)
      else
        var r := TryReserve(l, o.intentID, o.Terms(), now, ttl);
        (if r.outcome.Done? then [o] else []) + Submitted(r.ledger, intents[1..], now, ttl)
  }

  lemma {:induction false} NamingKeepsNeeds(lim: Limits, mids: map<string, real>, intents: seq<Intent>,
                                            newIDs: seq<string>, k: string)
    requires |newIDs| == |intents|
    ensures var batch := NamedAll(intents, newIDs);
            && FirstFault(lim, mids, batch) == FirstFault(lim, mids, intents)
            && TotalBuy(batch) == TotalBuy(intents) && Places(batch) == Places(intents)
            && TotalSell(batch, k) == TotalSell(intents, k) && TotalMarket(batch, k) == TotalMarket(intents, k)
    decreases |intents|
  {
    if intents == [] {
    } else {
      var batch := NamedAll(intents, newIDs);
      assert batch[1..] == NamedAll(intents[1..], newIDs[1..]);
      NamingKeepsNeeds(lim, mids, intents[1..], newIDs[1..], k);
      var o, o' := intents[0], batch[0];
      assert IntentFault(lim, mids, o') == IntentFault(lim, mids, o) && BuyNeed(o') == BuyNeed(o);
      assert SellNeed(o', k) == SellNeed(o, k) && MarketNeed(o', k) == MarketNeed(o, k);
    }
  }

  /** Naming does not change the verdict. */
  lemma NamingKeepsVerdict(lim: Limits, last: map<string, int>, intents: seq<Intent>, newIDs: seq<string>, s: Snapshot,
                           mids: map<string, real>, now: int)
    requires |newIDs| == |intents|
    ensures Judge(lim, last, NamedAll(intents, newIDs), s, mids, now) == Judge(lim, last, intents, s, mids, now)
  {
    var batch := NamedAll(intents, newIDs);
    forall k ensures TotalSell(batch, k) == TotalSell(intents, k) && TotalMarket(batch, k) == TotalMarket(intents, k) {
      NamingKeepsNeeds(lim, mids, intents, newIDs, k);
    }
    NamingKeepsNeeds(lim, mids, intents, newIDs, "");
    hide FirstFault, TotalBuy, TotalSell, TotalMarket, Places, Sum;
    assert forall i :: 0 <= i < |intents| ==> batch[i] == Named(intents[i], newIDs[i]);
    assert LossStop(lim, batch, s) == LossStop(lim, intents, s);
    assert Cooling(lim, last, batch, now) == Cooling(lim, last, intents, now);
  }

  /** A fully reserved batch is submitted as a whole. */
  lemma {:induction false} ReservedIsSubmitted(l: Ledger, intents: seq<Intent>, now: int, ttl: int)
    requires AllReserved(l, intents, now, ttl)
    ensures Submitted(l, intents, now, ttl) == intents
    decreases |intents|
  {
    if intents == [] {
    } else {
      var o := intents[0];
      hide TryReserve;
      ReservedIsSubmitted(if o.Placing() then TryReserve(l, o.intentID, o.Terms(), now, ttl).ledger else l,
                          intents[1..], now, ttl);
    }
  }

  /** What is handed on grows by the next intent unless its reservation fails. */
  lemma {:induction false} SubmittedNext(l: Ledger, front: seq<Intent>, o: Intent, now: int, ttl: int)
    ensures var r := TryReserve(ReserveAll(l, front, now, ttl), o.intentID, o.Terms(), now, ttl);
            Submitted(l, front + [o], now, ttl)
            == Submitted(l, front, now, ttl) + if o.Placing() && r.outcome.Fail? then [] else [o]
    decreases |front|
  {
    hide TryReserve;
    if front == [] {
      assert [o][1..] == [] && front + [o] == [o];
    } else {
      var x := front[0];
      assert (front + [o])[1..] == front[1..] + [o];
      SubmittedNext(if x.Placing() then TryReserve(l, x.intentID, x.Terms(), now, ttl).ledger else l,
                    front[1..], o, now, ttl);
    }
  }

  /** Reserves the placements of a batch one after the other. */
  method ReserveBatch(state: State, intents: seq<Intent>, now: int, ttl: int, newIDs: seq<string>)
    returns (submit: seq<Intent>)
    requires |newIDs| == |intents|
    modifies state
    ensures state.View() == ReserveAll(old(state.View()), NamedAll(intents, newIDs), now, ttl)
    ensures submit == Submitted(old(state.View()), NamedAll(intents, newIDs), now, ttl)
  {
    submit := [];
    ghost var batch := NamedAll(intents, newIDs);
    ghost var start := state.View();
    var i := 0;
    while i < |intents|
      invariant i <= |intents|
      invariant state.View() == ReserveAll(start, batch[..i], now, ttl)
      invariant submit == Submitted(start, batch[..i], now, ttl)
    {
      hide TryReserve, ReserveAll, Submitted;
      var o := Named(intents[i], newIDs[i]);
      assert batch[..i + 1] == batch[..i] + [o];
      ReserveAllNext(start, batch[..i], o, now, ttl);
      SubmittedNext(start, batch[..i], o, now, ttl);
      if !o.Placing() {
        submit := submit + [o];
      } else {
        var out := state.TryReserveProvisional(o.intentID, o.Terms(), now, ttl);
        if out.Done? { submit := submit + [o]; }
      }
      i := i + 1;
    }
    assert batch[..i] == batch;
  }

  /** A batch is judged, reserved and handed on. Against a current snapshot and with new intent ids,
      a passing batch is handed on whole. */
  method SubmitIntents(state: State, risk: RiskEngine, intents: seq<Intent>, snap: Snapshot, mids: map<string, real>,
                       now: int, ttl: int, newIDs: seq<string>) returns (passed: bool, submit: seq<Intent>)
    requires |newIDs| == |intents|
    modifies state, risk
    ensures passed == Judge(risk.lim, old(risk.last), intents, snap, mids, now).Pass?
    ensures !passed ==> submit == [] && state.View() == old(state.View())
    ensures passed ==> state.View() == ReserveAll(old(state.View()), NamedAll(intents, newIDs), now, ttl)
    ensures passed ==> submit == Submitted(old(state.View()), NamedAll(intents, newIDs), now, ttl)
    ensures passed && snap == SnapshotOf(old(state.View())) && snap.balance.minBalance >= 0.0
            && FreshIDs(old(state.View()), NamedAll(intents, newIDs)) ==>
              && submit == NamedAll(intents, newIDs)
              && (TotalBuy(intents) > 0.0 ==> state.balance.available > snap.balance.minBalance)
  {
    ghost var start := state.View();
    var v := risk.Check(intents, snap, mids, now);
    if v.Reject? { return false, []; }
    submit := ReserveBatch(state, intents, now, ttl, newIDs);
    passed := true;
    if snap == SnapshotOf(start) && snap.balance.minBalance >= 0.0 && FreshIDs(start, NamedAll(intents, newIDs)) {
      PassedIsSubmitted(start, risk.lim, old(risk.last), intents, newIDs, mids, now, ttl);
    }
  }

  lemma PassedIsSubmitted(l: Ledger, lim: Limits, last: map<string, int>, intents: seq<Intent>, newIDs: seq<string>,
                          mids: map<string, real>, now: int, ttl: int)
    requires |newIDs| == |intents| && Judge(lim, last, intents, SnapshotOf(l), mids, now).Pass?
    requires l.balance.minBalance >= 0.0 && FreshIDs(l, NamedAll(intents, newIDs))
    ensures Submitted(l, NamedAll(intents, newIDs), now, ttl) == NamedAll(intents, newIDs)
    ensures TotalBuy(intents) > 0.0 ==>
              ReserveAll(l, NamedAll(intents, newIDs), now, ttl).balance.available > l.balance.minBalance
  {
    var batch := NamedAll(intents, newIDs);
    NamingKeepsVerdict(lim, last, intents, newIDs, SnapshotOf(l), mids, now);
    NamingKeepsNeeds(lim, mids, intents, newIDs, "");
    PassedBatchReserves(l, lim, last, mids, batch, now, ttl);
    ReservedIsSubmitted(l, batch, now, ttl);
  }
}
