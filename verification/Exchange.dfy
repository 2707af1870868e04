/**
 Reconciliation, restore and the on-chain balance, told on the fields the exchange reports: what is
 open is what was ordered less what was matched, what is held is the sum of what is reported.
 */
module Exchanges {
  import opened Core
  import opened Ledgers
  import opened Reconcile
  import opened Restores

  /** The exchange still has `originalSize - sizeMatched` of the order open. */
  predicate StillOpen(ro: RemoteOrder) {
    ro.originalSize > ro.sizeMatched
  }

  /** An order that reconciliation may take over. */
  predicate WellFormed(id: string, ro: RemoteOrder) {
    && id != "" && ro.marketID != "" && ro.assetID != "" && (ro.side == BUY || ro.side == SELL)
    && StillOpen(ro) && 0.0 < ro.price < 1.0
  }

  /** What a restored or adopted order sets aside. */
  function Backing(ro: RemoteOrder): real {
    if ro.side == BUY then ro.price * (ro.originalSize - ro.sizeMatched) else ro.originalSize - ro.sizeMatched
  }

  /** Equal up to the tolerance of one billionth. */
  predicate Near(x: real, y: real) {
    -0.000000001 <= x - y <= 0.000000001
  }

  /** After a pass an order is there exactly if the exchange reports it and it was there before or is
      well-formed. */
  lemma ReconciledKeys(orders: map<string, Order>, remote: map<string, RemoteOrder>, id: string)
    ensures id in Reconciled(orders, remote) <==> id in remote && (id in orders || WellFormed(id, remote[id]))
  {
  }

  /** Whatever the exchange has open is open locally for what is left of it, at its price. */
  lemma ReconciledSizes(orders: map<string, Order>, remote: map<string, RemoteOrder>, id: string)
    requires id in Reconciled(orders, remote) && StillOpen(remote[id])
    ensures Near(Reconciled(orders, remote)[id].terms.size, remote[id].originalSize - remote[id].sizeMatched)
    ensures Near(Reconciled(orders, remote)[id].terms.price, remote[id].price)
  {
  }

  /** A known order keeps its reservation, market, token, side and origin; it is rewritten exactly if
      the exchange has it open and size or price are off. */
  lemma ReconciledKnown(orders: map<string, Order>, remote: map<string, RemoteOrder>, id: string)
    requires id in orders && id in remote
    ensures var o, o', ro := orders[id], Reconciled(orders, remote)[id], remote[id];
            var left := ro.originalSize - ro.sizeMatched;
            && o' == o.(terms := o.terms.(size := o'.terms.size, price := o'.terms.price))
            && (if StillOpen(ro) && !(Near(o.terms.size, left) && Near(o.terms.price, ro.price))
                then o'.terms.size == left && o'.terms.price == ro.price
                else o' == o)
  {
  }

  /** An order taken over has the exchange's market, token, side, price and open size, and sets aside
      what that takes. */
  lemma ReconciledNew(orders: map<string, Order>, remote: map<string, RemoteOrder>, id: string)
    requires id !in orders && id in Reconciled(orders, remote)
    ensures var o, ro := Reconciled(orders, remote)[id], remote[id];
            && o.orderID == id && o.externalOrigin
            && o.terms.marketID == ro.marketID && o.terms.tokenID == ro.assetID && o.terms.side == ro.side
            && o.terms.price == ro.price && o.terms.size == ro.originalSize - ro.sizeMatched
            && o.reserved == Backing(ro) > 0.0
  {
  }

  /** The reports of a pass, order by order. */
  lemma ReportedOrders(orders: map<string, Order>, remote: map<string, RemoteOrder>, id: string)
    ensures id in RemovedIDs(orders, remote) <==> id in orders && id !in remote
    ensures id in AddedIDs(orders, remote) <==> id in remote && id !in orders && WellFormed(id, remote[id])
    ensures id in UpdatedIDs(orders, remote) <==>
              && id in remote && id in orders && StillOpen(remote[id])
              && !(&& Near(orders[id].terms.size, remote[id].originalSize - remote[id].sizeMatched)
                   && Near(orders[id].terms.price, remote[id].price))
  {
  }

  /** The last report of an id counts. */
  lemma {:induction false} LastReportCounts(remote: seq<RemoteOrder>, i: nat)
    requires i < |remote| && remote[i].id != "" && forall j :: i < j < |remote| ==> remote[j].id != remote[i].id
    ensures remote[i].id in RemoteByID(remote) && RemoteByID(remote)[remote[i].id] == remote[i]
    decreases |remote|
  {
    var n := |remote| - 1;
    if i == n {
    } else {
      LastReportCounts(remote[..n], i);
    }
  }

  // ---------------------------------------------------------------- restore

  /** A report that a restore takes up. */
  predicate Restorable(ro: RemoteOrder) {
    ro.id != "" && StillOpen(ro) && (ro.side == SELL || (ro.side == BUY && ro.price > 0.0))
  }

  lemma RestorableIff(ro: RemoteOrder)
    ensures Restorable(ro) <==> !(ro.Remaining() <= 0.0 || Collateral(ro.AsTerms()) <= 0.0 || ro.id == "")
    ensures Restorable(ro) ==>
              && ro.Remaining() == ro.originalSize - ro.sizeMatched
              && Collateral(ro.AsTerms()) == Backing(ro)
  {
    if StillOpen(ro) && ro.side == BUY {
      assert ro.price > 0.0 ==> Collateral(ro.AsTerms()) > 0.0;
      assert ro.price <= 0.0 ==> Collateral(ro.AsTerms()) <= 0.0;
    }
  }

  /** The first report of an id that a restore takes up decides: what is left of the order, at its price. */
  lemma {:induction false} FirstReportRestored(remote: seq<RemoteOrder>, i: nat)
    requires i < |remote| && Restorable(remote[i])
    requires forall j :: 0 <= j < i ==> remote[j].id != remote[i].id || !Restorable(remote[j])
    ensures var ro := remote[i];
            && ro.id in RestoredOrders(remote)
            && RestoredOrders(remote)[ro.id]
               == Order(ro.id, Terms(ro.marketID, ro.assetID, ro.side, ro.price, ro.originalSize - ro.sizeMatched),
                        Backing(ro), false)
    decreases |remote|
  {
    var n := |remote| - 1;
    var front := remote[..n];
    RestorableIff(remote[i]);
    if i == n {
      if remote[i].id in RestoredOrders(front) {
        var _ := RestoredFrom(front, remote[i].id);
      }
    } else {
      FirstReportRestored(front, i);
    }
  }

  /** Nothing else is restored. */
  lemma {:induction false} RestoredFrom(remote: seq<RemoteOrder>, id: string) returns (i: nat)
    requires id in RestoredOrders(remote)
    ensures i < |remote| && remote[i].id == id && Restorable(remote[i])
    decreases |remote|
  {
    var n := |remote| - 1;
    if id in RestoredOrders(remote[..n]) {
      i := RestoredFrom(remote[..n], id);
    } else {
      i := n;
      RestorableIff(remote[n]);
    }
  }

  // ---------------------------------------------------------------- positions

  /** What is reported of token `t`, in all; reports that are not positive do not count. */
  function Reported(items: seq<(string, real)>, t: string): real {
    if items == [] then 0.0
    else (if items[0].0 == t && items[0].1 > 0.0 then items[0].1 else 0.0) + Reported(items[1..], t)
  }

  lemma {:induction false} ReportedNext(items: seq<(string, real)>, x: (string, real), t: string)
    ensures Reported(items + [x], t) == Reported(items, t) + if x.0 == t && x.1 > 0.0 then x.1 else 0.0
    decreases |items|
  {
    if items == [] {
      assert items + [x] == [x] && [x][1..] == [];
      assert Reported([x][1..], t) == 0.0;
    } else {
      assert (items + [x])[1..] == items[1..] + [x];
      ReportedNext(items[1..], x, t);
    }
  }

  lemma {:induction false} RemoteIsReported(items: seq<(string, real)>, t: string)
    requires t != ""
    ensures (if t in RemoteByToken(items) then RemoteByToken(items)[t] else 0.0) == Reported(items, t)
  {
    if items == [] {
    } else {
      var n := |items| - 1;
      assert items == items[..n] + [items[n]];
      RemoteIsReported(items[..n], t);
      ReportedNext(items[..n], items[n], t);
    }
  }

  /** A restore holds exactly the reported tokens, each with the sum of its reports available, nothing
      reserved and no cost. */
  lemma RestoredPositions(items: seq<(string, real)>, t: string)
    requires t != ""
    ensures t in RestoredTokens(items) <==> Reported(items, t) > 0.0
    ensures t in RestoredTokens(items) ==>
              RestoredTokens(items)[t] == TokenPosition(Reported(items, t), 0.0, 0.0, false, 0.0)
  {
    RemoteIsReported(items, t);
    RemoteSizesPositive(items);
    hide RemoteByToken, Reported;
  }

  /** A position pass, token by token: new tokens come as reported, known ones move only if they are
      off, and then only in their available part. */
  lemma PassedPosition(l: Ledger, items: seq<(string, real)>, gone: seq<string>, seen: seq<string>, t: string)
    requires PositionVisits(l, RemoteByToken(items), gone, seen) && t != ""
    ensures var l', size := PositionPass(l, RemoteByToken(items), gone, seen), Reported(items, t);
            && l' == l.(tokens := l'.tokens)
            && (t in l'.tokens <==> size > 0.0)
            && (size > 0.0 && t !in l.tokens ==> l'.tokens[t] == TokenPosition(size, 0.0, 0.0, false, 0.0))
            && (size > 0.0 && t in l.tokens ==>
                  var tp, tp' := l.tokens[t], l'.tokens[t];
                  && tp' == tp.(available := tp'.available)
                  && tp'.available == (if Near(tp.available + tp.reserved, size) then tp.available
                                       else if size > tp.reserved then size - tp.reserved else 0.0))
            && (t in UpdatedTokens(l.tokens, RemoteByToken(items)) <==>
                  size > 0.0 && t in l.tokens && !Near(l.tokens[t].available + l.tokens[t].reserved, size))
  {
    PassPositions(l, RemoteByToken(items), gone, seen);
    RemoteIsReported(items, t);
    RemoteSizesPositive(items);
    hide RemoteByToken, Reported, PositionPass, PositionVisits;
  }

  // ---------------------------------------------------------------- the on-chain balance

  /** Available cash becomes what the chain holds beyond the reserved part, and never less than nothing,
      exactly if it is off by more than epsilon; nothing else moves. */
  lemma OnchainSets(l: Ledger, total: real, epsilon: real)
    ensures var l' := SetOnchain(l, total, epsilon);
            var held := if total > 0.0 then total else 0.0;
            var free := if held > l.balance.reserved then held - l.balance.reserved else 0.0;
            var slack := if epsilon > 0.0 then epsilon else 0.0;
            && l' == l.(balance := l.balance.(available := l'.balance.available))
            && l'.balance.available == (if -slack <= free - l.balance.available <= slack
                                        then l.balance.available else free)
  {
  }
}
