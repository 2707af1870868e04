/**
 The mutable ledger. Every method is one critical section of the program's lock and is proved to
 compute the corresponding function of module Ledgers on the ledger's value; loops over maps visit
 the keys in an arbitrary order, which the method hands back as a ghost result.
 */
module States {
  import opened Core
  import opened Ledgers
  import opened Reconcile
  import opened Restores
  import opened Profits
  import opened Sums

  class State {
    var balance: Balance
    var tokens: map<string, TokenPosition>
    var orders: map<string, Order>
    var provisionals: map<string, Provisional>
    var dailyPnL: real
    var dailyDate: string

    function View(): Ledger
      reads this
    {
      Ledger(balance, tokens, orders, provisionals, dailyPnL, dailyDate)
    }

    constructor (minBalance: real)
      ensures View() == Ledger(Balance(0.0, 0.0, NonNeg(minBalance)), map[], map[], map[], 0.0, "")
    {
      balance := Balance(0.0, 0.0, if minBalance < 0.0 then 0.0 else minBalance);
      tokens, orders, provisionals := map[], map[], map[];
      dailyPnL, dailyDate := 0.0, "";
    }

    method TakeSnapshot() returns (s: Snapshot)
      ensures s == SnapshotOf(View())
    {
      s := Snapshot(balance, tokens, orders, dailyPnL, dailyDate, |orders|);
    }

    // -------------------------------------------------------------- provisional reservations

    method TryReserveProvisional(intentID: string, t: Terms, now: int, ttl: int) returns (out: Outcome)
      modifies this
      ensures Result(View(), out) == TryReserve(old(View()), intentID, t, now, ttl)
    {
      if intentID == "" { return Fail(EmptyID); }
      out := ValidateTerms(t);
      if out.Fail? { return; }
      var effectiveTTL := ttl;
      if ttl <= 0 { effectiveTTL := DEFAULT_TTL; }
      var amount := RequiredCollateral(t.side, t.price, t.size);
      if intentID in provisionals { return Fail(IntentAlreadyReserved); }
      out := Affordable(View(), t);
      if out.Fail? { return; }
      HoldCollateral(t, true);
      provisionals := provisionals[intentID := Provisional(intentID, t, amount, now, now + effectiveTTL)];
      out := Done;
    }

    /** Moves the collateral of `t` from available to reserved. */
    method HoldCollateral(t: Terms, floor: bool)
      requires Tradable(t.side)
      modifies this`balance, this`tokens
      ensures View() == Hold(old(View()), t, floor)
    {
      if t.side == BUY {
        var amount := t.size * t.price;
        balance := balance.(available := balance.available - amount, reserved := balance.reserved + amount);
      } else {
        var tp := TokenAt(tokens, t.tokenID);
        tp := tp.(available := tp.available - t.size, reserved := tp.reserved + t.size);
        if floor && tp.available < 0.0 { tp := tp.(available := 0.0); }
        tokens := tokens[t.tokenID := tp];
      }
    }

    method ReleaseReserved(side: Side, tokenID: string, amount: real)
      modifies this`balance, this`tokens
      ensures View() == Unhold(old(View()), side, tokenID, amount)
    {
      match side
      case BUY =>
        balance := balance.(reserved := balance.reserved - amount, available := balance.available + amount);
        if balance.reserved < 0.0 { balance := balance.(reserved := 0.0); }
      case SELL =>
        var tp := TokenAt(tokens, tokenID);
        tp := tp.(reserved := tp.reserved - amount, available := tp.available + amount);
        if tp.reserved < 0.0 { tp := tp.(reserved := 0.0); }
        tokens := tokens[tokenID := tp];
      case OtherSide(_) =>
    }

    method ConfirmProvisional(intentID: string, orderID: string) returns (out: Outcome)
      modifies this
      ensures Result(View(), out) == Confirm(old(View()), intentID, orderID)
    {
      if intentID == "" || orderID == "" { return Fail(EmptyID); }
      if intentID !in provisionals {
        if orderID in orders { return Done; }
        return Fail(ReservationNotFound);
      }
      var p := provisionals[intentID];
      provisionals := provisionals - {intentID};
      if orderID in orders {
        ReleaseReserved(p.terms.side, p.terms.tokenID, p.reserved);
        return Done;
      }
      orders := orders[orderID := Order(orderID, p.terms, p.reserved, false)];
      out := Done;
    }

    method ReleaseProvisional(intentID: string) returns (released: bool)
      modifies this
      ensures View() == DropProvisional(old(View()), intentID)
      ensures released <==> intentID != "" && intentID in old(provisionals)
    {
      if intentID == "" || intentID !in provisionals { return false; }
      var p := provisionals[intentID];
      provisionals := provisionals - {intentID};
      ReleaseReserved(p.terms.side, p.terms.tokenID, p.reserved);
      released := true;
    }

    /** Takes the provisional reservations whose time is up out of the map. */
    method TakeExpired(now: int) returns (ids: seq<string>, expired: seq<Provisional>)
      modifies this`provisionals
      ensures Lists(ids, ExpiredAt(old(View()), now)) && |expired| == |ids|
      ensures forall i :: 0 <= i < |ids| ==> ids[i] in old(provisionals) && expired[i] == old(provisionals)[ids[i]]
      ensures provisionals == old(provisionals) - ExpiredAt(old(View()), now)
    {
      ghost var start, due := provisionals, ExpiredAt(View(), now);
      var todo := provisionals.Keys;
      ids, expired := [], [];
      while todo != {}
        invariant todo <= start.Keys && Lists(ids, due - todo) && |expired| == |ids|
        invariant forall i :: 0 <= i < |ids| ==> ids[i] in start && expired[i] == start[ids[i]]
        invariant provisionals == start - (due - todo)
        decreases |todo|
      {
        var k :| k in todo;
        PeelMap(start, due, todo, k);
        var p := provisionals[k];
        if now >= p.expiresAt {
          ListsNext(ids, due, todo, k);
          provisionals := provisionals - {k};
          ids, expired := ids + [k], expired + [p];
        }
        todo := todo - {k};
      }
    }

    /** Drops every provisional reservation whose time is up, in the order `ids`. */
    method CleanupExpiredProvisional(now: int) returns (ids: seq<string>)
      modifies this
      ensures Lists(ids, ExpiredAt(old(View()), now))
      ensures View() == Run(old(View()), Drops(ids))
    {
      ghost var start := View();
      var expired;
      ids, expired := TakeExpired(now);
      ghost var rest := provisionals;
      assert forall i :: 0 <= i < |ids| ==> ids[i] in ids;
      var i := 0;
      while i < |expired|
        invariant i <= |expired| == |ids|
        invariant View() == Run(start, Drops(ids[..i])).(provisionals := rest)
      {
        ReleaseReserved(expired[i].terms.side, expired[i].terms.tokenID, expired[i].reserved);
        UnprovisionNext(start, ids, i);
        i := i + 1;
      }
      assert ids[..i] == ids;
      DropsEffect(start, ids);
      assert rest == start.provisionals - (set k | k in ids);
    }

    // -------------------------------------------------------------- order reservations

    method AttachOrder(intentID: string, orderID: string, t: Terms) returns (out: Outcome)
      modifies this
      ensures Result(View(), out) == Attach(old(View()), intentID, orderID, t)
    {
      out := ValidateOrder(orderID, t);
      if out.Fail? { return; }
      var amount := RequiredCollateral(t.side, t.price, t.size);
      if orderID in orders {
        if intentID != "" && intentID in provisionals {
          var p := provisionals[intentID];
          provisionals := provisionals - {intentID};
          ReleaseReserved(p.terms.side, p.terms.tokenID, p.reserved);
        }
        return Fail(OrderAlreadyReserved);
      }
      if intentID != "" && intentID in provisionals {
        var p := provisionals[intentID];
        provisionals := provisionals - {intentID};
        orders := orders[orderID := Order(orderID, p.terms, p.reserved, false)];
        return Done;
      }
      out := Affordable(View(), t);
      if out.Fail? { return; }
      HoldCollateral(t, true);
      orders := orders[orderID := Order(orderID, t, amount, false)];
      out := Done;
    }

    method AttachExternalOrder(orderID: string, t: Terms) returns (out: Outcome)
      modifies this
      ensures Result(View(), out) == AttachExternal(old(View()), orderID, t)
    {
      out := ValidateOrder(orderID, t);
      if out.Fail? { return; }
      var amount := RequiredCollateral(t.side, t.price, t.size);
      if orderID in orders { return Done; }
      out := Affordable(View(), t);
      if out.Fail? { return; }
      HoldCollateral(t, false);
      orders := orders[orderID := Order(orderID, t, amount, true)];
      out := Done;
    }

    method ReleaseOrder(orderID: string)
      modifies this
      ensures View() == if orderID == "" then old(View()) else Evict(old(View()), orderID)
    {
      if orderID == "" || orderID !in orders { return; }
      var o := orders[orderID];
      ReleaseReserved(o.terms.side, o.terms.tokenID, o.reserved);
      orders := orders - {orderID};
    }

    // -------------------------------------------------------------- fills

    method AddDaily(delta: real, today: string)
      modifies this`dailyPnL, this`dailyDate
      ensures View() == AddDailyPnL(old(View()), delta, today)
    {
      if dailyDate != today { dailyPnL, dailyDate := 0.0, today; }
      dailyPnL := dailyPnL + delta;
    }

    method BookBuy(tokenID: string, price: real, size: real, consumed: real)
      modifies this`balance, this`tokens
      ensures View() == old(View()).(
                balance := old(balance).(reserved := NonNeg(old(balance.reserved) - consumed)),
                tokens := old(tokens)[tokenID := AverageIn(TokenAt(old(tokens), tokenID), price, size)])
    {
      balance := balance.(reserved := balance.reserved - consumed);
      if balance.reserved < 0.0 { balance := balance.(reserved := 0.0); }
      var tp := TokenAt(tokens, tokenID);
      var total := tp.totalBought + size;
      if tp.totalBought <= 0.0 {
        tp := tp.(avgCost := price);
      } else if total > 0.0 {
        tp := tp.(avgCost := WeightedCost(tp.avgCost, tp.totalBought, price, size));
      }
      tokens := tokens[tokenID := tp.(totalBought := total, avgCostKnown := true, available := tp.available + size)];
    }

    method BookSell(tokenID: string, price: real, size: real, consumed: real, today: string)
      modifies this`balance, this`tokens, this`dailyPnL, this`dailyDate
      ensures var tp := TokenAt(old(tokens), tokenID);
              var l := if tp.avgCostKnown then AddDailyPnL(old(View()), (price - tp.avgCost) * size, today)
                       else old(View());
              View() == l.(
                balance := old(balance).(available := old(balance.available) + price * size),
                tokens := old(tokens)[tokenID := tp.(reserved := NonNeg(tp.reserved - consumed))])
    {
      var tp := TokenAt(tokens, tokenID);
      tp := tp.(reserved := tp.reserved - consumed);
      if tp.reserved < 0.0 { tp := tp.(reserved := 0.0); }
      if tp.avgCostKnown { AddDaily((price - tp.avgCost) * size, today); }
      balance := balance.(available := balance.available + price * size);
      tokens := tokens[tokenID := tp];
    }

    method ApplyFill(f: Fill, today: string) returns (out: Outcome)
      modifies this
      ensures Result(View(), out) == Ledgers.ApplyFill(old(View()), f, today)
    {
      out := FillOutcome(View(), f);
      if out.Fail? { return; }
      var o := orders[f.orderID];
      var price := f.price;
      if price <= 0.0 { price := o.terms.price; }
      var consumed := RequiredCollateral(f.side, price, f.size);
      if consumed > o.reserved { consumed := o.reserved; }
      var left := o.terms.size - f.size;
      if left < 0.0 { left := 0.0; }
      var held := o.reserved - consumed;
      if held < 0.0 { held := 0.0; }
      var o' := o.(terms := o.terms.(size := left), reserved := held);
      assert price == FillPrice(o, f) && consumed == Consumed(o, f) && o' == AfterFill(o, f);
      hide AverageIn, AddDailyPnL, AfterFill, TokenAt, FillPrice, Consumed;
      if f.side == BUY {
        BookBuy(o.terms.tokenID, price, f.size, consumed);
      } else {
        BookSell(o.terms.tokenID, price, f.size, consumed, today);
      }
      assert View() == BookFill(old(View()), o, f, today);
      hide BookFill;
      if left <= EPS {
        orders := orders - {f.orderID};
      } else {
        orders := orders[f.orderID := o'];
      }
    }

    // -------------------------------------------------------------- the exchange's view

    method ReconcileOnchainBalance(total: real, epsilon: real) returns (changed: bool, drift: real)
      modifies this`balance
      ensures View() == SetOnchain(old(View()), total, epsilon)
      ensures drift == Abs(OnchainAvailable(old(View()), total) - old(balance.available))
      ensures changed <==> drift > NonNeg(epsilon)
    {
      var newAvailable := NonNeg(total) - balance.reserved;
      if newAvailable < 0.0 { newAvailable := 0.0; }
      drift := newAvailable - balance.available;
      if drift < 0.0 { drift := -drift; }
      if drift <= NonNeg(epsilon) { return false, drift; }
      balance := balance.(available := newAvailable);
      changed := true;
    }

    method ClearRedeemedPositions(ids: seq<string>)
      modifies this`tokens
      ensures View() == Run(old(View()), TokenDrops(NonEmpty(ids)))
      ensures tokens == old(tokens) - (set t | t in ids && t != "")
    {
      ghost var start := View();
      var i := 0;
      while i < |ids|
        invariant i <= |ids|
        invariant View() == Run(start, TokenDrops(NonEmpty(ids[..i])))
      {
        assert ids[..i + 1][..i] == ids[..i];
        if ids[i] == "" {
          assert NonEmpty(ids[..i + 1]) == NonEmpty(ids[..i]);
        } else {
          TokenDropsSnoc(start, NonEmpty(ids[..i]), ids[i]);
          tokens := tokens - {ids[i]};
        }
        i := i + 1;
      }
      assert ids[..i] == ids;
      TokenDropsEffect(start, NonEmpty(ids));
      NonEmptyIs(ids);
      assert (set t | t in NonEmpty(ids)) == (set t | t in ids && t != "");
    }

    method AttachExternalLocked(orderID: string, t: Terms) returns (out: Outcome)
      modifies this
      ensures Result(View(), out) == AttachRemote(old(View()), orderID, t)
    {
      if orderID == "" || t.marketID == "" || t.tokenID == "" || t.size <= 0.0 || t.price <= 0.0 || t.price >= 1.0 {
        return Fail(ReconcileFailed);
      }
      if orderID in orders { return Done; }
      if !Tradable(t.side) { return Fail(ReconcileFailed); }
      HoldCollateral(t, false);
      orders := orders[orderID := Order(orderID, t, RequiredCollateral(t.side, t.price, t.size), true)];
      out := Done;
    }

    method ReleaseOrderLocked(orderID: string)
      modifies this
      ensures View() == Evict(old(View()), orderID)
    {
      if orderID in orders {
        var o := orders[orderID];
        ReleaseReserved(o.terms.side, o.terms.tokenID, o.reserved);
        orders := orders - {orderID};
      }
    }

    /** First half of an order pass: whatever the exchange does not know is released. */
    method EvictUnknown(remote: map<string, RemoteOrder>) returns (removed: nat, ghost gone: seq<string>)
      modifies this
      ensures Lists(gone, RemovedIDs(old(orders), remote))
      ensures removed == |RemovedIDs(old(orders), remote)|
      ensures View() == Run(old(View()), Evictions(gone))
    {
      ghost var start := View();
      ghost var all := RemovedIDs(orders, remote);
      var todo := orders.Keys - remote.Keys;
      removed, gone := 0, [];
      while todo != {}
        invariant todo <= all && Lists(gone, all - todo) && removed == |all - todo|
        invariant View() == Run(start, Evictions(gone))
        decreases |todo|
      {
        var id :| id in todo;
        ReleaseOrderLocked(id);
        EvictionsSnoc(start, gone, id);
        ListsNext(gone, all, todo, id);
        CountNext(all, todo, id, removed, 1);
        gone := gone + [id];
        removed := removed + 1;
        todo := todo - {id};
      }
    }

    /** One remote order: adopted if unknown, aligned if it has drifted. */
    method MergeOne(id: string, ro: RemoteOrder) returns (added: nat, updated: nat)
      modifies this
      ensures View() == MergeOrder(old(View()), id, ro)
      ensures added == if id !in old(orders) && Adoptable(id, ro) then 1 else 0
      ensures updated == if id in old(orders) && ro.Remaining() > 0.0 && Drifted(old(orders)[id], ro) then 1 else 0
    {
      added, updated := 0, 0;
      var remaining := ro.originalSize - ro.sizeMatched;
      if remaining < 0.0 { remaining := 0.0; }
      if remaining <= 0.0 { return; }
      if id !in orders {
        var out := AttachExternalLocked(id, Terms(ro.marketID, ro.assetID, ro.side, ro.price, remaining));
        if out.Done? { added := 1; }
        return;
      }
      var local := orders[id];
      assert orders[id := local] == orders;
      if Abs(local.terms.size - remaining) > EPS || Abs(local.terms.price - ro.price) > EPS {
        orders := orders[id := local.(terms := local.terms.(size := remaining, price := ro.price))];
        updated := 1;
      }
    }

    /** The orders in `seen` have been merged, those in `todo` have not; what counts as added or updated
        was decided at the start of the pass. */
    ghost predicate Merged(start: Ledger, remote: map<string, RemoteOrder>, seen: seq<string>, todo: set<string>,
                           added: nat, updated: nat)
      reads this
    {
      && Lists(seen, remote.Keys - todo) && Within(seen, remote)
      && View() == Run(start, Merges(remote, seen))
      && Counted(added, AddedIDs(start.orders, remote), todo)
      && Counted(updated, UpdatedIDs(start.orders, remote), todo)
    }

    lemma MergedStart(remote: map<string, RemoteOrder>)
      ensures Merged(View(), remote, [], remote.Keys, 0, 0)
    {
      NoMerges(View(), remote);
      ListsStart(remote.Keys);
      CountedStart(AddedIDs(orders, remote), remote.Keys);
      CountedStart(UpdatedIDs(orders, remote), remote.Keys);
      hide Lists, Counted, Run, Merges, AddedIDs, UpdatedIDs;
    }

    lemma MergedEnd(start: Ledger, remote: map<string, RemoteOrder>, seen: seq<string>, added: nat, updated: nat)
      requires Merged(start, remote, seen, {}, added, updated)
      ensures Lists(seen, remote.Keys) && Within(seen, remote) && View() == Run(start, Merges(remote, seen))
      ensures added == |AddedIDs(start.orders, remote)| && updated == |UpdatedIDs(start.orders, remote)|
    {
      CountedEnd(added, AddedIDs(start.orders, remote), {});
      CountedEnd(updated, UpdatedIDs(start.orders, remote), {});
      assert remote.Keys - {} == remote.Keys;
      hide Lists, Counted, Run, Merges, AddedIDs, UpdatedIDs;
    }

    /** The next remote order of a pass. */
    method MergeNext(remote: map<string, RemoteOrder>, id: string, ghost start: Ledger, ghost seen: seq<string>,
                     ghost todo: set<string>, added: nat, updated: nat)
      returns (added': nat, updated': nat)
      requires id in todo && id in remote && Merged(start, remote, seen, todo, added, updated)
      modifies this
      ensures Merged(start, remote, seen + [id], todo - {id}, added', updated')
    {
      UnvisitedUnchanged(start, remote, seen, id);
      MergesSnoc(start, remote, seen, id);
      ListsNext(seen, remote.Keys, todo, id);
      hide Run, Merges, MergeOrder, Lists, Counted;
      var a, u := MergeOne(id, remote[id]);
      CountedNext(added, AddedIDs(start.orders, remote), todo, id, a);
      CountedNext(updated, UpdatedIDs(start.orders, remote), todo, id, u);
      added', updated' := added + a, updated + u;
    }

    /** Second half of an order pass: the exchange's orders are adopted or aligned. */
    method MergeRemote(remote: map<string, RemoteOrder>) returns (added: nat, updated: nat, ghost seen: seq<string>)
      modifies this
      ensures Lists(seen, remote.Keys)
      ensures added == |AddedIDs(old(orders), remote)| && updated == |UpdatedIDs(old(orders), remote)|
      ensures View() == Run(old(View()), Merges(remote, seen))
    {
      hide Merged, Lists, Run, Merges, AddedIDs, UpdatedIDs;
      ghost var start := View();
      var todo := remote.Keys;
      added, updated, seen := 0, 0, [];
      MergedStart(remote);
      while todo != {}
        invariant todo <= remote.Keys && Merged(start, remote, seen, todo, added, updated)
        decreases |todo|
      {
        var id :| id in todo;
        added, updated := MergeNext(remote, id, start, seen, todo, added, updated);
        seen, todo := seen + [id], todo - {id};
      }
      MergedEnd(start, remote, seen, added, updated);
    }

    static method IndexOrders(remote: seq<RemoteOrder>) returns (byID: map<string, RemoteOrder>)
      ensures byID == RemoteByID(remote)
    {
      byID := map[];
      var i := 0;
      while i < |remote|
        invariant i <= |remote|
        invariant byID == RemoteByID(remote[..i])
      {
        assert remote[..i + 1][..i] == remote[..i];
        if remote[i].id != "" { byID := byID[remote[i].id := remote[i]]; }
        i := i + 1;
      }
      assert remote[..i] == remote;
    }

    method ReconcileOrders(remote: seq<RemoteOrder>)
      returns (added: nat, removed: nat, updated: nat, ghost gone: seq<string>, ghost seen: seq<string>)
      modifies this
      ensures Visits(old(View()), RemoteByID(remote), gone, seen)
      ensures View() == OrderPass(old(View()), RemoteByID(remote), gone, seen)
      ensures removed == |RemovedIDs(old(orders), RemoteByID(remote))|
      ensures added == |AddedIDs(old(orders), RemoteByID(remote))|
      ensures updated == |UpdatedIDs(old(orders), RemoteByID(remote))|
    {
      ghost var start := View();
      var byID := IndexOrders(remote);
      removed, gone := EvictUnknown(byID);
      EvictionKeepsReport(start, byID, gone);
      added, updated, seen := MergeRemote(byID);
      RunConcat(start, Evictions(gone), Merges(byID, seen));
    }

    static method IndexPositions(items: seq<(string, real)>) returns (byToken: map<string, real>)
      ensures byToken == RemoteByToken(items)
    {
      byToken := map[];
      var i := 0;
      while i < |items|
        invariant i <= |items|
        invariant byToken == RemoteByToken(items[..i])
      {
        assert items[..i + 1][..i] == items[..i];
        var (id, size) := items[i];
        if id != "" && size > 0.0 {
          byToken := byToken[id := (if id in byToken then byToken[id] else 0.0) + size];
        }
        i := i + 1;
      }
      assert items[..i] == items;
    }

    /** The tokens in `gone` have been dropped, those in `todo` have not. */
    ghost predicate Dropped(start: Ledger, all: set<string>, gone: seq<string>, todo: set<string>, removed: nat)
      reads this
    {
      Lists(gone, all - todo) && Counted(removed, all, todo) && View() == Run(start, TokenDrops(gone))
    }

    lemma DroppedStart(all: set<string>)
      ensures Dropped(View(), all, [], all, 0)
    {
      NoTokenDrops(View());
      CountedStart(all, all);
      ListsStart(all);
    }

    lemma DroppedEnd(start: Ledger, all: set<string>, gone: seq<string>, removed: nat)
      requires Dropped(start, all, gone, {}, removed)
      ensures Lists(gone, all) && removed == |all| && View() == Run(start, TokenDrops(gone))
    {
      CountedEnd(removed, all, {});
      assert all - {} == all;
      hide Lists, Counted, Run, TokenDrops;
    }

    method DropNext(t: string, ghost start: Ledger, ghost all: set<string>, ghost gone: seq<string>,
                    ghost todo: set<string>, ghost removed: nat)
      requires t in todo && todo <= all && Dropped(start, all, gone, todo, removed)
      modifies this`tokens
      ensures Dropped(start, all, gone + [t], todo - {t}, removed + 1)
    {
      TokenDropsSnoc(start, gone, t);
      ListsNext(gone, all, todo, t);
      CountedNext(removed, all, todo, t, 1);
      hide Lists, Counted, Run, TokenDrops;
      tokens := tokens - {t};
    }

    method DropUnknownTokens(remote: map<string, real>) returns (removed: nat, ghost gone: seq<string>)
      modifies this`tokens
      ensures Lists(gone, old(tokens).Keys - remote.Keys) && removed == |old(tokens).Keys - remote.Keys|
      ensures View() == Run(old(View()), TokenDrops(gone))
    {
      hide Dropped, Lists, Run, TokenDrops;
      ghost var start, all := View(), tokens.Keys - remote.Keys;
      var todo := tokens.Keys - remote.Keys;
      removed, gone := 0, [];
      DroppedStart(all);
      while todo != {}
        invariant todo <= all && Dropped(start, all, gone, todo, removed)
        decreases |todo|
      {
        var t :| t in todo;
        DropNext(t, start, all, gone, todo, removed);
        removed, gone, todo := removed + 1, gone + [t], todo - {t};
      }
      DroppedEnd(start, all, gone, removed);
    }

    method MatchOne(t: string, size: real) returns (added: nat, updated: nat)
      modifies this`tokens
      ensures View() == MatchToken(old(View()), t, size)
      ensures added == if t in old(tokens) then 0 else 1
      ensures updated == if t in old(tokens) && OffSize(old(tokens)[t], size) then 1 else 0
    {
      added, updated := 0, 0;
      if t !in tokens {
        tokens := tokens[t := TokenPosition(size, 0.0, 0.0, false, 0.0)];
        return 1, 0;
      }
      var tp := tokens[t];
      assert tokens[t := tp] == tokens;
      if Abs(tp.available + tp.reserved - size) > EPS {
        var diff := size - (tp.available + tp.reserved);
        tp := tp.(available := tp.available + diff);
        if tp.available < 0.0 { tp := tp.(available := 0.0); }
        tokens := tokens[t := tp];
        updated := 1;
      }
    }

    /** The tokens in `seen` have been matched, those in `todo` have not. */
    ghost predicate Matched(start: Ledger, remote: map<string, real>, seen: seq<string>, todo: set<string>,
                            added: nat, updated: nat)
      reads this
    {
      && Lists(seen, remote.Keys - todo) && (forall t :: t in seen ==> t in remote)
      && View() == Run(start, TokenMatches(remote, seen))
      && Counted(added, remote.Keys - start.tokens.Keys, todo)
      && Counted(updated, UpdatedTokens(start.tokens, remote), todo)
    }

    lemma MatchedStart(remote: map<string, real>)
      ensures Matched(View(), remote, [], remote.Keys, 0, 0)
    {
      NoTokenMatches(View(), remote);
      ListsStart(remote.Keys);
      CountedStart(remote.Keys - tokens.Keys, remote.Keys);
      CountedStart(UpdatedTokens(tokens, remote), remote.Keys);
    }

    lemma MatchedEnd(start: Ledger, remote: map<string, real>, seen: seq<string>, added: nat, updated: nat)
      requires Matched(start, remote, seen, {}, added, updated)
      ensures Lists(seen, remote.Keys) && (forall t :: t in seen ==> t in remote)
      ensures View() == Run(start, TokenMatches(remote, seen))
      ensures added == |remote.Keys - start.tokens.Keys| && updated == |UpdatedTokens(start.tokens, remote)|
    {
      hide Lists, Counted, Run, TokenMatches, UpdatedTokens;
      assert remote.Keys - {} == remote.Keys;
      CountedEnd(added, remote.Keys - start.tokens.Keys, {});
      CountedEnd(updated, UpdatedTokens(start.tokens, remote), {});
    }

    method MatchNext(remote: map<string, real>, t: string, ghost start: Ledger, ghost seen: seq<string>,
                     ghost todo: set<string>, added: nat, updated: nat)
      returns (added': nat, updated': nat)
      requires t in todo && t in remote && Matched(start, remote, seen, todo, added, updated)
      modifies this`tokens
      ensures Matched(start, remote, seen + [t], todo - {t}, added', updated')
    {
      UnvisitedTokenUnchanged(start, remote, seen, t);
      TokenMatchesSnoc(start, remote, seen, t);
      ListsNext(seen, remote.Keys, todo, t);
      hide Run, TokenMatches, MatchToken, Lists, Counted;
      var a, u := MatchOne(t, remote[t]);
      CountedNext(added, remote.Keys - start.tokens.Keys, todo, t, a);
      CountedNext(updated, UpdatedTokens(start.tokens, remote), todo, t, u);
      added', updated' := added + a, updated + u;
    }

    method MatchTokens(remote: map<string, real>) returns (added: nat, updated: nat, ghost seen: seq<string>)
      modifies this`tokens
      ensures Lists(seen, remote.Keys)
      ensures added == |remote.Keys - old(tokens).Keys| && updated == |UpdatedTokens(old(tokens), remote)|
      ensures View() == Run(old(View()), TokenMatches(remote, seen))
    {
      hide Matched, Lists, Run, TokenMatches, UpdatedTokens;
      ghost var start := View();
      var todo := remote.Keys;
      added, updated, seen := 0, 0, [];
      MatchedStart(remote);
      while todo != {}
        invariant todo <= remote.Keys && Matched(start, remote, seen, todo, added, updated)
        decreases |todo|
      {
        var t :| t in todo;
        added, updated := MatchNext(remote, t, start, seen, todo, added, updated);
        seen, todo := seen + [t], todo - {t};
      }
      MatchedEnd(start, remote, seen, added, updated);
    }

    method ReconcilePositions(items: seq<(string, real)>)
      returns (added: nat, removed: nat, updated: nat, ghost gone: seq<string>, ghost seen: seq<string>)
      modifies this`tokens
      ensures PositionVisits(old(View()), RemoteByToken(items), gone, seen)
      ensures View() == PositionPass(old(View()), RemoteByToken(items), gone, seen)
      ensures removed == |old(tokens).Keys - RemoteByToken(items).Keys|
      ensures added == |RemoteByToken(items).Keys - old(tokens).Keys|
      ensures updated == |UpdatedTokens(old(tokens), RemoteByToken(items))|
    {
      ghost var start := View();
      var byToken := IndexPositions(items);
      removed, gone := DropUnknownTokens(byToken);
      TokenDropsKeepReport(start, byToken, gone);
      added, updated, seen := MatchTokens(byToken);
      RunConcat(start, TokenDrops(gone), TokenMatches(byToken, seen));
    }

    // -------------------------------------------------------------- restore

    method RestoreOne(r: Order)
      modifies this
      ensures View() == LoadOrder(old(View()), r)
    {
      if r.orderID == "" || r.terms.size <= 0.0 { return; }
      var o := r;
      if o.reserved < 0.0 { o := o.(reserved := 0.0); }
      orders := orders[o.orderID := o];
      match o.terms.side
      case BUY =>
        balance := balance.(reserved := balance.reserved + o.reserved, available := balance.available - o.reserved);
      case SELL =>
        var tp := TokenAt(tokens, o.terms.tokenID);
        tokens := tokens[o.terms.tokenID := tp.(reserved := tp.reserved + o.reserved,
                                                available := tp.available - o.reserved)];
      case OtherSide(_) =>
    }

    method RestoreSnapshot(s: Snapshot) returns (ghost visit: seq<string>)
      modifies this
      ensures Lists(visit, s.orders.Keys)
      ensures View() == Restore(old(View()), s, visit)
    {
      balance, tokens, orders, provisionals := s.balance, s.tokens, map[], map[];
      ghost var start := View();
      var todo := s.orders.Keys;
      visit := [];
      while todo != {}
        invariant todo <= s.orders.Keys && Lists(visit, s.orders.Keys - todo)
        invariant View() == Run(start, Loads(s.orders, visit))
        decreases |todo|
      {
        var k :| k in todo;
        RestoreOne(s.orders[k]);
        LoadsSnoc(start, s.orders, visit, k);
        ListsNext(visit, s.orders.Keys, todo, k);
        visit, todo := visit + [k], todo - {k};
      }
    }

    static method IndexReservations(remote: seq<RemoteOrder>)
      returns (ids: seq<string>, reservations: map<string, Order>)
      ensures reservations == RestoredOrders(remote) && Lists(ids, reservations.Keys)
    {
      reservations, ids := map[], [];
      var i := 0;
      while i < |remote|
        invariant i <= |remote|
        invariant reservations == RestoredOrders(remote[..i]) && Lists(ids, reservations.Keys)
      {
        assert remote[..i + 1][..i] == remote[..i];
        var ro := remote[i];
        var amount := RequiredCollateral(ro.side, ro.price, ro.Remaining());
        if ro.Remaining() > 0.0 && amount > 0.0 && ro.id != "" && ro.id !in reservations {
          ListsSnoc(ids, reservations.Keys, ro.id);
          ids := ids + [ro.id];
          reservations := reservations[ro.id := Order(ro.id, ro.AsTerms(), amount, false)];
          assert reservations.Keys == RestoredOrders(remote[..i]).Keys + {ro.id};
        }
        i := i + 1;
      }
      assert remote[..i] == remote;
    }

    /** Start-up restore; `ids` are the restored orders, in reporting order, for order tracking. */
    method RestoreFromExchange(remote: seq<RemoteOrder>, items: seq<(string, real)>)
      returns (ids: seq<string>, ghost visit: seq<string>)
      modifies this
      ensures Lists(ids, RestoredOrders(remote).Keys) && Lists(visit, RestoredOrders(remote).Keys)
      ensures View() == Restore(old(View()), ExchangeSnapshot(old(View()), remote, items), visit)
    {
      hide Run;
      var byToken := IndexPositions(items);
      var held := map t | t in byToken :: NO_POSITION.(available := byToken[t]);
      var reservations;
      ids, reservations := IndexReservations(remote);
      visit := RestoreSnapshot(Snapshot(balance, held, reservations, 0.0, "", 0));
    }

    // -------------------------------------------------------------- profit

    method UnrealizedProfit(mids: map<string, real>) returns (pnl: real)
      ensures pnl == UnrealizedPnL(View(), mids)
    {
      hide Sum;
      pnl := 0.0;
      var todo := tokens;
      while todo != map[]
        invariant pnl + Sum(todo, Gain(mids)) == UnrealizedPnL(View(), mids)
        decreases |todo|
      {
        var t :| t in todo;
        var tp := todo[t];
        SumRemove(todo, Gain(mids), t);
        todo := todo - {t};
        if tp.avgCostKnown && t in mids && tp.available > 0.0 {
          pnl := pnl + (mids[t] - tp.avgCost) * tp.available;
        }
      }
      SumEmpty(Gain(mids));
    }
  }
}
