/**
 Reconciliation with the exchange. A pass visits local and remote entries in an arbitrary order;
 the order of the visits is a parameter here. The results say what a pass produces, that it leaves
 the cash and token totals alone, and that a second pass finds nothing to do.
 */
module Reconcile {
  import opened Core
  import opened Ledgers
  import opened Books

  /** `s` enumerates `keys`, each once. */
  ghost predicate Lists(s: seq<string>, keys: set<string>) {
    && (forall i, j :: 0 <= i < j < |s| ==> s[i] != s[j])
    && (forall k :: k in s <==> k in keys)
  }

  lemma ListsNothing(s: seq<string>)
    ensures Lists(s, {}) ==> s == []
  {
    if s != [] { assert s[0] in s; }
  }

  lemma ListsStart(keys: set<string>)
    ensures Lists([], keys - keys)
  {
  }

  lemma ListsSnoc(s: seq<string>, keys: set<string>, k: string)
    requires Lists(s, keys) && k !in keys
    ensures Lists(s + [k], keys + {k})
  {
    assert forall i :: 0 <= i < |s| ==> s[i] in s;
  }

  /** Moving one key out of the set of keys still to be visited. */
  lemma Peel(keys: set<string>, todo: set<string>, k: string)
    requires k in todo
    ensures keys - (todo - {k}) == if k in keys then keys - todo + {k} else keys - todo
    ensures |keys - (todo - {k})| == |keys - todo| + if k in keys then 1 else 0
  {
    assert keys - (todo - {k}) == if k in keys then keys - todo + {k} else keys - todo;
  }

  lemma CountNext(keys: set<string>, todo: set<string>, k: string, n: nat, d: nat)
    requires k in todo && n == |keys - todo| && d == if k in keys then 1 else 0
    ensures n + d == |keys - (todo - {k})|
  {
    Peel(keys, todo, k);
  }

  /** `n` of the keys have been visited. */
  ghost predicate Counted(n: nat, keys: set<string>, todo: set<string>) {
    n == |keys - todo|
  }

  lemma CountedStart(keys: set<string>, todo: set<string>)
    requires keys <= todo
    ensures Counted(0, keys, todo)
  {
    assert keys - todo == {};
  }

  lemma CountedNext(n: nat, keys: set<string>, todo: set<string>, k: string, d: nat)
    requires k in todo && Counted(n, keys, todo) && d == if k in keys then 1 else 0
    ensures Counted(n + d, keys, todo - {k})
  {
    CountNext(keys, todo, k, n, d);
  }

  lemma CountedEnd(n: nat, keys: set<string>, todo: set<string>)
    requires Counted(n, keys, todo) && todo == {}
    ensures n == |keys|
  {
    assert keys - todo == keys;
  }

  lemma ListsNext(s: seq<string>, keys: set<string>, todo: set<string>, k: string)
    requires Lists(s, keys - todo) && k in todo && k in keys
    ensures Lists(s + [k], keys - (todo - {k}))
  {
    ListsSnoc(s, keys - todo, k);
    Peel(keys, todo, k);
  }

  lemma PeelMap<V>(m: map<string, V>, keys: set<string>, todo: set<string>, k: string)
    requires k in todo
    ensures m - (keys - (todo - {k})) == if k in keys then m - (keys - todo) - {k} else m - (keys - todo)
  {
    Peel(keys, todo, k);
  }

  // ---------------------------------------------------------------- orders

  /** Open orders by id: a later report of the same id replaces an earlier one. */
  function RemoteByID(remote: seq<RemoteOrder>): map<string, RemoteOrder> {
    if remote == [] then map[]
    else
      var m := RemoteByID(remote[..|remote| - 1]);
      var o := remote[|remote| - 1];
      if o.id == "" then m else m[o.id := o]
  }

  function Evictions(ids: seq<string>): seq<Op> {
    seq(|ids|, i requires 0 <= i < |ids| => OpEvict(ids[i]))
  }

  function Merges(remote: map<string, RemoteOrder>, ids: seq<string>): seq<Op>
    requires forall id :: id in ids ==> id in remote
  {
    seq(|ids|, i requires 0 <= i < |ids| => OpMergeOrder(ids[i], remote[ids[i]]))
  }

  /** One pass: orders unknown to the exchange go, then the exchange's orders are merged in. */
  function OrderPass(l: Ledger, remote: map<string, RemoteOrder>, gone: seq<string>, seen: seq<string>): Ledger
    requires forall id :: id in seen ==> id in remote
  {
    Run(l, Evictions(gone) + Merges(remote, seen))
  }

  /** The visits of a pass: every local-only order, then every remote order. */
  ghost predicate Visits(l: Ledger, remote: map<string, RemoteOrder>, gone: seq<string>, seen: seq<string>) {
    Lists(gone, l.orders.Keys - remote.Keys) && Lists(seen, remote.Keys)
  }

  /** A remote order that is unknown locally is adopted when its terms are valid and still open. */
  predicate Adoptable(id: string, ro: RemoteOrder) {
    id != "" && ValidateTerms(ro.AsTerms()).Done?
  }

  function Adopted(id: string, ro: RemoteOrder): Order {
    Order(id, ro.AsTerms(), Collateral(ro.AsTerms()), true)
  }

  /** What the merged order `id` looks like. */
  function MergedEntry(orders: map<string, Order>, id: string, ro: RemoteOrder): Order {
    if id !in orders then Adopted(id, ro)
    else if ro.Remaining() <= 0.0 then orders[id]
    else Aligned(orders[id], ro)
  }

  /** The orders after the remote orders in `done` have been merged. */
  function MergedOrders(orders: map<string, Order>, remote: map<string, RemoteOrder>,
                        done: set<string>): map<string, Order>
    requires done <= remote.Keys
  {
    map id | id in orders.Keys + done && (id in orders || Adoptable(id, remote[id])) ::
      if id in done then MergedEntry(orders, id, remote[id]) else orders[id]
  }

  /** The orders after a whole pass, written without any iteration. */
  function Reconciled(orders: map<string, Order>, remote: map<string, RemoteOrder>): map<string, Order> {
    MergedOrders(orders - (orders.Keys - remote.Keys), remote, remote.Keys)
  }

  lemma EvictionsSnoc(l: Ledger, gone: seq<string>, id: string)
    ensures Run(l, Evictions(gone + [id])) == Evict(Run(l, Evictions(gone)), id)
  {
    assert Evictions(gone + [id]) == Evictions(gone) + [OpEvict(id)];
    RunSnoc(l, Evictions(gone), OpEvict(id));
  }

  /** Only remote ids are listed. */
  ghost predicate Within(ids: seq<string>, remote: map<string, RemoteOrder>) {
    forall id :: id in ids ==> id in remote
  }

  lemma NoMerges(l: Ledger, remote: map<string, RemoteOrder>)
    ensures Run(l, Merges(remote, [])) == l
  {
  }

  lemma MergesSnoc(l: Ledger, remote: map<string, RemoteOrder>, seen: seq<string>, id: string)
    requires id in remote && forall k :: k in seen ==> k in remote
    ensures Run(l, Merges(remote, seen + [id])) == MergeOrder(Run(l, Merges(remote, seen)), id, remote[id])
  {
    assert Merges(remote, seen + [id]) == Merges(remote, seen) + [OpMergeOrder(id, remote[id])];
    RunSnoc(l, Merges(remote, seen), OpMergeOrder(id, remote[id]));
  }

  lemma DropsSnoc(l: Ledger, ids: seq<string>, id: string)
    ensures Run(l, Drops(ids + [id])) == Unprovision(Run(l, Drops(ids)), id)
  {
    assert Drops(ids + [id]) == Drops(ids) + [OpUnprovision(id)];
    RunSnoc(l, Drops(ids), OpUnprovision(id));
  }

  lemma {:induction false} EvictionsEffect(l: Ledger, gone: seq<string>)
    requires forall id :: id in gone ==> id in l.orders
    requires forall i, j :: 0 <= i < j < |gone| ==> gone[i] != gone[j]
    ensures Run(l, Evictions(gone)).orders == l.orders - (set id | id in gone)
    ensures Run(l, Evictions(gone)).provisionals == l.provisionals
  {
    if gone != [] {
      var n := |gone| - 1;
      var front := gone[..n];
      assert gone == front + [gone[n]];
      EvictionsSnoc(l, front, gone[n]);
      EvictionsEffect(l, front);
      assert (set id | id in gone) == (set id | id in front) + {gone[n]};
      assert Run(l, Evictions(gone)).orders == l.orders - (set id | id in front) - {gone[n]};
    } else {
      assert l.orders - (set id | id in gone) == l.orders;
    }
  }

  lemma {:induction false} DropsEffect(l: Ledger, ids: seq<string>)
    ensures Run(l, Drops(ids)).provisionals == l.provisionals - (set k | k in ids)
    ensures Run(l, Drops(ids)).orders == l.orders
  {
    if ids == [] {
      assert l.provisionals - (set k | k in ids) == l.provisionals;
    } else {
      var n := |ids| - 1;
      var front := ids[..n];
      assert ids == front + [ids[n]];
      DropsSnoc(l, front, ids[n]);
      DropsEffect(l, front);
      assert (set k | k in ids) == (set k | k in front) + {ids[n]};
      assert l.provisionals - (set k | k in front) - {ids[n]} == l.provisionals - (set k | k in ids);
      var mid := Run(l, Drops(front));
      assert ids[n] !in mid.provisionals ==> mid.provisionals - {ids[n]} == mid.provisionals;
    }
  }

  /** Dropping the next of several distinct ids releases that reservation's own amount. */
  lemma UnprovisionNext(l: Ledger, ids: seq<string>, i: nat)
    requires i < |ids| && ids[i] in l.provisionals
    requires forall j, k :: 0 <= j < k < |ids| ==> ids[j] != ids[k]
    ensures var p := l.provisionals[ids[i]];
            var before := Run(l, Drops(ids[..i]));
            var after := Run(l, Drops(ids[..i + 1]));
            forall rest :: Unhold(before.(provisionals := rest), p.terms.side, p.terms.tokenID, p.reserved)
                        == after.(provisionals := rest)
  {
    hide Run, Drops;
    assert ids[..i + 1] == ids[..i] + [ids[i]];
    DropsSnoc(l, ids[..i], ids[i]);
    DropsEffect(l, ids[..i]);
  }

  lemma MergeEffect(l: Ledger, id: string, ro: RemoteOrder)
    ensures MergeOrder(l, id, ro).provisionals == l.provisionals
    ensures id in l.orders ==> MergeOrder(l, id, ro).orders == l.orders[id := MergedEntry(l.orders, id, ro)]
    ensures id !in l.orders && Adoptable(id, ro) ==> MergeOrder(l, id, ro).orders == l.orders[id := Adopted(id, ro)]
    ensures id !in l.orders && !Adoptable(id, ro) ==> MergeOrder(l, id, ro).orders == l.orders
  {
    if id in l.orders {
      assert l.orders[id := l.orders[id]] == l.orders;
    }
  }

  lemma MergedOrdersStep(orders: map<string, Order>, remote: map<string, RemoteOrder>, done: set<string>, id: string)
    requires done <= remote.Keys && id in remote && id !in done
    ensures var before := MergedOrders(orders, remote, done);
            && (id in before <==> id in orders) && (id in orders ==> before[id] == orders[id])
            && MergedOrders(orders, remote, done + {id}) ==
                 if id in orders || Adoptable(id, remote[id])
                 then before[id := MergedEntry(orders, id, remote[id])] else before
  {
  }

  lemma MergeIntoMerged(l: Ledger, orders: map<string, Order>, remote: map<string, RemoteOrder>, done: set<string>,
                        id: string)
    requires done <= remote.Keys && id in remote && id !in done
    requires l.orders == MergedOrders(orders, remote, done)
    ensures MergeOrder(l, id, remote[id]).orders == MergedOrders(orders, remote, done + {id})
  {
    MergeEffect(l, id, remote[id]);
    MergedOrdersStep(orders, remote, done, id);
  }

  lemma {:induction false} MergesEffect(l: Ledger, remote: map<string, RemoteOrder>, seen: seq<string>)
    requires forall id :: id in seen ==> id in remote
    requires forall i, j :: 0 <= i < j < |seen| ==> seen[i] != seen[j]
    ensures Run(l, Merges(remote, seen)).orders == MergedOrders(l.orders, remote, set id | id in seen)
    ensures Run(l, Merges(remote, seen)).provisionals == l.provisionals
  {
    if seen == [] {
      assert MergedOrders(l.orders, remote, set id | id in seen) == l.orders;
    } else {
      var n := |seen| - 1;
      var front := seen[..n];
      var id := seen[n];
      var done := set k | k in front;
      assert seen == front + [id];
      MergesSnoc(l, remote, front, id);
      MergesEffect(l, remote, front);
      var mid := Run(l, Merges(remote, front));
      MergeEffect(mid, id, remote[id]);
      MergeIntoMerged(mid, l.orders, remote, done, id);
      assert (set k | k in seen) == done + {id};
    }
  }

  /** An order not yet visited is still as it was. */
  lemma UnvisitedUnchanged(l: Ledger, remote: map<string, RemoteOrder>, seen: seq<string>, id: string)
    requires forall k :: k in seen ==> k in remote
    requires forall i, j :: 0 <= i < j < |seen| ==> seen[i] != seen[j]
    requires id in remote && id !in seen
    ensures var l' := Run(l, Merges(remote, seen));
            (id in l'.orders <==> id in l.orders) && (id in l.orders ==> l'.orders[id] == l.orders[id])
  {
    MergesEffect(l, remote, seen);
  }

  /** A pass produces exactly the reconciled orders, whatever the visiting order. */
  lemma PassOrders(l: Ledger, remote: map<string, RemoteOrder>, gone: seq<string>, seen: seq<string>)
    requires Visits(l, remote, gone, seen)
    ensures OrderPass(l, remote, gone, seen).orders == Reconciled(l.orders, remote)
    ensures OrderPass(l, remote, gone, seen).provisionals == l.provisionals
  {
    RunConcat(l, Evictions(gone), Merges(remote, seen));
    EvictionsEffect(l, gone);
    assert (set id | id in gone) == l.orders.Keys - remote.Keys;
    MergesEffect(Run(l, Evictions(gone)), remote, seen);
    assert (set id | id in seen) == remote.Keys;
  }

  /** Afterwards every local order is a remote one, and every open, valid remote order is present
      with size and price within EPS. */
  lemma ReconciledMatchesExchange(orders: map<string, Order>, remote: map<string, RemoteOrder>)
    ensures Reconciled(orders, remote).Keys <= remote.Keys
    ensures forall id :: id in remote && Adoptable(id, remote[id]) ==> id in Reconciled(orders, remote)
    ensures forall id :: id in Reconciled(orders, remote) && remote[id].Remaining() > 0.0 ==>
              !Drifted(Reconciled(orders, remote)[id], remote[id])
    ensures forall id :: id in orders && id in remote ==>
              id in Reconciled(orders, remote) && Reconciled(orders, remote)[id].reserved == orders[id].reserved
  {
  }

  /** Releasing and merging move amounts between available and reserved and nothing else. */
  lemma {:induction false} MovesOnly(l: Ledger, ops: seq<Op>, p: Pool)
    requires Balanced(l, p)
    requires forall i :: 0 <= i < |ops| ==> ops[i].OpEvict? || ops[i].OpMergeOrder?
    ensures Balanced(Run(l, ops), p)
    ensures Residue(Run(l, ops), p) == Residue(l, p)
    ensures Total(Run(l, ops), p) == Total(l, p)
    decreases |ops|
  {
    if ops == [] {
    } else {
      StepAccounted(l, ops[0], p);
      MovesOnly(Step(l, ops[0]), ops[1..], p);
    }
  }

  /** Everything a pass must not touch. */
  ghost predicate SameElsewhere(a: Ledger, b: Ledger) {
    && a.balance.minBalance == b.balance.minBalance
    && a.dailyPnL == b.dailyPnL && a.dailyDate == b.dailyDate
    && a.provisionals == b.provisionals
    && (forall t :: SameCost(TokenAt(a.tokens, t), TokenAt(b.tokens, t)))
  }

  predicate SameCost(a: TokenPosition, b: TokenPosition) {
    a.avgCost == b.avgCost && a.avgCostKnown == b.avgCostKnown && a.totalBought == b.totalBought
  }

  lemma {:induction false} PassTouchesOnlyAmounts(l: Ledger, ops: seq<Op>)
    requires forall i :: 0 <= i < |ops| ==> ops[i].OpEvict? || ops[i].OpMergeOrder?
    ensures SameElsewhere(Run(l, ops), l)
    decreases |ops|
  {
    if ops == [] {
    } else {
      assert SameElsewhere(Step(l, ops[0]), l);
      PassTouchesOnlyAmounts(Step(l, ops[0]), ops[1..]);
    }
  }

  /** One pass leaves provisional reservations, daily profit, minimum balance and cost bases alone. */
  lemma PassLeavesTheRest(l: Ledger, remote: map<string, RemoteOrder>, gone: seq<string>, seen: seq<string>)
    requires Visits(l, remote, gone, seen)
    ensures SameElsewhere(OrderPass(l, remote, gone, seen), l)
  {
    PassTouchesOnlyAmounts(l, Evictions(gone) + Merges(remote, seen));
  }

  /** One pass leaves available + reserved of every balanced pool unchanged. */
  lemma PassConserves(l: Ledger, remote: map<string, RemoteOrder>, gone: seq<string>, seen: seq<string>, p: Pool)
    requires Balanced(l, p) && Visits(l, remote, gone, seen)
    ensures var l' := OrderPass(l, remote, gone, seen);
            Balanced(l', p) && Residue(l', p) == Residue(l, p) && Total(l', p) == Total(l, p)
  {
    MovesOnly(l, Evictions(gone) + Merges(remote, seen), p);
  }

  /** The three counters a pass reports, as sets of order ids. */
  function RemovedIDs(orders: map<string, Order>, remote: map<string, RemoteOrder>): set<string> {
    orders.Keys - remote.Keys
  }

  function AddedIDs(orders: map<string, Order>, remote: map<string, RemoteOrder>): set<string> {
    set id | id in remote && id !in orders && Adoptable(id, remote[id])
  }

  function UpdatedIDs(orders: map<string, Order>, remote: map<string, RemoteOrder>): set<string> {
    set id | id in remote && id in orders && remote[id].Remaining() > 0.0 && Drifted(orders[id], remote[id])
  }

  /** Releasing the local-only orders changes neither what is added nor what is updated. */
  lemma EvictionKeepsReport(l: Ledger, remote: map<string, RemoteOrder>, gone: seq<string>)
    requires Lists(gone, RemovedIDs(l.orders, remote))
    ensures var kept := Run(l, Evictions(gone)).orders;
            && AddedIDs(kept, remote) == AddedIDs(l.orders, remote)
            && UpdatedIDs(kept, remote) == UpdatedIDs(l.orders, remote)
  {
    EvictionsEffect(l, gone);
    assert (set id | id in gone) == RemovedIDs(l.orders, remote);
  }

  lemma {:induction false} MergesIdle(l: Ledger, remote: map<string, RemoteOrder>, seen: seq<string>)
    requires forall id :: id in seen ==> id in remote && MergeOrder(l, id, remote[id]) == l
    ensures Run(l, Merges(remote, seen)) == l
  {
    if seen == [] {
    } else {
      assert Merges(remote, seen)[1..] == Merges(remote, seen[1..]);
      assert Step(l, Merges(remote, seen)[0]) == l by {
        assert seen[0] in seen;
      }
      MergesIdle(l, remote, seen[1..]);
    }
  }

  /** A second pass against the same remote orders changes nothing and reports nothing. */
  lemma SecondPassIdle(l: Ledger, remote: map<string, RemoteOrder>, gone: seq<string>, seen: seq<string>,
                       gone2: seq<string>, seen2: seq<string>)
    requires Visits(l, remote, gone, seen)
    requires Visits(OrderPass(l, remote, gone, seen), remote, gone2, seen2)
    ensures var l' := OrderPass(l, remote, gone, seen);
            && OrderPass(l', remote, gone2, seen2) == l'
            && RemovedIDs(l'.orders, remote) == {} && AddedIDs(l'.orders, remote) == {}
            && UpdatedIDs(l'.orders, remote) == {}
  {
    var l' := OrderPass(l, remote, gone, seen);
    PassOrders(l, remote, gone, seen);
    ReconciledMatchesExchange(l.orders, remote);
    ListsNothing(gone2);
    assert Evictions(gone2) + Merges(remote, seen2) == Merges(remote, seen2);
    forall id | id in remote ensures MergeOrder(l', id, remote[id]) == l' {
      if id in l'.orders {
        assert l'.orders[id := l'.orders[id]] == l'.orders;
      }
    }
    MergesIdle(l', remote, seen2);
  }

  // ---------------------------------------------------------------- positions

  /** Positive sizes per token, summed over the reported items; ids have been trimmed. */
  function RemoteByToken(items: seq<(string, real)>): map<string, real> {
    if items == [] then map[]
    else
      var m := RemoteByToken(items[..|items| - 1]);
      var (id, size) := items[|items| - 1];
      if id == "" || size <= 0.0 then m
      else m[id := (if id in m then m[id] else 0.0) + size]
  }

  /** Only tokens with a positive total are listed. */
  lemma {:induction false} RemoteSizesPositive(items: seq<(string, real)>)
    ensures forall t :: t in RemoteByToken(items) ==> RemoteByToken(items)[t] > 0.0
    ensures forall t :: t in RemoteByToken(items) <==>
              exists i :: 0 <= i < |items| && items[i].0 == t && t != "" && items[i].1 > 0.0
  {
    if items == [] {
    } else {
      var n := |items| - 1;
      var front := items[..n];
      RemoteSizesPositive(front);
      forall i | 0 <= i < |items| && items[i].0 != "" && items[i].1 > 0.0 ensures items[i].0 in RemoteByToken(items) {
        assert i < n ==> front[i] == items[i];
      }
      forall t | t in RemoteByToken(items)
        ensures exists i :: 0 <= i < |items| && items[i].0 == t && t != "" && items[i].1 > 0.0
      {
        if t in RemoteByToken(front) {
          var i :| 0 <= i < |front| && front[i].0 == t && t != "" && front[i].1 > 0.0;
          assert items[i] == front[i];
        } else {
          assert items[n].0 == t;
        }
      }
    }
  }

  function NonEmpty(ids: seq<string>): seq<string> {
    if ids == [] then []
    else
      var id := ids[|ids| - 1];
      NonEmpty(ids[..|ids| - 1]) + if id == "" then [] else [id]
  }

  lemma {:induction false} NonEmptyIs(ids: seq<string>)
    ensures forall id :: id in NonEmpty(ids) <==> id in ids && id != ""
  {
    if ids == [] {
    } else {
      var n := |ids| - 1;
      NonEmptyIs(ids[..n]);
      assert ids == ids[..n] + [ids[n]];
    }
  }

  function TokenDrops(ids: seq<string>): seq<Op> {
    seq(|ids|, i requires 0 <= i < |ids| => OpDropToken(ids[i]))
  }

  function TokenMatches(remote: map<string, real>, ids: seq<string>): seq<Op>
    requires forall id :: id in ids ==> id in remote
  {
    seq(|ids|, i requires 0 <= i < |ids| => OpMatchToken(ids[i], remote[ids[i]]))
  }

  function PositionPass(l: Ledger, remote: map<string, real>, gone: seq<string>, seen: seq<string>): Ledger
    requires forall id :: id in seen ==> id in remote
  {
    Run(l, TokenDrops(gone) + TokenMatches(remote, seen))
  }

  ghost predicate PositionVisits(l: Ledger, remote: map<string, real>, gone: seq<string>, seen: seq<string>) {
    Lists(gone, l.tokens.Keys - remote.Keys) && Lists(seen, remote.Keys)
  }

  function MatchedPosition(tokens: map<string, TokenPosition>, id: string, size: real): TokenPosition {
    if id in tokens then MatchPosition(tokens[id], size) else NO_POSITION.(available := size)
  }

  function MatchedTokens(tokens: map<string, TokenPosition>, remote: map<string, real>,
                         done: set<string>): map<string, TokenPosition>
    requires done <= remote.Keys
  {
    map t | t in tokens.Keys + done :: if t in done then MatchedPosition(tokens, t, remote[t]) else tokens[t]
  }

  lemma NoTokenDrops(l: Ledger)
    ensures Run(l, TokenDrops([])) == l
  {
  }

  lemma NoTokenMatches(l: Ledger, remote: map<string, real>)
    ensures Run(l, TokenMatches(remote, [])) == l
  {
  }

  lemma TokenDropsSnoc(l: Ledger, gone: seq<string>, t: string)
    ensures Run(l, TokenDrops(gone + [t])) == DropToken(Run(l, TokenDrops(gone)), t)
  {
    assert TokenDrops(gone + [t]) == TokenDrops(gone) + [OpDropToken(t)];
    RunSnoc(l, TokenDrops(gone), OpDropToken(t));
  }

  lemma TokenMatchesSnoc(l: Ledger, remote: map<string, real>, seen: seq<string>, t: string)
    requires t in remote && forall k :: k in seen ==> k in remote
    ensures Run(l, TokenMatches(remote, seen + [t])) == MatchToken(Run(l, TokenMatches(remote, seen)), t, remote[t])
  {
    assert TokenMatches(remote, seen + [t]) == TokenMatches(remote, seen) + [OpMatchToken(t, remote[t])];
    RunSnoc(l, TokenMatches(remote, seen), OpMatchToken(t, remote[t]));
  }

  /** A token not yet visited is still as it was. */
  lemma UnvisitedTokenUnchanged(l: Ledger, remote: map<string, real>, seen: seq<string>, t: string)
    requires forall k :: k in seen ==> k in remote
    requires forall i, j :: 0 <= i < j < |seen| ==> seen[i] != seen[j]
    requires t !in seen
    ensures var l' := Run(l, TokenMatches(remote, seen));
            (t in l'.tokens <==> t in l.tokens) && (t in l.tokens ==> l'.tokens[t] == l.tokens[t])
  {
    TokenMatchesEffect(l, remote, seen);
  }

  /** Dropping the local-only tokens changes neither what is added nor what is updated. */
  lemma TokenDropsKeepReport(l: Ledger, remote: map<string, real>, gone: seq<string>)
    requires Lists(gone, l.tokens.Keys - remote.Keys)
    ensures var kept := Run(l, TokenDrops(gone)).tokens;
            && remote.Keys - kept.Keys == remote.Keys - l.tokens.Keys
            && UpdatedTokens(kept, remote) == UpdatedTokens(l.tokens, remote)
  {
    TokenDropsEffect(l, gone);
    assert (set t | t in gone) == l.tokens.Keys - remote.Keys;
  }

  lemma {:induction false} TokenDropsEffect(l: Ledger, gone: seq<string>)
    ensures Run(l, TokenDrops(gone)) == l.(tokens := l.tokens - (set t | t in gone))
    decreases |gone|
  {
    if gone != [] {
      assert TokenDrops(gone)[1..] == TokenDrops(gone[1..]);
      TokenDropsEffect(DropToken(l, gone[0]), gone[1..]);
      assert l.tokens - {gone[0]} - (set t | t in gone[1..]) == l.tokens - (set t | t in gone);
    } else {
      assert l.tokens - (set t | t in gone) == l.tokens;
    }
  }

  lemma MatchedTokensStep(tokens: map<string, TokenPosition>, remote: map<string, real>, done: set<string>, t: string)
    requires done <= remote.Keys && t in remote && t !in done
    ensures var before := MatchedTokens(tokens, remote, done);
            && (t in before <==> t in tokens) && (t in tokens ==> before[t] == tokens[t])
            && MatchedTokens(tokens, remote, done + {t}) == before[t := MatchedPosition(tokens, t, remote[t])]
  {
  }

  lemma {:induction false} TokenMatchesEffect(l: Ledger, remote: map<string, real>, seen: seq<string>)
    requires forall id :: id in seen ==> id in remote
    requires forall i, j :: 0 <= i < j < |seen| ==> seen[i] != seen[j]
    ensures Run(l, TokenMatches(remote, seen)) == l.(tokens := MatchedTokens(l.tokens, remote, set t | t in seen))
  {
    if seen != [] {
      var n := |seen| - 1;
      var front := seen[..n];
      var t := seen[n];
      assert seen == front + [t];
      TokenMatchesSnoc(l, remote, front, t);
      TokenMatchesEffect(l, remote, front);
      assert (set k | k in seen) == (set k | k in front) + {t};
      MatchedTokensStep(l.tokens, remote, (set k | k in front), t);
    } else {
      assert MatchedTokens(l.tokens, remote, set k | k in seen) == l.tokens;
    }
  }

  /** A position pass in closed form, independent of the visiting order. */
  lemma PassPositions(l: Ledger, remote: map<string, real>, gone: seq<string>, seen: seq<string>)
    requires PositionVisits(l, remote, gone, seen)
    ensures PositionPass(l, remote, gone, seen)
         == l.(tokens := map t | t in remote :: MatchedPosition(l.tokens, t, remote[t]))
  {
    hide Run, TokenDrops, TokenMatches, MatchPosition;
    RunConcat(l, TokenDrops(gone), TokenMatches(remote, seen));
    TokenDropsEffect(l, gone);
    assert (set t | t in gone) == l.tokens.Keys - remote.Keys;
    var kept := l.tokens - (l.tokens.Keys - remote.Keys);
    TokenMatchesEffect(l.(tokens := kept), remote, seen);
    assert (set t | t in seen) == remote.Keys;
    assert MatchedTokens(kept, remote, remote.Keys) == map t | t in remote :: MatchedPosition(l.tokens, t, remote[t]);
  }

  /** Afterwards exactly the remote tokens are held, each at the remote size within EPS or as close
      to it as its reservations allow, and reservations and cost basis are untouched. */
  lemma PositionsMatchExchange(l: Ledger, remote: map<string, real>, gone: seq<string>, seen: seq<string>, t: string)
    requires PositionVisits(l, remote, gone, seen) && t in remote
    ensures var l' := PositionPass(l, remote, gone, seen);
            && l'.tokens.Keys == remote.Keys
            && (|| Abs(Total(l', Token(t)) - remote[t]) <= EPS
                || Available(l', Token(t)) == NonNeg(remote[t] - Reserved(l', Token(t))))
            && Reserved(l', Token(t)) == Reserved(l, Token(t))
            && SameCost(TokenAt(l'.tokens, t), TokenAt(l.tokens, t))
  {
    PassPositions(l, remote, gone, seen);
  }

  /** Tokens a pass counts as updated. */
  function UpdatedTokens(tokens: map<string, TokenPosition>, remote: map<string, real>): set<string> {
    set t | t in remote && t in tokens && OffSize(tokens[t], remote[t])
  }

  lemma MatchPositionTwice(tp: TokenPosition, size: real)
    ensures var tp' := MatchPosition(tp, size);
            && MatchPosition(tp', size) == tp'
            && (OffSize(tp', size) <==> OffSize(tp, size) && tp.reserved > size + EPS)
  {
  }

  /** A second pass leaves the map as it is; it still reports those tokens of the first report
      whose reservations alone exceed the remote size, and no others. */
  lemma SecondPositionPassIdle(l: Ledger, remote: map<string, real>, gone: seq<string>, seen: seq<string>,
                               gone2: seq<string>, seen2: seq<string>)
    requires PositionVisits(l, remote, gone, seen)
    requires PositionVisits(PositionPass(l, remote, gone, seen), remote, gone2, seen2)
    ensures var l' := PositionPass(l, remote, gone, seen);
            && PositionPass(l', remote, gone2, seen2) == l'
            && l'.tokens.Keys == remote.Keys
            && UpdatedTokens(l'.tokens, remote)
                 == set t | t in UpdatedTokens(l.tokens, remote) && l.tokens[t].reserved > remote[t] + EPS
  {
    var l' := PositionPass(l, remote, gone, seen);
    PassPositions(l, remote, gone, seen);
    PassPositions(l', remote, gone2, seen2);
    forall t | t in remote
      ensures MatchedPosition(l'.tokens, t, remote[t]) == l'.tokens[t]
      ensures t in UpdatedTokens(l'.tokens, remote) <==>
                t in UpdatedTokens(l.tokens, remote) && l.tokens[t].reserved > remote[t] + EPS
    {
      if t in l.tokens { MatchPositionTwice(l.tokens[t], remote[t]); }
    }
  }

  /** An instance: five units are reserved, the exchange reports three, and the second pass over the
      unchanged position reports it again. */
  lemma SecondPositionPassReports()
    ensures var l := Ledger(Balance(0.0, 0.0, 0.0), map["t" := NO_POSITION.(reserved := 5.0)], map[], map[], 0.0, "");
            var remote: map<string, real> := map["t" := 3.0];
            && PositionPass(l, remote, [], ["t"]) == l
            && UpdatedTokens(l.tokens, remote) == {"t"}
            && UpdatedTokens(PositionPass(l, remote, [], ["t"]).tokens, remote) == {"t"}
  {
    var l := Ledger(Balance(0.0, 0.0, 0.0), map["t" := NO_POSITION.(reserved := 5.0)], map[], map[], 0.0, "");
    var remote: map<string, real> := map["t" := 3.0];
    assert PositionVisits(l, remote, [], ["t"]);
    PassPositions(l, remote, [], ["t"]);
    assert (map t | t in remote :: MatchedPosition(l.tokens, t, remote[t])) == l.tokens;
    assert UpdatedTokens(l.tokens, remote) == {"t"};
  }
}
