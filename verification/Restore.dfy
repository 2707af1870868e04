/**
 Snapshots and restores. A restore replaces balances and positions and then charges every
 restored order against its pool, in an arbitrary order of visits.
 */
module Restores {
  import opened Core
  import opened Ledgers
  import opened Books
  import opened Sums
  import opened Reconcile

  datatype Snapshot = Snapshot(
    balance: Balance, tokens: map<string, TokenPosition>, orders: map<string, Order>,
    dailyPnL: real, dailyDate: string, openOrderCount: int)

  function SnapshotOf(l: Ledger): Snapshot {
    Snapshot(l.balance, l.tokens, l.orders, l.dailyPnL, l.dailyDate, |l.orders|)
  }

  function Loads(orders: map<string, Order>, visit: seq<string>): seq<Op>
    requires forall k :: k in visit ==> k in orders
  {
    seq(|visit|, i requires 0 <= i < |visit| => OpLoadOrder(orders[visit[i]]))
  }

  function Restore(l: Ledger, s: Snapshot, visit: seq<string>): Ledger
    requires forall k :: k in visit ==> k in s.orders
  {
    Run(Reset(l, s.balance, s.tokens), Loads(s.orders, visit))
  }

  /** Orders filed under their own id. */
  ghost predicate Keyed(orders: map<string, Order>) {
    forall k :: k in orders ==> orders[k].orderID == k
  }

  /** The orders after the keys in `done` have been loaded. */
  function Loaded(orders: map<string, Order>, done: set<string>): map<string, Order>
    requires done <= orders.Keys
  {
    map k | k in done && Loadable(orders[k]) :: orders[k].(reserved := NonNeg(orders[k].reserved))
  }

  function BaseReserved(s: Snapshot, p: Pool): real {
    match p
    case Cash => s.balance.reserved
    case Token(t) => TokenAt(s.tokens, t).reserved
  }

  function BaseTotal(s: Snapshot, p: Pool): real {
    match p
    case Cash => s.balance.available + s.balance.reserved
    case Token(t) => TokenAt(s.tokens, t).available + TokenAt(s.tokens, t).reserved
  }

  lemma ResetBalanced(l: Ledger, s: Snapshot, p: Pool)
    requires BaseReserved(s, p) >= 0.0
    ensures var l0 := Reset(l, s.balance, s.tokens);
            Balanced(l0, p) && Residue(l0, p) == BaseReserved(s, p) && Total(l0, p) == BaseTotal(s, p)
  {
  }

  lemma LoadIntoLoaded(l: Ledger, orders: map<string, Order>, done: set<string>, k: string)
    requires Keyed(orders) && done <= orders.Keys && k in orders && k !in done
    requires l.orders == Loaded(orders, done)
    ensures LoadOrder(l, orders[k]).orders == Loaded(orders, done + {k})
    ensures LoadOrder(l, orders[k]).provisionals == l.provisionals
    ensures forall p :: Leftover(l, OpLoadOrder(orders[k]), p) == 0.0
  {
    var o := orders[k].(reserved := NonNeg(orders[k].reserved));
    if Loadable(orders[k]) {
      assert LoadOrder(l, orders[k]).orders == l.orders[k := o];
    } else {
      assert Loaded(orders, done + {k}) == Loaded(orders, done);
    }
  }

  lemma LoadNext(l: Ledger, orders: map<string, Order>, done: set<string>, k: string, p: Pool)
    requires Keyed(orders) && done <= orders.Keys && k in orders && k !in done
    requires l.orders == Loaded(orders, done) && l.provisionals == map[] && Balanced(l, p)
    ensures var l' := LoadOrder(l, orders[k]);
            && l'.orders == Loaded(orders, done + {k}) && l'.provisionals == map[]
            && Balanced(l', p) && Residue(l', p) == Residue(l, p) && Total(l', p) == Total(l, p)
  {
    hide Balanced, Residue, Total, LoadOrder, Loaded, Leftover;
    var op := OpLoadOrder(orders[k]);
    assert Step(l, op) == LoadOrder(l, orders[k]);
    StepAccounted(l, op, p);
    LoadIntoLoaded(l, orders, done, k);
  }

  lemma LoadsSnoc(l: Ledger, orders: map<string, Order>, visit: seq<string>, k: string)
    requires k in orders && forall j :: j in visit ==> j in orders
    ensures Run(l, Loads(orders, visit + [k])) == LoadOrder(Run(l, Loads(orders, visit)), orders[k])
  {
    assert Loads(orders, visit + [k]) == Loads(orders, visit) + [OpLoadOrder(orders[k])];
    RunSnoc(l, Loads(orders, visit), OpLoadOrder(orders[k]));
  }

  /** Loading orders filed under their own id: each is stored once, and pools are charged for it. */
  lemma {:induction false} LoadsEffect(l: Ledger, orders: map<string, Order>, visit: seq<string>, p: Pool)
    requires forall k :: k in visit ==> k in orders
    requires forall i, j :: 0 <= i < j < |visit| ==> visit[i] != visit[j]
    requires Keyed(orders) && l.orders == map[] && l.provisionals == map[] && Balanced(l, p)
    ensures var l' := Run(l, Loads(orders, visit));
            && l'.orders == Loaded(orders, set k | k in visit) && l'.provisionals == map[]
            && Balanced(l', p) && Residue(l', p) == Residue(l, p) && Total(l', p) == Total(l, p)
  {
    if visit == [] {
    } else {
      hide Balanced, Residue, Total, LoadOrder, Loads, Loaded, Run, Keyed;
      var n := |visit| - 1;
      var front, k := visit[..n], visit[n];
      assert visit == front + [k] && k !in front;
      assert (set j | j in visit) == (set j | j in front) + {k};
      LoadsSnoc(l, orders, front, k);
      LoadsEffect(l, orders, front, p);
      LoadNext(Run(l, Loads(orders, front)), orders, (set j | j in front), k, p);
    }
  }

  /** A restore from orders filed under their own id establishes the books: what the snapshot
      already had reserved is the whole residue, and totals are the snapshot's. */
  lemma RestoreEstablishesBooks(l: Ledger, s: Snapshot, visit: seq<string>, p: Pool)
    requires Keyed(s.orders) && Lists(visit, s.orders.Keys) && BaseReserved(s, p) >= 0.0
    ensures var l' := Restore(l, s, visit);
            && Balanced(l', p) && Residue(l', p) == BaseReserved(s, p) && Total(l', p) == BaseTotal(s, p)
            && l'.orders == Loaded(s.orders, s.orders.Keys) && l'.provisionals == map[]
  {
    ResetBalanced(l, s, p);
    LoadsEffect(Reset(l, s.balance, s.tokens), s.orders, visit, p);
    assert (set k | k in visit) == s.orders.Keys;
  }

  // ---------------------------------------------------------------- restoring one's own snapshot

  /** An order whose restore charges nothing. */
  predicate Weightless(l: Ledger, o: Order) {
    && Loadable(o) && (Tradable(o.terms.side) ==> o.reserved == 0.0)
    && (o.terms.side.SELL? ==> o.terms.tokenID in l.tokens)
  }

  lemma {:induction false} WeightlessLoads(l: Ledger, orders: map<string, Order>, visit: seq<string>)
    requires forall k :: k in visit ==> k in orders && Weightless(l, orders[k])
    requires Keyed(orders)
    ensures Run(l, Loads(orders, visit)).balance == l.balance
    ensures Run(l, Loads(orders, visit)).tokens == l.tokens
    ensures Run(l, Loads(orders, visit)).dailyPnL == l.dailyPnL
    ensures Run(l, Loads(orders, visit)).dailyDate == l.dailyDate
    decreases |visit|
  {
    if visit == [] {
    } else {
      var op := OpLoadOrder(orders[visit[0]]);
      assert visit[0] in visit;
      assert Loads(orders, visit)[1..] == Loads(orders, visit[1..]);
      var t := orders[visit[0]].terms;
      if t.side.SELL? {
        assert l.tokens[t.tokenID := l.tokens[t.tokenID]] == l.tokens;
      }
      assert Step(l, op).tokens == l.tokens && Step(l, op).balance == l.balance;
      WeightlessLoads(Step(l, op), orders, visit[1..]);
    }
  }

  /** Tokens only ever gain entries while loading, one for each SELL order loaded. */
  lemma {:induction false} LoadsCreateEntries(l: Ledger, orders: map<string, Order>, visit: seq<string>)
    requires forall k :: k in visit ==> k in orders
    ensures var l' := Run(l, Loads(orders, visit));
            && l.tokens.Keys <= l'.tokens.Keys
            && (forall k :: k in visit && Loadable(orders[k]) && orders[k].terms.side.SELL? ==>
                  orders[k].terms.tokenID in l'.tokens)
    decreases |visit|
  {
    if visit == [] {
    } else {
      assert visit[0] in visit;
      assert Loads(orders, visit)[1..] == Loads(orders, visit[1..]);
      LoadsCreateEntries(Step(l, OpLoadOrder(orders[visit[0]])), orders, visit[1..]);
      assert forall k :: k in visit ==> k == visit[0] || k in visit[1..];
    }
  }

  /** A ledger that its own snapshot restores had nothing set aside by its orders in any pool. */
  lemma RestoredUnchangedIsWeightless(l: Ledger, visit: seq<string>, k: string)
    requires Keyed(l.orders) && Lists(visit, l.orders.Keys) && ClaimsNonNegative(l)
    requires forall p :: Reserved(l, p) >= 0.0
    requires Restore(l, SnapshotOf(l), visit) == l && k in l.orders
    ensures l.provisionals == map[] && Weightless(l, l.orders[k])
  {
    hide Balanced, Total;
    var s := SnapshotOf(l);
    var t := l.orders[k].terms;
    var p := if t.side.BUY? then Cash else Token(t.tokenID);
    assert Reserved(l, p) >= 0.0;
    LoadsCreateEntries(Reset(l, s.balance, s.tokens), l.orders, visit);
    RestoreEstablishesBooks(l, s, visit, p);
    assert k in Loaded(l.orders, l.orders.Keys);
    SumNonNegative(l.orders, OrderClaim(p));
    SumNonNegative(l.provisionals, ProvisionalClaim(p));
    assert OrderClaim(p)(k, l.orders[k]) <= Sum(l.orders, OrderClaim(p));
  }

  /** Restoring one's own snapshot charges every live reservation a second time, so it gives the
      ledger back exactly when there is nothing to charge. */
  lemma RestoreOwnSnapshot(l: Ledger, visit: seq<string>)
    requires Keyed(l.orders) && Lists(visit, l.orders.Keys) && ClaimsNonNegative(l)
    requires forall p :: Reserved(l, p) >= 0.0
    ensures Restore(l, SnapshotOf(l), visit) == l <==>
              l.provisionals == map[] && forall k :: k in l.orders ==> Weightless(l, l.orders[k])
  {
    hide Balanced, Total, Residue;
    var s := SnapshotOf(l);
    assert Reserved(l, Cash) >= 0.0;
    RestoreEstablishesBooks(l, s, visit, Cash);
    if Restore(l, s, visit) == l {
      forall k | k in l.orders ensures Weightless(l, l.orders[k]) {
        RestoredUnchangedIsWeightless(l, visit, k);
      }
    }
    if l.provisionals == map[] && forall k :: k in l.orders ==> Weightless(l, l.orders[k]) {
      WeightlessLoads(Reset(l, s.balance, s.tokens), l.orders, visit);
      assert Loaded(l.orders, l.orders.Keys) == l.orders;
    }
  }

  /** The smallest failing case: one live BUY reservation. */
  lemma RestoreOwnSnapshotFails()
    ensures var o := Order("o", Terms("m", "t", BUY, 0.5, 2.0), 1.0, false);
            var l := Ledger(Balance(9.0, 1.0, 0.0), map[], map["o" := o], map[], 0.0, "");
            Restore(l, SnapshotOf(l), ["o"]) != l
  {
    var o := Order("o", Terms("m", "t", BUY, 0.5, 2.0), 1.0, false);
    var l := Ledger(Balance(9.0, 1.0, 0.0), map[], map["o" := o], map[], 0.0, "");
    assert l.orders["o"] == o && !Weightless(l, o);
    RestoreOwnSnapshot(l, ["o"]);
  }

  // ---------------------------------------------------------------- restoring from the exchange

  /** The reservations rebuilt from open orders: the first report of an id wins, and orders that
      would hold nothing are skipped. */
  function RestoredOrders(remote: seq<RemoteOrder>): (orders: map<string, Order>)
    ensures Keyed(orders)
    ensures forall k :: k in orders ==> Loadable(orders[k]) && orders[k].reserved > 0.0
  {
    if remote == [] then map[]
    else
      var m := RestoredOrders(remote[..|remote| - 1]);
      var ro := remote[|remote| - 1];
      if ro.Remaining() <= 0.0 || Collateral(ro.AsTerms()) <= 0.0 || ro.id == "" || ro.id in m then m
      else m[ro.id := Order(ro.id, ro.AsTerms(), Collateral(ro.AsTerms()), false)]
  }

  /** Held tokens as reported, nothing reserved and no cost basis. */
  function RestoredTokens(items: seq<(string, real)>): map<string, TokenPosition> {
    map t | t in RemoteByToken(items) :: NO_POSITION.(available := RemoteByToken(items)[t])
  }

  function ExchangeSnapshot(l: Ledger, remote: seq<RemoteOrder>, items: seq<(string, real)>): Snapshot {
    Snapshot(l.balance, RestoredTokens(items), RestoredOrders(remote), 0.0, "", 0)
  }

  /** Start-up: every token's reserved amount is exactly what the restored SELL orders hold, cash
      keeps as residue what was reserved before (nothing, in a new ledger), no total moves, and
      the restored orders are exactly the ones handed to order tracking. */
  lemma ExchangeRestoreEstablishesBooks(l: Ledger, remote: seq<RemoteOrder>, items: seq<(string, real)>,
                                        visit: seq<string>, p: Pool)
    requires Lists(visit, RestoredOrders(remote).Keys) && (p == Cash ==> l.balance.reserved >= 0.0)
    ensures var l' := Restore(l, ExchangeSnapshot(l, remote, items), visit);
            && Balanced(l', p)
            && Residue(l', p) == (if p == Cash then l.balance.reserved else 0.0)
            && (p == Cash ==> Total(l', p) == Total(l, p))
            && l'.orders == RestoredOrders(remote) && l'.provisionals == map[]
  {
    var s := ExchangeSnapshot(l, remote, items);
    RestoreEstablishesBooks(l, s, visit, p);
    assert Loaded(s.orders, s.orders.Keys) == s.orders;
  }
}
