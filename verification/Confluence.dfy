/**
 Loops over maps visit their entries in no particular order. Releases, adoptions and restored orders
 of different ids commute, so reconciliation, the expiry sweep and a restore give the same ledger
 for every visiting order, whatever state the books are in.
 */
module Confluence {
  import opened Core
  import opened Ledgers
  import opened Books
  import opened Reconcile
  import opened Restores

  /** Operations of one kind about different reservations. */
  predicate Swappable(a: Op, b: Op) {
    || (a.OpEvict? && b.OpEvict? && a.orderID != b.orderID)
    || (a.OpMergeOrder? && b.OpMergeOrder? && a.id != b.id)
    || (a.OpUnprovision? && b.OpUnprovision? && a.intentID != b.intentID)
    || (a.OpLoadOrder? && b.OpLoadOrder? && a.order.orderID != b.order.orderID)
  }

  lemma CutOffsCommute(r: real, x: real, y: real)
    requires x >= 0.0 && y >= 0.0
    ensures NonNeg(NonNeg(r - x) - y) == NonNeg(NonNeg(r - y) - x)
  {
  }

  /** A position after a release of `x`. */
  function Back(tp: TokenPosition, x: real): TokenPosition {
    tp.(available := tp.available + x, reserved := NonNeg(tp.reserved - x))
  }

  lemma SellReleasesCommute(tokens: map<string, TokenPosition>, t1: string, x: real, t2: string, y: real)
    requires x >= 0.0 && y >= 0.0
    ensures var a, b := tokens[t1 := Back(TokenAt(tokens, t1), x)], tokens[t2 := Back(TokenAt(tokens, t2), y)];
            a[t2 := Back(TokenAt(a, t2), y)] == b[t1 := Back(TokenAt(b, t1), x)]
  {
    var tp := TokenAt(tokens, t1);
    CutOffsCommute(tp.reserved, x, y);
    assert Back(Back(tp, x), y) == Back(Back(tp, y), x);
    hide Back;
  }

  /** Releases of non-negative amounts commute, in spite of the cut-off at zero. */
  lemma UnholdsCommute(l: Ledger, s1: Side, t1: string, x: real, s2: Side, t2: string, y: real)
    requires x >= 0.0 && y >= 0.0
    ensures Unhold(Unhold(l, s1, t1, x), s2, t2, y) == Unhold(Unhold(l, s2, t2, y), s1, t1, x)
  {
    if s1.SELL? && s2.SELL? {
      SellReleasesCommute(l.tokens, t1, x, t2, y);
      hide TokenAt, NonNeg;
    } else {
      CutOffsCommute(l.balance.reserved, x, y);
      hide TokenAt, NonNeg;
    }
  }

  /** Available to reserved, without any check or cut-off. */
  function Charge(l: Ledger, side: Side, tokenID: string, x: real): Ledger {
    match side
    case BUY =>
      l.(balance := l.balance.(available := l.balance.available - x, reserved := l.balance.reserved + x))
    case SELL =>
      var tp := TokenAt(l.tokens, tokenID);
      l.(tokens := l.tokens[tokenID := tp.(available := tp.available - x, reserved := tp.reserved + x)])
    case OtherSide(_) => l
  }

  lemma ChargesCommute(l: Ledger, s1: Side, t1: string, x: real, s2: Side, t2: string, y: real)
    ensures Charge(Charge(l, s1, t1, x), s2, t2, y) == Charge(Charge(l, s2, t2, y), s1, t1, x)
  {
    var a, b := Charge(Charge(l, s1, t1, x), s2, t2, y), Charge(Charge(l, s2, t2, y), s1, t1, x);
    assert a.balance == b.balance;
    assert a.tokens == b.tokens;
  }

  lemma HoldsCommute(l: Ledger, s: Terms, t: Terms)
    ensures Hold(Hold(l, s, false), t, false) == Hold(Hold(l, t, false), s, false)
  {
    HoldIsCharge(l, s);
    HoldIsCharge(l, t);
    HoldIsCharge(Hold(l, s, false), t);
    HoldIsCharge(Hold(l, t, false), s);
    hide Hold, Charge, Collateral;
    ChargesCommute(l, s.side, s.tokenID, Collateral(s), t.side, t.tokenID, Collateral(t));
  }

  lemma HoldIsCharge(l: Ledger, t: Terms)
    ensures Hold(l, t, false) == Charge(l, t.side, t.tokenID, Collateral(t))
  {
  }

  /** Moving amounts does not look at reservations. */
  lemma UnholdFrame(l: Ledger, orders: map<string, Order>, provisionals: map<string, Provisional>,
                    side: Side, tokenID: string, x: real)
    ensures Unhold(l.(orders := orders, provisionals := provisionals), side, tokenID, x)
         == Unhold(l, side, tokenID, x).(orders := orders, provisionals := provisionals)
  {
  }

  lemma HoldFrame(l: Ledger, orders: map<string, Order>, t: Terms)
    ensures Hold(l.(orders := orders), t, false) == Hold(l, t, false).(orders := orders)
  {
  }

  lemma EvictsCommute(l: Ledger, a: string, b: string)
    requires a != b && ClaimsNonNegative(l)
    ensures Evict(Evict(l, a), b) == Evict(Evict(l, b), a)
  {
    if a in l.orders && b in l.orders {
      var o, p := l.orders[a], l.orders[b];
      hide Unhold;
      UnholdsCommute(l, o.terms.side, o.terms.tokenID, o.reserved, p.terms.side, p.terms.tokenID, p.reserved);
      UnholdFrame(Unhold(l, o.terms.side, o.terms.tokenID, o.reserved), l.orders - {a}, l.provisionals,
                  p.terms.side, p.terms.tokenID, p.reserved);
      UnholdFrame(Unhold(l, p.terms.side, p.terms.tokenID, p.reserved), l.orders - {b}, l.provisionals,
                  o.terms.side, o.terms.tokenID, o.reserved);
      assert l.orders - {a} - {b} == l.orders - {b} - {a};
    }
  }

  lemma UnprovisionsCommute(l: Ledger, a: string, b: string)
    requires a != b && ClaimsNonNegative(l)
    ensures Unprovision(Unprovision(l, a), b) == Unprovision(Unprovision(l, b), a)
  {
    if a in l.provisionals && b in l.provisionals {
      var o, p := l.provisionals[a], l.provisionals[b];
      hide Unhold;
      var la, lb := l.provisionals - {a}, l.provisionals - {b};
      assert la - {b} == lb - {a};
      UnholdsCommute(l, o.terms.side, o.terms.tokenID, o.reserved, p.terms.side, p.terms.tokenID, p.reserved);
      UnholdFrame(l, l.orders, la, o.terms.side, o.terms.tokenID, o.reserved);
      UnholdFrame(l, l.orders, lb, p.terms.side, p.terms.tokenID, p.reserved);
      UnholdFrame(Unhold(l, o.terms.side, o.terms.tokenID, o.reserved), l.orders, la - {b},
                  p.terms.side, p.terms.tokenID, p.reserved);
      UnholdFrame(Unhold(l, p.terms.side, p.terms.tokenID, p.reserved), l.orders, lb - {a},
                  o.terms.side, o.terms.tokenID, o.reserved);
    }
  }

  /** A merge adopts, aligns or does nothing, depending on its own id only. */
  lemma MergeIs(l: Ledger, id: string, ro: RemoteOrder)
    ensures MergeOrder(l, id, ro)
         == if id in l.orders then l.(orders := l.orders[id := MergedEntry(l.orders, id, ro)])
            else if Adoptable(id, ro) then Hold(l, ro.AsTerms(), false).(orders := l.orders[id := Adopted(id, ro)])
            else l
  {
    if id in l.orders { assert l.orders[id := l.orders[id]] == l.orders; }
  }

  /** The two sides of a merge: amounts, if the order is adopted, and the entry. */
  function MaybeHold(l: Ledger, adopt: bool, t: Terms): Ledger {
    if adopt then Hold(l, t, false) else l
  }

  function WithEntry(orders: map<string, Order>, id: string, ro: RemoteOrder): map<string, Order> {
    if id in orders then orders[id := MergedEntry(orders, id, ro)]
    else if Adoptable(id, ro) then orders[id := Adopted(id, ro)]
    else orders
  }

  lemma MergeSplits(l: Ledger, id: string, ro: RemoteOrder)
    ensures MergeOrder(l, id, ro)
         == MaybeHold(l, id !in l.orders && Adoptable(id, ro), ro.AsTerms()).(orders := WithEntry(l.orders, id, ro))
  {
    MergeIs(l, id, ro);
    hide MergeOrder, MergedEntry, Adoptable, Adopted;
  }

  lemma EntriesCommute(orders: map<string, Order>, a: string, x: RemoteOrder, b: string, y: RemoteOrder)
    requires a != b
    ensures WithEntry(WithEntry(orders, a, x), b, y) == WithEntry(WithEntry(orders, b, y), a, x)
    ensures b in WithEntry(orders, a, x) <==> b in orders
  {
    MergedEntryLocal(orders, WithEntry(orders, a, x), b, y);
    MergedEntryLocal(orders, WithEntry(orders, b, y), a, x);
    hide MergedEntry, Adoptable, Adopted;
  }

  lemma MaybeHoldsCommute(l: Ledger, g: bool, s: Terms, h: bool, t: Terms)
    ensures MaybeHold(MaybeHold(l, g, s), h, t) == MaybeHold(MaybeHold(l, h, t), g, s)
  {
    HoldsCommute(l, s, t);
    hide Hold;
  }

  lemma MaybeHoldFrame(l: Ledger, orders: map<string, Order>, adopt: bool, t: Terms)
    ensures MaybeHold(l.(orders := orders), adopt, t) == MaybeHold(l, adopt, t).(orders := orders)
  {
    HoldFrame(l, orders, t);
    hide Hold;
  }

  lemma MergesCommute(l: Ledger, a: string, x: RemoteOrder, b: string, y: RemoteOrder)
    requires a != b
    ensures MergeOrder(MergeOrder(l, a, x), b, y) == MergeOrder(MergeOrder(l, b, y), a, x)
  {
    hide MergeOrder, MaybeHold, WithEntry, Adoptable;
    var la, lb := MergeOrder(l, a, x), MergeOrder(l, b, y);
    var g, h := a !in l.orders && Adoptable(a, x), b !in l.orders && Adoptable(b, y);
    MergeSplits(l, a, x);
    MergeSplits(l, b, y);
    MergeSplits(la, b, y);
    MergeSplits(lb, a, x);
    EntriesCommute(l.orders, a, x, b, y);
    EntriesCommute(l.orders, b, y, a, x);
    MaybeHoldFrame(MaybeHold(l, g, x.AsTerms()), la.orders, h, y.AsTerms());
    MaybeHoldFrame(MaybeHold(l, h, y.AsTerms()), lb.orders, g, x.AsTerms());
    MaybeHoldsCommute(l, g, x.AsTerms(), h, y.AsTerms());
  }

  lemma MergedEntryLocal(a: map<string, Order>, b: map<string, Order>, id: string, ro: RemoteOrder)
    requires (id in a <==> id in b) && (id in a ==> a[id] == b[id])
    ensures id in a ==> MergedEntry(a, id, ro) == MergedEntry(b, id, ro)
  {
  }

  lemma ChargeFrame(l: Ledger, orders: map<string, Order>, side: Side, tokenID: string, x: real)
    ensures Charge(l.(orders := orders), side, tokenID, x) == Charge(l, side, tokenID, x).(orders := orders)
    ensures Charge(l, side, tokenID, x).orders == l.orders
  {
  }

  lemma LoadIs(l: Ledger, o: Order)
    ensures LoadOrder(l, o)
         == if !Loadable(o) then l
            else Charge(l, o.terms.side, o.terms.tokenID, NonNeg(o.reserved)).(
                   orders := l.orders[o.orderID := o.(reserved := NonNeg(o.reserved))])
  {
  }

  lemma LoadsCommute(l: Ledger, a: Order, b: Order)
    requires a.orderID != b.orderID
    ensures LoadOrder(LoadOrder(l, a), b) == LoadOrder(LoadOrder(l, b), a)
  {
    hide LoadOrder, Loadable, Charge, NonNeg;
    var x, y := NonNeg(a.reserved), NonNeg(b.reserved);
    var la, lb := LoadOrder(l, a), LoadOrder(l, b);
    LoadIs(l, a);
    LoadIs(l, b);
    LoadIs(la, b);
    LoadIs(lb, a);
    if Loadable(a) && Loadable(b) {
      ChargesCommute(l, a.terms.side, a.terms.tokenID, x, b.terms.side, b.terms.tokenID, y);
      ChargeFrame(Charge(l, a.terms.side, a.terms.tokenID, x), la.orders, b.terms.side, b.terms.tokenID, y);
      ChargeFrame(Charge(l, b.terms.side, b.terms.tokenID, y), lb.orders, a.terms.side, a.terms.tokenID, x);
      assert LoadOrder(la, b).orders == LoadOrder(lb, a).orders;
    }
  }

  lemma StepsCommute(l: Ledger, a: Op, b: Op)
    requires Swappable(a, b) && ClaimsNonNegative(l)
    ensures Step(Step(l, a), b) == Step(Step(l, b), a)
  {
    hide Evict, Unprovision, MergeOrder, LoadOrder;
    if a.OpEvict? {
      EvictsCommute(l, a.orderID, b.orderID);
    } else if a.OpMergeOrder? {
      MergesCommute(l, a.id, a.remote, b.id, b.remote);
    } else if a.OpUnprovision? {
      UnprovisionsCommute(l, a.intentID, b.intentID);
    } else {
      LoadsCommute(l, a.order, b.order);
    }
  }

  predicate Moves(op: Op) {
    op.OpEvict? || op.OpMergeOrder? || op.OpUnprovision? || op.OpLoadOrder?
  }

  lemma StepKeepsNonNegative(l: Ledger, op: Op)
    requires ClaimsNonNegative(l) && Moves(op)
    ensures ClaimsNonNegative(Step(l, op))
  {
    hide Unhold, Hold;
    if op.OpMergeOrder? {
      MergeIs(l, op.id, op.remote);
      hide MergeOrder;
    }
  }

  // ---------------------------------------------------------------- permutations

  /** The operations of a loop over `ks`. */
  function OpsFor(f: string -> Op, ks: seq<string>): seq<Op> {
    seq(|ks|, i requires 0 <= i < |ks| => f(ks[i]))
  }

  /** The bodies of a loop for different keys commute. */
  ghost predicate Commuting(f: string -> Op, keys: set<string>) {
    && (forall k :: k in keys ==> Moves(f(k)))
    && (forall j, k :: j in keys && k in keys && j != k ==> Swappable(f(j), f(k)))
  }

  /** A key may as well be visited before those that come first. */
  lemma {:induction false} MoveToFront(l: Ledger, f: string -> Op, before: seq<string>, k: string, keys: set<string>)
    requires ClaimsNonNegative(l) && Commuting(f, keys) && k in keys
    requires forall i :: 0 <= i < |before| ==> before[i] in keys && before[i] != k
    ensures Run(l, OpsFor(f, before + [k])) == Run(Step(l, f(k)), OpsFor(f, before))
    decreases |before|
  {
    hide Step, ClaimsNonNegative, Swappable, Moves;
    if before == [] {
      assert OpsFor(f, before + [k]) == [f(k)] && [f(k)][1..] == OpsFor(f, before);
    } else {
      var x := before[0];
      StepKeepsNonNegative(l, f(x));
      StepKeepsNonNegative(l, f(k));
      StepsCommute(l, f(x), f(k));
      MoveToFront(Step(l, f(x)), f, before[1..], k, keys);
      assert OpsFor(f, before + [k])[1..] == OpsFor(f, before[1..] + [k]);
      assert OpsFor(f, before)[1..] == OpsFor(f, before[1..]);
    }
  }

  lemma ListsWithout(b: seq<string>, keys: set<string>, k: nat)
    requires Lists(b, keys) && k < |b|
    ensures Lists(b[..k] + b[k + 1..], keys - {b[k]})
    ensures forall i :: 0 <= i < k ==> b[i] in keys && b[i] != b[k]
  {
    var c := b[..k] + b[k + 1..];
    assert forall i :: 0 <= i < |c| ==> c[i] == if i < k then b[i] else b[i + 1];
    forall x ensures x in c <==> x in keys - {b[k]} {
      if x in keys - {b[k]} {
        var i :| 0 <= i < |b| && b[i] == x;
        assert c[if i < k then i else i - 1] == x;
      }
    }
    assert forall i :: 0 <= i < k ==> b[i] in b;
  }

  lemma PickFirst(l: Ledger, f: string -> Op, b: seq<string>, n: nat, keys: set<string>)
    requires ClaimsNonNegative(l) && Commuting(f, keys) && Lists(b, keys) && n < |b|
    ensures Run(l, OpsFor(f, b)) == Run(Step(l, f(b[n])), OpsFor(f, b[..n] + b[n + 1..]))
  {
    hide Run, Step, ClaimsNonNegative, Commuting;
    var before, k, rest := b[..n], b[n], b[n + 1..];
    assert k in b;
    ListsWithout(b, keys, n);
    hide Lists;
    MoveToFront(l, f, before, k, keys);
    assert OpsFor(f, before + rest) == OpsFor(f, before) + OpsFor(f, rest);
    assert OpsFor(f, b) == OpsFor(f, before + [k]) + OpsFor(f, rest);
    RunConcat(l, OpsFor(f, before + [k]), OpsFor(f, rest));
    RunConcat(Step(l, f(k)), OpsFor(f, before), OpsFor(f, rest));
  }

  lemma SmallerStillCommutes(f: string -> Op, keys: set<string>, k: string)
    requires Commuting(f, keys)
    ensures Commuting(f, keys - {k})
  {
    hide Swappable, Moves;
  }

  lemma IndexIn(b: seq<string>, keys: set<string>, k: string) returns (n: nat)
    requires Lists(b, keys) && k in keys
    ensures n < |b| && b[n] == k
  {
    n :| 0 <= n < |b| && b[n] == k;
  }

  /** A loop whose bodies commute gives the same ledger in every order. */
  lemma {:induction false} LoopInAnyOrder(l: Ledger, f: string -> Op, a: seq<string>, b: seq<string>,
                                          keys: set<string>)
    requires ClaimsNonNegative(l) && Commuting(f, keys) && Lists(a, keys) && Lists(b, keys)
    ensures Run(l, OpsFor(f, a)) == Run(l, OpsFor(f, b))
    decreases |a|
  {
    hide Run, Step, ClaimsNonNegative, Moves, OpsFor;
    if a == [] {
      assert forall k :: k in keys ==> k in a;
      assert keys == {};
      ListsNothing(b);
    } else {
      var k := a[0];
      assert k in a && Moves(f(k));
      var n := IndexIn(b, keys, k);
      ListsWithout(a, keys, 0);
      ListsWithout(b, keys, n);
      assert a[..0] + a[1..] == a[1..];
      PickFirst(l, f, a, 0, keys);
      PickFirst(l, f, b, n, keys);
      SmallerStillCommutes(f, keys, k);
      StepKeepsNonNegative(l, f(k));
      hide Lists, Commuting;
      LoopInAnyOrder(Step(l, f(k)), f, a[1..], b[..n] + b[n + 1..], keys - {k});
    }
  }

  // ---------------------------------------------------------------- the loops

  lemma {:induction false} EvictionsKeepNonNegative(l: Ledger, ids: seq<string>)
    requires ClaimsNonNegative(l)
    ensures ClaimsNonNegative(Run(l, Evictions(ids)))
    decreases |ids|
  {
    hide ClaimsNonNegative, Step;
    if ids == [] {
    } else {
      StepKeepsNonNegative(l, OpEvict(ids[0]));
      assert Evictions(ids)[1..] == Evictions(ids[1..]);
      EvictionsKeepNonNegative(Step(l, OpEvict(ids[0])), ids[1..]);
    }
  }

  function MergeFor(remote: map<string, RemoteOrder>, id: string): Op {
    if id in remote then OpMergeOrder(id, remote[id]) else OpEvict(id)
  }

  /** Two order passes give the same ledger, whatever the visiting orders and the state of the books. */
  lemma PassOrderIndependent(l: Ledger, remote: map<string, RemoteOrder>,
                             gone1: seq<string>, seen1: seq<string>, gone2: seq<string>, seen2: seq<string>)
    requires ClaimsNonNegative(l) && Visits(l, remote, gone1, seen1) && Visits(l, remote, gone2, seen2)
    ensures OrderPass(l, remote, gone1, seen1) == OrderPass(l, remote, gone2, seen2)
  {
    hide Run, ClaimsNonNegative;
    RunConcat(l, Evictions(gone1), Merges(remote, seen1));
    RunConcat(l, Evictions(gone2), Merges(remote, seen2));
    var evict := (id: string) => OpEvict(id);
    var merge := (id: string) => MergeFor(remote, id);
    assert Evictions(gone1) == OpsFor(evict, gone1) && Evictions(gone2) == OpsFor(evict, gone2);
    assert forall i :: 0 <= i < |seen1| ==> seen1[i] in seen1;
    assert forall i :: 0 <= i < |seen2| ==> seen2[i] in seen2;
    assert Merges(remote, seen1) == OpsFor(merge, seen1) && Merges(remote, seen2) == OpsFor(merge, seen2);
    LoopInAnyOrder(l, evict, gone1, gone2, l.orders.Keys - remote.Keys);
    EvictionsKeepNonNegative(l, gone1);
    LoopInAnyOrder(Run(l, Evictions(gone1)), merge, seen1, seen2, remote.Keys);
  }

  /** The expiry sweep releases in any order. */
  lemma SweepOrderIndependent(l: Ledger, now: int, ids1: seq<string>, ids2: seq<string>)
    requires ClaimsNonNegative(l) && Lists(ids1, ExpiredAt(l, now)) && Lists(ids2, ExpiredAt(l, now))
    ensures Run(l, Drops(ids1)) == Run(l, Drops(ids2))
  {
    var drop := (id: string) => OpUnprovision(id);
    assert Drops(ids1) == OpsFor(drop, ids1) && Drops(ids2) == OpsFor(drop, ids2);
    LoopInAnyOrder(l, drop, ids1, ids2, ExpiredAt(l, now));
  }

  function LoadFor(orders: map<string, Order>, k: string): Op {
    if k in orders then OpLoadOrder(orders[k]) else OpEvict(k)
  }

  /** A restore of orders filed under their own id loads them in any order. */
  lemma RestoreOrderIndependent(l: Ledger, s: Snapshot, visit1: seq<string>, visit2: seq<string>)
    requires Keyed(s.orders) && Lists(visit1, s.orders.Keys) && Lists(visit2, s.orders.Keys)
    ensures Restore(l, s, visit1) == Restore(l, s, visit2)
  {
    hide Run;
    var load := (k: string) => LoadFor(s.orders, k);
    assert forall i :: 0 <= i < |visit1| ==> visit1[i] in visit1;
    assert forall i :: 0 <= i < |visit2| ==> visit2[i] in visit2;
    assert Loads(s.orders, visit1) == OpsFor(load, visit1) && Loads(s.orders, visit2) == OpsFor(load, visit2);
    LoopInAnyOrder(Reset(l, s.balance, s.tokens), load, visit1, visit2, s.orders.Keys);
  }
}
