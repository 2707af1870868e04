/**
 A round of strategies: every batch is judged against one snapshot, taken before the first of them is
 submitted, and a placement that cannot be reserved is skipped. The results say which intents of any
 number of passing batches are handed on, and what the caps are worth once orders exist that the
 snapshot did not count.
 */
module Rounds {
  import opened Core
  import opened Ledgers
  import opened Restores
  import opened Sums
  import opened Risks
  import opened Gates

  // ---------------------------------------------------------------- what is handed on

  /** A batch and the time it is submitted. */
  datatype Batch = Batch(intents: seq<Intent>, now: int)

  function ReserveRound(l: Ledger, batches: seq<Batch>, ttl: int): Ledger
    decreases |batches|
  {
    if batches == [] then l
    else ReserveRound(ReserveAll(l, batches[0].intents, batches[0].now, ttl), batches[1..], ttl)
  }

  function SubmittedRound(l: Ledger, batches: seq<Batch>, ttl: int): seq<Intent>
    decreases |batches|
  {
    if batches == [] then []
    else
      var b := batches[0];
      Submitted(l, b.intents, b.now, ttl) + SubmittedRound(ReserveAll(l, b.intents, b.now, ttl), batches[1..], ttl)
  }

  function Flat(batches: seq<Batch>): seq<Intent> {
    if batches == [] then [] else batches[0].intents + Flat(batches[1..])
  }

  /** Intents taken in turn, each if it fits into what those taken before it leave of `l`. */
  function Chosen(l: Ledger, taken: seq<Intent>, intents: seq<Intent>): seq<Intent>
    decreases |intents|
  {
    if intents == [] then taken
    else
      var more := taken + [intents[0]];
      Chosen(l, if FitsAt(l, more, |taken|) then more else taken, intents[1..])
  }

  ghost predicate Admitted(l: Ledger, intents: seq<Intent>) {
    AllValid(intents) && FreshIDs(l, intents)
  }

  lemma AdmittedPrefix(l: Ledger, a: seq<Intent>, b: seq<Intent>)
    requires Admitted(l, a + b)
    ensures Admitted(l, a)
  {
    assert forall i :: 0 <= i < |a| ==> a[i] == (a + b)[i];
    hide ValidateTerms;
  }

  lemma AdmittedWithout(l: Ledger, a: seq<Intent>, o: Intent, b: seq<Intent>)
    requires Admitted(l, a + [o] + b)
    ensures Admitted(l, a + b)
  {
    var all, less := a + [o] + b, a + b;
    assert forall i :: 0 <= i < |less| ==> less[i] == all[if i < |a| then i else i + 1];
    hide ValidateTerms;
  }

  lemma FailedReserve(l: Ledger, intentID: string, t: Terms, now: int, ttl: int)
    ensures TryReserve(l, intentID, t, now, ttl).outcome.Fail? ==> TryReserve(l, intentID, t, now, ttl).ledger == l
  {
  }

  /** One batch, submitted after `taken` have been reserved. */
  lemma {:induction false} BatchHandsOn(l: Ledger, taken: seq<Intent>, mid: Ledger, intents: seq<Intent>,
                                        rest: seq<Intent>, now: int, ttl: int)
    requires Reserves(l, taken, mid) && Admitted(l, taken + intents + rest)
    ensures var chosen := Chosen(l, taken, intents);
            && chosen == taken + Submitted(mid, intents, now, ttl)
            && Reserves(l, chosen, ReserveAll(mid, intents, now, ttl))
            && Admitted(l, chosen + rest)
    decreases |intents|
  {
    hide TryReserve, FitsAt, Reserves;
    if intents == [] {
      assert taken + intents == taken && taken + [] == taken;
    } else {
      var o, more := intents[0], intents[1..];
      var next := taken + [o];
      assert taken + intents + rest == next + (more + rest) == next + more + rest;
      AdmittedPrefix(l, next, more + rest);
      AdmittedWithout(l, taken, o, more + rest);
      assert taken + (more + rest) == taken + more + rest;
      hide Admitted;
      var r := TryReserve(mid, o.intentID, o.Terms(), now, ttl);
      OneHandedOn(l, taken, o, mid, now, ttl);
      if o.Placing() && r.outcome.Fail? {
        BatchHandsOn(l, taken, mid, more, rest, now, ttl);
        assert [] + Submitted(mid, more, now, ttl) == Submitted(mid, more, now, ttl);
      } else {
        var mid' := if o.Placing() then r.ledger else mid;
        BatchHandsOn(l, next, mid', more, rest, now, ttl);
        assert next + Submitted(mid', more, now, ttl) == taken + ([o] + Submitted(mid', more, now, ttl));
      }
    }
  }

  lemma OneHandedOn(l: Ledger, taken: seq<Intent>, o: Intent, mid: Ledger, now: int, ttl: int)
    requires Reserves(l, taken, mid) && Admitted(l, taken + [o])
    ensures var r := TryReserve(mid, o.intentID, o.Terms(), now, ttl);
            && (FitsAt(l, taken + [o], |taken|) <==> !(o.Placing() && r.outcome.Fail?))
            && (o.Placing() && r.outcome.Fail? ==> r.ledger == mid)
            && (!(o.Placing() && r.outcome.Fail?) ==> Reserves(l, taken + [o], if o.Placing() then r.ledger else mid))
  {
    hide TryReserve, FitsAt, Reserves;
    ReservedNext(l, taken, o, mid, now, ttl);
    FailedReserve(mid, o.intentID, o.Terms(), now, ttl);
  }

  lemma {:induction false} RoundFrom(l: Ledger, taken: seq<Intent>, mid: Ledger, batches: seq<Batch>, ttl: int)
    requires Reserves(l, taken, mid) && Admitted(l, taken + Flat(batches))
    ensures var chosen := Chosen(l, taken, Flat(batches));
            && chosen == taken + SubmittedRound(mid, batches, ttl)
            && Reserves(l, chosen, ReserveRound(mid, batches, ttl))
    decreases |batches|
  {
    hide Reserves, Admitted, Submitted, ReserveAll;
    if batches == [] {
      assert taken + [] == taken;
    } else {
      var b, rest := batches[0], Flat(batches[1..]);
      assert taken + Flat(batches) == taken + b.intents + rest;
      BatchHandsOn(l, taken, mid, b.intents, rest, b.now, ttl);
      var chosen, mid' := Chosen(l, taken, b.intents), ReserveAll(mid, b.intents, b.now, ttl);
      RoundFrom(l, chosen, mid', batches[1..], ttl);
      ChosenConcat(l, taken, b.intents, rest);
      assert chosen + SubmittedRound(mid', batches[1..], ttl)
          == taken + (Submitted(mid, b.intents, b.now, ttl) + SubmittedRound(mid', batches[1..], ttl));
    }
  }

  lemma {:induction false} ChosenConcat(l: Ledger, taken: seq<Intent>, a: seq<Intent>, b: seq<Intent>)
    ensures Chosen(l, taken, a + b) == Chosen(l, Chosen(l, taken, a), b)
    decreases |a|
  {
    hide FitsAt;
    if a == [] {
      assert a + b == b;
    } else {
      assert (a + b)[1..] == a[1..] + b;
      var more := taken + [a[0]];
      ChosenConcat(l, if FitsAt(l, more, |taken|) then more else taken, a[1..], b);
    }
  }

  lemma {:induction false} FlatValid(lim: Limits, mids: map<string, real>, batches: seq<Batch>)
    requires forall i :: 0 <= i < |batches| ==> FirstFault(lim, mids, batches[i].intents).Pass?
    ensures AllValid(Flat(batches))
  {
    hide FirstFault, ValidateTerms;
    if batches == [] {
    } else {
      PassingIsValid(lim, mids, batches[0].intents);
      FlatValid(lim, mids, batches[1..]);
    }
  }

  /** Any number of batches that pass against the snapshot taken at the start of the round: handed on
      is exactly what fits, in turn, into what the intents handed on before it leave. */
  lemma RoundHandsOn(l: Ledger, lim: Limits, lasts: seq<map<string, int>>, mids: map<string, real>,
                     batches: seq<Batch>, ttl: int)
    requires |lasts| == |batches| && FreshIDs(l, Flat(batches))
    requires forall i :: 0 <= i < |batches| ==>
               Judge(lim, lasts[i], batches[i].intents, SnapshotOf(l), mids, batches[i].now).Pass?
    ensures SubmittedRound(l, batches, ttl) == Chosen(l, [], Flat(batches))
    ensures Reserves(l, Chosen(l, [], Flat(batches)), ReserveRound(l, batches, ttl))
  {
    forall i | 0 <= i < |batches| ensures FirstFault(lim, mids, batches[i].intents).Pass? {
      PassIsFaultless(lim, lasts[i], batches[i].intents, SnapshotOf(l), mids, batches[i].now);
    }
    FlatValid(lim, mids, batches);
    assert [] + Flat(batches) == Flat(batches);
    RoundFrom(l, [], l, batches, ttl);
    assert [] + SubmittedRound(l, batches, ttl) == SubmittedRound(l, batches, ttl);
  }

  lemma PassIsFaultless(lim: Limits, last: map<string, int>, intents: seq<Intent>, s: Snapshot,
                        mids: map<string, real>, now: int)
    requires Judge(lim, last, intents, s, mids, now).Pass?
    ensures FirstFault(lim, mids, intents).Pass?
  {
  }

  // ---------------------------------------------------------------- caps

  /** What a provisional reservation holds in market `m`. */
  function HeldInMarket(m: string): (string, Provisional) -> real {
    (_: string, v: Provisional) => if v.terms.marketID == m then v.reserved else 0.0
  }

  /** What market `m` will hold when every provisional reservation has become an order. */
  ghost function Committed(l: Ledger, m: string): real {
    Sum(l.orders, InMarket(m)) + Sum(l.provisionals, HeldInMarket(m))
  }

  ghost predicate ValidProvisionals(l: Ledger) {
    forall k :: k in l.provisionals ==> k != "" && ValidateTerms(l.provisionals[k].terms).Done?
  }

  /** The provisional reservations are confirmed, one by one, under the given order ids. */
  function AttachEach(l: Ledger, ks: seq<string>, ids: seq<string>): Ledger
    requires |ids| == |ks|
    decreases |ks|
  {
    if ks == [] then l
    else
      AttachEach(if ks[0] in l.provisionals then Attach(l, ks[0], ids[0], l.provisionals[ks[0]].terms).ledger else l,
                 ks[1..], ids[1..])
  }

  lemma AttachPromotes(l: Ledger, k: string, id: string)
    requires ValidProvisionals(l) && k in l.provisionals && id != "" && id !in l.orders
    ensures Attach(l, k, id, l.provisionals[k].terms).ledger
         == l.(provisionals := l.provisionals - {k}, orders := l.orders[id := Promote(id, l.provisionals[k])])
  {
    hide Hold, Affordable;
  }

  /** Turning a provisional reservation into an order commits nothing new. */
  lemma PromoteKeepsCommitted(l: Ledger, k: string, id: string, m: string)
    requires k in l.provisionals && id !in l.orders
    ensures var l' := l.(provisionals := l.provisionals - {k},
                         orders := l.orders[id := Promote(id, l.provisionals[k])]);
            && Committed(l', m) == Committed(l, m)
            && |l'.orders| + |l'.provisionals| == |l.orders| + |l.provisionals|
  {
    hide Sum;
    var v := l.provisionals[k];
    SumDrop(l.provisionals, HeldInMarket(m), k);
    SumUpdate(l.orders, InMarket(m), id, Promote(id, v));
    SizeDrop(l.provisionals, k);
    SizeAdd(l.orders, id, Promote(id, v));
  }

  lemma SizeDrop<V>(s: map<string, V>, k: string)
    requires k in s
    ensures |s - {k}| == |s| - 1 && (s - {k}).Keys == s.Keys - {k}
  {
    assert (s - {k}).Keys == s.Keys - {k};
    assert |(s - {k}).Keys| == |s.Keys| - 1;
  }

  lemma SizeAdd<V>(s: map<string, V>, k: string, v: V)
    requires k !in s
    ensures |s[k := v]| == |s| + 1 && s[k := v].Keys == s.Keys + {k}
  {
    assert s[k := v].Keys == s.Keys + {k};
    assert |s[k := v].Keys| == |s.Keys| + 1;
  }

  lemma AttachKeepsCommitted(l: Ledger, k: string, id: string, m: string)
    requires ValidProvisionals(l) && k in l.provisionals && id != "" && id !in l.orders
    ensures var l' := Attach(l, k, id, l.provisionals[k].terms).ledger;
            && Committed(l', m) == Committed(l, m)
            && l'.provisionals == l.provisionals - {k} && l'.orders.Keys == l.orders.Keys + {id}
            && |l'.orders| + |l'.provisionals| == |l.orders| + |l.provisionals|
            && ValidProvisionals(l')
  {
    hide Attach, Committed, ValidateTerms;
    AttachPromotes(l, k, id);
    PromoteKeepsCommitted(l, k, id, m);
    SizeAdd(l.orders, id, Promote(id, l.provisionals[k]));
  }

  lemma FreshRest(l: Ledger, l': Ledger, ids: seq<string>)
    requires ids != [] && FreshOrderIDs(l, ids) && l'.orders.Keys <= l.orders.Keys + {ids[0]}
    ensures FreshOrderIDs(l', ids[1..])
  {
    assert forall i :: 0 <= i < |ids[1..]| ==> ids[1..][i] == ids[i + 1];
  }

  lemma {:induction false} AttachEachKeeps(l: Ledger, ks: seq<string>, ids: seq<string>, m: string)
    requires |ids| == |ks| && ValidProvisionals(l) && FreshOrderIDs(l, ids)
    ensures var l' := AttachEach(l, ks, ids);
            && Committed(l', m) == Committed(l, m)
            && |l'.orders| + |l'.provisionals| == |l.orders| + |l.provisionals|
            && forall j :: j in l'.provisionals <==> j in l.provisionals && j !in ks
    decreases |ks|
  {
    hide Committed, Attach, ValidProvisionals;
    if ks == [] {
    } else {
      var k, l' := ks[0], l;
      assert ks == [k] + ks[1..];
      if k in l.provisionals {
        AttachKeepsCommitted(l, k, ids[0], m);
        l' := Attach(l, k, ids[0], l.provisionals[k].terms).ledger;
      }
      FreshRest(l, l', ids);
      hide FreshOrderIDs;
      AttachEachKeeps(l', ks[1..], ids[1..], m);
    }
  }

  lemma NothingHeld(m: string)
    ensures Sum(map[], HeldInMarket(m)) == 0.0
  {
    SumEmpty<string, Provisional>(HeldInMarket(m));
  }

  /** Reserving a batch commits what the gate counted for it. */
  lemma {:induction false} ReserveCommits(l: Ledger, intents: seq<Intent>, now: int, ttl: int, m: string)
    requires AllReserved(l, intents, now, ttl) && ValidProvisionals(l)
    ensures var r := ReserveAll(l, intents, now, ttl);
            && Committed(r, m) == Committed(l, m) + TotalMarket(intents, m)
            && |r.orders| + |r.provisionals| == |l.orders| + |l.provisionals| + Places(intents)
            && r.orders == l.orders && ValidProvisionals(r)
    decreases |intents|
  {
    hide Committed, TryReserve, ValidProvisionals;
    if intents == [] {
    } else {
      var o := intents[0];
      var l' := l;
      if o.Placing() {
        PlaceCommits(l, o, now, ttl, m);
        l' := TryReserve(l, o.intentID, o.Terms(), now, ttl).ledger;
      }
      ReserveCommits(l', intents[1..], now, ttl, m);
    }
  }

  lemma PlaceCommits(l: Ledger, o: Intent, now: int, ttl: int, m: string)
    requires o.Placing() && TryReserve(l, o.intentID, o.Terms(), now, ttl).outcome.Done? && ValidProvisionals(l)
    ensures var r := TryReserve(l, o.intentID, o.Terms(), now, ttl).ledger;
            && Committed(r, m) == Committed(l, m) + MarketNeed(o, m) && r.orders == l.orders
            && |r.provisionals| == |l.provisionals| + 1 && ValidProvisionals(r)
  {
    PlacedProvisional(l, o, now, ttl);
    hide TryReserve, Sum, Collateral;
    var r := TryReserve(l, o.intentID, o.Terms(), now, ttl).ledger;
    var v := r.provisionals[o.intentID];
    SumUpdate(l.provisionals, HeldInMarket(m), o.intentID, v);
    SizeAdd(l.provisionals, o.intentID, v);
  }

  lemma PlacedProvisional(l: Ledger, o: Intent, now: int, ttl: int)
    requires TryReserve(l, o.intentID, o.Terms(), now, ttl).outcome.Done?
    ensures var r := TryReserve(l, o.intentID, o.Terms(), now, ttl).ledger;
            && o.intentID !in l.provisionals && o.intentID in r.provisionals && r.orders == l.orders
            && r.provisionals == l.provisionals[o.intentID := r.provisionals[o.intentID]]
            && r.provisionals[o.intentID].terms == o.Terms()
            && r.provisionals[o.intentID].reserved == Collateral(o.Terms())
            && o.intentID != "" && ValidateTerms(o.Terms()).Done?
  {
    hide Hold, Affordable;
  }

  /** Once every reservation has become an order, a market holds what its orders and provisional
      reservations held before the batch, and what the batch placed: the cap is kept exactly if that
      sum is within it. The gate looks at the orders alone. */
  lemma CapsExact(l: Ledger, lim: Limits, intents: seq<Intent>, now: int, ttl: int, ks: seq<string>, ids: seq<string>,
                  m: string)
    requires AllReserved(l, intents, now, ttl) && ValidProvisionals(l) && |ids| == |ks| && FreshOrderIDs(l, ids)
    requires forall k :: k in ReserveAll(l, intents, now, ttl).provisionals ==> k in ks
    ensures var l' := AttachEach(ReserveAll(l, intents, now, ttl), ks, ids);
            && l'.provisionals == map[]
            && (Sum(l'.orders, InMarket(m)) <= lim.maxExposurePerMarket + EPS <==>
                  Sum(l.orders, InMarket(m)) + Sum(l.provisionals, HeldInMarket(m)) + TotalMarket(intents, m)
                  <= lim.maxExposurePerMarket + EPS)
            && (|l'.orders| <= lim.maxOpenOrders <==>
                  |l.orders| + |l.provisionals| + Places(intents) <= lim.maxOpenOrders)
  {
    hide ReserveAll, AttachEach, AllReserved, Sum, TotalMarket, Places, ValidateTerms;
    ReserveCommits(l, intents, now, ttl, m);
    var r := ReserveAll(l, intents, now, ttl);
    AttachEachKeeps(r, ks, ids, m);
    var l' := AttachEach(r, ks, ids);
    assert l'.provisionals == map[];
    NothingHeld(m);
  }

  const CAP := Limits(0.0, 5.0, 0, 0, 0)
  const PENDING := Provisional("p", Terms("m", "t", BUY, 0.5, 8.0), 4.0, 0, 1)
  const PENDING_LEDGER := Ledger(Balance(20.0, 4.0, 0.0), map[], map[], map["p" := PENDING], 0.0, "")

  /** An instance: four units of a cap of five are reserved provisionally, four more pass the gate,
      and the market will hold eight. */
  lemma CapExceeded(now: int, ttl: int, ks: seq<string>, ids: seq<string>)
    requires |ids| == |ks| && FreshOrderIDs(PENDING_LEDGER, ids)
    requires forall k :: k in ReserveAll(PENDING_LEDGER, [PlaceOf(BUY, 8.0, "i")], now, ttl).provisionals ==> k in ks
    ensures Judge(CAP, map[], [PlaceOf(BUY, 8.0, "i")], SnapshotOf(PENDING_LEDGER), map[], now).Pass?
    ensures var l' := AttachEach(ReserveAll(PENDING_LEDGER, [PlaceOf(BUY, 8.0, "i")], now, ttl), ks, ids);
            !(Sum(l'.orders, InMarket("m")) <= CAP.maxExposurePerMarket + EPS)
  {
    var o := PlaceOf(BUY, 8.0, "i");
    GatePasses(now);
    PassedBatchReserves(PENDING_LEDGER, CAP, map[], map[], [o], now, ttl);
    PendingSums();
    OneMarketNeed(o, "m");
    hide ReserveAll, AttachEach, AllReserved, Sum, Judge;
    CapsExact(PENDING_LEDGER, CAP, [o], now, ttl, ks, ids, "m");
  }

  lemma OneMarketNeed(o: Intent, m: string)
    ensures TotalMarket([o], m) == MarketNeed(o, m) && TotalBuy([o]) == BuyNeed(o)
    ensures forall t :: TotalSell([o], t) == SellNeed(o, t)
  {
    assert [o][1..] == [];
    assert TotalMarket([o][1..], m) == 0.0 && TotalBuy([o][1..]) == 0.0;
    forall t ensures TotalSell([o], t) == SellNeed(o, t) {
      assert TotalSell([o][1..], t) == 0.0;
    }
  }

  lemma PendingSums()
    ensures Sum(PENDING_LEDGER.orders, InMarket("m")) == 0.0
    ensures Sum(PENDING_LEDGER.provisionals, HeldInMarket("m")) == 4.0
  {
    var none: map<string, Provisional> := map[];
    SumEmpty<string, Order>(InMarket("m"));
    NothingHeld("m");
    SumUpdate(none, HeldInMarket("m"), "p", PENDING);
    assert none["p" := PENDING] == PENDING_LEDGER.provisionals;
  }

  lemma GatePasses(now: int)
    ensures Judge(CAP, map[], [PlaceOf(BUY, 8.0, "i")], SnapshotOf(PENDING_LEDGER), map[], now).Pass?
  {
    var o := PlaceOf(BUY, 8.0, "i");
    var s := SnapshotOf(PENDING_LEDGER);
    assert [o][0] == o && FirstFault(CAP, map[], [o][1..]).Pass?;
    forall m ensures Sum(s.orders, InMarket(m)) + TotalMarket([o], m) <= 4.0 {
      OneMarketNeed(o, m);
      SumEmpty<string, Order>(InMarket(m));
    }
    OneMarketNeed(o, "m");
    hide Sum, TotalMarket, TotalBuy, TotalSell;
    assert !OverExposed(CAP, [o], s) && !Short([o], s);
  }
}
