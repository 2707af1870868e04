/**
 What a trade, an order message and a posted order mean to the tracker, told on the fields of the
 message: which of our orders a trade fills and by how much, and what is published about them.
 */
module Trades {
  import opened Core
  import opened Trackers

  /** Our credentials are unknown, or the entry carries them. */
  predicate Ours(key: string, owner: string) {
    key == "" || owner == key
  }

  // ---------------------------------------------------------------- the fills of a trade

  /** What the trade's maker entries for our order `id` matched, in all. */
  function MakersMatched(key: string, makers: seq<MakerOrder>, id: string): real {
    if makers == [] then 0.0
    else
      (if makers[0].orderID == id && Ours(key, makers[0].owner) then makers[0].matched else 0.0)
      + MakersMatched(key, makers[1..], id)
  }

  /** What the trade says about order `id`: the whole trade if we are the taker with it, and what our
      maker entries for it matched. */
  function Traded(key: string, ti: Trade, id: string): real {
    (if ti.takerOrderID == id && Ours(key, ti.owner) then ti.size else 0.0) + MakersMatched(key, ti.makers, id)
  }

  /** The sizes of the touches of order `id`. */
  function TouchedSize(xs: seq<Touch>, id: string): real {
    if xs == [] then 0.0
    else TouchedSize(xs[..|xs| - 1], id) + if xs[|xs| - 1].id == id then xs[|xs| - 1].detail.size else 0.0
  }

  lemma TouchedNext(xs: seq<Touch>, x: Touch, id: string)
    ensures TouchedSize(xs + [x], id) == TouchedSize(xs, id) + if x.id == id then x.detail.size else 0.0
  {
    assert (xs + [x])[..|xs|] == xs;
  }

  lemma {:induction false} TouchedConcat(a: seq<Touch>, b: seq<Touch>, id: string)
    ensures TouchedSize(a + b, id) == TouchedSize(a, id) + TouchedSize(b, id)
    decreases |b|
  {
    if b == [] {
      assert a + b == a;
    } else {
      var n := |b| - 1;
      assert a + b == (a + b[..n]) + [b[n]];
      TouchedNext(a + b[..n], b[n], id);
      TouchedConcat(a, b[..n], id);
    }
  }

  lemma {:induction false} MatchedNext(key: string, makers: seq<MakerOrder>, mo: MakerOrder, id: string)
    ensures MakersMatched(key, makers + [mo], id)
         == MakersMatched(key, makers, id) + if mo.orderID == id && Ours(key, mo.owner) then mo.matched else 0.0
    decreases |makers|
  {
    if makers == [] {
      assert makers + [mo] == [mo] && [mo][1..] == [];
      assert MakersMatched(key, [mo][1..], id) == 0.0;
    } else {
      assert (makers + [mo])[1..] == makers[1..] + [mo];
      MatchedNext(key, makers[1..], mo, id);
    }
  }

  lemma {:induction false} MakerTouchesSum(key: string, ti: Trade, makers: seq<MakerOrder>, id: string)
    requires id != ""
    ensures TouchedSize(MakerTouches(key, ti, makers), id) == MakersMatched(key, makers, id)
  {
    if makers == [] {
    } else {
      var n := |makers| - 1;
      var mo, front := makers[n], MakerTouches(key, ti, makers[..n]);
      assert makers == makers[..n] + [mo];
      MakerTouchesSum(key, ti, makers[..n], id);
      MatchedNext(key, makers[..n], mo, id);
      if mo.orderID != "" && Ours(key, mo.owner) {
        var x := MakerTouches(key, ti, makers)[|front|];
        assert MakerTouches(key, ti, makers) == front + [x];
        TouchedNext(front, x, id);
      } else {
        assert MakerTouches(key, ti, makers) == front;
      }
    }
  }

  /** The touches of a trade add up, order by order, to what the trade says. */
  lemma TouchesSum(key: string, ti: Trade, id: string)
    requires id != ""
    ensures TouchedSize(Touches(key, ti), id) == Traded(key, ti, id)
  {
    MakerTouchesSum(key, ti, ti.makers, id);
    TouchedConcat(TakerTouches(key, ti), MakerTouches(key, ti, ti.makers), id);
    var none: seq<Touch> := [];
    if ti.takerOrderID != "" && Ours(key, ti.owner) {
      var x := TakerTouches(key, ti)[0];
      assert TakerTouches(key, ti) == none + [x];
      TouchedNext(none, x, id);
    } else {
      assert TakerTouches(key, ti) == none;
    }
  }

  /** The touch comes from our taker entry. */
  predicate FromTaker(key: string, ti: Trade, x: Touch) {
    && ti.takerOrderID != "" && Ours(key, ti.owner)
    && x == FillTouch(ti.takerOrderID, Detail(ti.market, ti.assetID, ti.side, ti.price, ti.size), ti.id, ti.status)
  }

  /** The touch comes from this maker entry of ours. */
  predicate FromMaker(key: string, ti: Trade, mo: MakerOrder, x: Touch) {
    && mo.orderID != "" && Ours(key, mo.owner)
    && x == FillTouch(mo.orderID, Detail(ti.market, mo.assetID, mo.side, mo.price, mo.matched), ti.id, ti.status)
  }

  lemma {:induction false} MakerTouchesFrom(key: string, ti: Trade, makers: seq<MakerOrder>)
    ensures forall i :: 0 <= i < |MakerTouches(key, ti, makers)| ==>
              exists j :: 0 <= j < |makers| && FromMaker(key, ti, makers[j], MakerTouches(key, ti, makers)[i])
  {
    if makers == [] {
      assert MakerTouches(key, ti, makers) == [];
    } else {
      var n := |makers| - 1;
      var front, all := MakerTouches(key, ti, makers[..n]), MakerTouches(key, ti, makers);
      MakerTouchesFrom(key, ti, makers[..n]);
      forall i | 0 <= i < |all| ensures exists j :: 0 <= j < |makers| && FromMaker(key, ti, makers[j], all[i]) {
        if i < |front| {
          assert all[i] == front[i];
          var j :| 0 <= j < n && FromMaker(key, ti, makers[..n][j], front[i]);
          assert FromMaker(key, ti, makers[j], all[i]);
        } else {
          assert FromMaker(key, ti, makers[n], all[i]);
        }
      }
    }
  }

  /** Every touch carries the market, token, side, price and size of an entry of ours that it comes
      from; no touch names an order of another owner. */
  lemma TouchesFrom(key: string, ti: Trade, i: nat)
    requires i < |Touches(key, ti)|
    ensures FromTaker(key, ti, Touches(key, ti)[i])
            || exists j :: 0 <= j < |ti.makers| && FromMaker(key, ti, ti.makers[j], Touches(key, ti)[i])
  {
    var taker, makers := TakerTouches(key, ti), MakerTouches(key, ti, ti.makers);
    MakerTouchesFrom(key, ti, ti.makers);
    if i >= |taker| {
      assert Touches(key, ti)[i] == makers[i - |taker|];
    }
  }

  // ---------------------------------------------------------------- what one delivery books

  /** The order appears in the trade once: as our taker, or as one of our maker entries. */
  ghost predicate NamedOnce(key: string, ti: Trade, id: string) {
    forall i, j :: 0 <= i < |Touches(key, ti)| && 0 <= j < |Touches(key, ti)| && i != j ==>
      !(Touches(key, ti)[i].id == id == Touches(key, ti)[j].id)
  }

  lemma {:induction false} UntouchedRun(s: Tracker, xs: seq<Touch>, id: string)
    requires forall i :: 0 <= i < |xs| ==> xs[i].id != id
    ensures At(Run(s, xs).book, id) == At(s.book, id)
    decreases |xs|
  {
    hide Apply;
    if xs == [] {
    } else {
      UntouchedRun(s, xs[..|xs| - 1], id);
    }
  }

  lemma {:induction false} OneTouchRun(s: Tracker, xs: seq<Touch>, k: nat)
    requires k < |xs| && forall i :: 0 <= i < |xs| && i != k ==> xs[i].id != xs[k].id
    ensures At(Run(s, xs).book, xs[k].id) == Apply(At(s.book, xs[k].id), xs[k]).order
    decreases |xs|
  {
    hide Apply;
    var n := |xs| - 1;
    var front := xs[..n];
    assert forall i :: 0 <= i < n ==> front[i] == xs[i];
    if k == n {
      UntouchedRun(s, front, xs[k].id);
    } else {
      OneTouchRun(s, front, k);
    }
  }

  lemma {:induction false} OneTouchSize(xs: seq<Touch>, k: nat)
    requires k < |xs| && forall i :: 0 <= i < |xs| && i != k ==> xs[i].id != xs[k].id
    ensures TouchedSize(xs, xs[k].id) == xs[k].detail.size
    decreases |xs|
  {
    var n := |xs| - 1;
    var front := xs[..n];
    assert forall i :: 0 <= i < n ==> front[i] == xs[i];
    if k == n {
      UntouchedSize(front, xs[k].id);
    } else {
      OneTouchSize(front, k);
    }
  }

  lemma {:induction false} UntouchedSize(xs: seq<Touch>, id: string)
    requires forall i :: 0 <= i < |xs| ==> xs[i].id != id
    ensures TouchedSize(xs, id) == 0.0
    decreases |xs|
  {
    if xs == [] {
    } else {
      UntouchedSize(xs[..|xs| - 1], id);
    }
  }

  /** The first delivery of a MINED trade to an order of ours that is not over: its filled size rises by
      exactly what the trade says about it (what the maker entry matched, or the trade's size for the
      taker), and it is over exactly if that reaches the requested size. */
  lemma DeliveryBooks(s: Tracker, key: string, ti: Trade, id: string, k: nat)
    requires ti.status == Mined && NamedOnce(key, ti, id) && k < |Touches(key, ti)| && Touches(key, ti)[k].id == id
    requires var t := At(s.book, id); !t.finalized && t.filled >= 0.0 && (ti.id == "" || ti.id !in t.seen)
    ensures var t, t' := At(s.book, id), At(Run(s, Touches(key, ti)).book, id);
            var more := if Traded(key, ti, id) > EPS then Traded(key, ti, id) else 0.0;
            && t'.filled == t.filled + more && t'.requested == t.requested
            && (t'.finalized <==> more > 0.0 && t.requested > 0.0 && t.filled + more + EPS >= t.requested)
            && t'.seen == (if ti.id == "" then t.seen else t.seen + {ti.id})
  {
    var xs := Touches(key, ti);
    assert forall i :: 0 <= i < |xs| && i != k ==> xs[i].id != id;
    TouchesFrom(key, ti, k);
    assert id != "";
    TouchesSum(key, ti, id);
    OneTouchSize(xs, k);
    OneTouchRun(s, xs, k);
    hide Touches, Run, Traded, TouchedSize;
    assert xs[k].tradeID == ti.id && xs[k].tradeStatus == ti.status;
  }

  lemma MinedDeafens(t: Tracked, x: Touch)
    requires x.FillTouch? && x.tradeStatus == Mined && x.tradeID != ""
    ensures Deaf(Apply(t, x).order, x.tradeID)
  {
  }

  lemma {:induction false} FirstTouchRun(s: Tracker, xs: seq<Touch>, k: nat, tradeID: string)
    requires k < |xs| && tradeID != "" && forall i :: 0 <= i < k ==> xs[i].id != xs[k].id
    requires forall i :: 0 <= i < |xs| ==> xs[i].FillTouch? && xs[i].tradeStatus == Mined && xs[i].tradeID == tradeID
    ensures var t := At(Run(s, xs).book, xs[k].id);
            SameProgress(t, Apply(At(s.book, xs[k].id), xs[k]).order) && Deaf(t, tradeID)
    decreases |xs|
  {
    hide Apply;
    var n := |xs| - 1;
    var front := xs[..n];
    assert forall i :: 0 <= i < n ==> front[i] == xs[i];
    if k == n {
      UntouchedRun(s, front, xs[k].id);
      MinedDeafens(At(s.book, xs[k].id), xs[k]);
    } else {
      FirstTouchRun(s, front, k, tradeID);
      if xs[n].id == xs[k].id { DeafTouch(At(Run(s, front).book, xs[k].id), xs[n]); }
    }
  }

  /** A named trade that names an order of ours several times books the first entry only. */
  lemma NamedDeliveryBooksFirst(s: Tracker, key: string, ti: Trade, k: nat)
    requires ti.status == Mined && ti.id != "" && k < |Touches(key, ti)|
    requires forall i :: 0 <= i < k ==> Touches(key, ti)[i].id != Touches(key, ti)[k].id
    requires var t := At(s.book, Touches(key, ti)[k].id); !t.finalized && t.filled >= 0.0 && ti.id !in t.seen
    ensures var x := Touches(key, ti)[k];
            var t, t' := At(s.book, x.id), At(Run(s, Touches(key, ti)).book, x.id);
            t'.filled == t.filled + (if x.detail.size > EPS then x.detail.size else 0.0) && t'.seen == t.seen + {ti.id}
  {
    var xs := Touches(key, ti);
    forall i | 0 <= i < |xs| ensures xs[i].FillTouch? && xs[i].tradeStatus == Mined && xs[i].tradeID == ti.id {
      TouchesFrom(key, ti, i);
    }
    hide Touches, Run;
    FirstTouchRun(s, xs, k, ti.id);
  }

  // ---------------------------------------------------------------- what is published

  /** What a message says about an order, where it says something, and what was known, where not. */
  ghost predicate Says(ev: ExecutionEvent, t: Tracked, x: Touch) {
    && ev.orderID == x.id && ev.parentOrderID == ""
    && ev.marketID == (if x.detail.marketID != "" then x.detail.marketID else t.marketID)
    && ev.tokenID == (if x.detail.tokenID != "" then x.detail.tokenID else t.tokenID)
    && ev.side == x.detail.side
    && ev.price == (if x.detail.price > 0.0 then x.detail.price else t.price)
  }

  /** A new MINED fill publishes itself, at its own price, as FILLED exactly if it reaches the
      requested size; a smaller one than the tolerance, or one seen before, publishes nothing. */
  lemma FillPublished(t: Tracked, x: Touch)
    requires x.FillTouch? && x.tradeStatus == Mined && !t.finalized && t.filled >= 0.0
    ensures var out := Apply(t, x).out;
            var unseen := x.tradeID == "" || x.tradeID !in t.seen;
            && (out != [] <==> unseen && x.detail.size > EPS)
            && (out != [] ==>
                  && |out| == 1 && Says(out[0], t, x) && out[0].reason == ""
                  && out[0].filledSize == x.detail.size && out[0].requestedSize == t.requested
                  && (out[0].status == Filled <==> t.requested > 0.0 && t.filled + x.detail.size + EPS >= t.requested)
                  && (out[0].status != Filled ==> out[0].status == PartiallyFilled))
  {
  }

  /** A FAILED trade ends the order with a rejection; any other status is only noted. */
  lemma OtherTradePublished(t: Tracked, x: Touch)
    requires x.FillTouch? && x.tradeStatus != Mined && !t.finalized
    ensures var r := Apply(t, x);
            && (r.out != [] <==> x.tradeStatus == Failed) && (r.order.finalized <==> x.tradeStatus == Failed)
            && (r.out != [] ==>
                  && |r.out| == 1 && Says(r.out[0], t, x) && r.out[0].status == Rejected
                  && r.out[0].reason == "TRADE_FAILED" && r.out[0].filledSize == 0.0)
            && r.order.filled == t.filled && r.order.seen == t.seen
  {
  }

  /** A LIVE message announces an order once, when everything about it is known; a CANCELED one ends it
      once. */
  lemma OrderPublished(t: Tracked, x: Touch)
    requires x.OrderTouch?
    ensures var r := Apply(t, x);
            var size := if x.detail.size > 0.0 then x.detail.size else t.requested;
            var price := if x.detail.price > 0.0 then x.detail.price else t.price;
            && r.order.requested == size && r.order.price == price && r.order.side == x.detail.side
            && r.order.filled == t.filled && r.order.seen == t.seen
            && (x.orderStatus == Live ==>
                  && (r.out != [] <==>
                        && !t.accepted && size > 0.0 && price > 0.0 && (x.detail.side == BUY || x.detail.side == SELL)
                        && (x.detail.marketID != "" || t.marketID != "") && (x.detail.tokenID != "" || t.tokenID != ""))
                  && (r.out != [] ==> r.out[0].status == Accepted)
                  && (r.order.accepted <==> t.accepted || r.out != []) && r.order.finalized == t.finalized)
            && (x.orderStatus == Canceled ==>
                  && (r.out != [] <==> !t.finalized) && (r.out != [] ==> r.out[0].status == Cancelled)
                  && r.order.finalized && r.order.accepted == t.accepted)
            && (x.orderStatus == OtherOrderStatus ==>
                  r.out == [] && r.order.finalized == t.finalized && r.order.accepted == t.accepted)
            && (r.out != [] ==>
                  && |r.out| == 1 && Says(r.out[0], t, x) && r.out[0].requestedSize == size
                  && r.out[0].filledSize == 0.0 && r.out[0].reason == "")
  {
  }

  /** A posted order is announced with its intent and the intent's own fields. */
  lemma PostPublished(t: Tracked, x: Touch)
    requires x.Posted?
    ensures var r := Apply(t, x);
            && |r.out| == 1 && r.out[0].orderID == x.id && r.out[0].parentOrderID == x.intentID
            && r.out[0].status == Accepted && r.out[0].filledSize == 0.0 && r.out[0].reason == ""
            && r.out[0].marketID == x.detail.marketID && r.out[0].tokenID == x.detail.tokenID
            && r.out[0].side == x.detail.side && r.out[0].price == x.detail.price
            && r.out[0].requestedSize == x.detail.size
            && r.order.accepted && r.order.finalized == t.finalized && r.order.filled == t.filled
            && r.order.requested == (if x.detail.size > 0.0 then x.detail.size else t.requested)
  {
  }
}
