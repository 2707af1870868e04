/** The executor object: its map of tracked orders, updated in place by messages. */
module Executors {
  import opened Core
  import opened Trackers

  class Executor {
    const key: string
    var tracked: Book

    constructor (key: string)
      ensures this.key == key && tracked == map[]
    {
      this.key := key;
      tracked := map[];
    }

    method GetOrCreateTracked(id: string) returns (t: Tracked)
      modifies this
      ensures t == At(old(tracked), id) && tracked == old(tracked)[id := t]
    {
      if id in tracked {
        t := tracked[id];
        assert tracked[id := t] == tracked;
        return;
      }
      t := Tracked("", "", OtherSide(""), 0.0, 0.0, 0.0, false, false, {});
      tracked := tracked[id := t];
    }

    method DescribeOrder(t: Tracked, d: Detail) returns (r: Tracked)
      ensures r == Describe(t, d)
    {
      r := t;
      if d.marketID != "" { r := r.(marketID := d.marketID); }
      if d.tokenID != "" { r := r.(tokenID := d.tokenID); }
      r := r.(side := d.side);
      if d.price > 0.0 { r := r.(price := d.price); }
    }

    /** After a successful post: remember the order and announce it with its intent. */
    method TrackPostedOrder(id: string, intentID: string, d: Detail) returns (out: seq<ExecutionEvent>)
      modifies this
      ensures id == "" ==> out == [] && tracked == old(tracked)
      ensures id != "" ==> Tracker(tracked, out) == Step(Tracker(old(tracked), []), Posted(id, intentID, d))
    {
      if id == "" { return []; }
      var t := GetOrCreateTracked(id);
      t := DescribeOrder(t, d);
      if d.size > 0.0 { t := t.(requested := d.size); }
      tracked := tracked[id := t.(accepted := true)];
      out := [ExecutionEvent(id, intentID, d.marketID, d.tokenID, d.price, d.side, d.size, 0.0, Accepted, "")];
      assert [] + out == out;
    }

    /** A websocket order message; `reconcile` asks for a reconciliation with the exchange. */
    method OnOrderEvent(id: string, owner: string, d: Detail, status: OrderStatus)
      returns (out: seq<ExecutionEvent>, reconcile: bool)
      modifies this
      ensures id == "" || !Own(key, owner) ==> out == [] && tracked == old(tracked) && !reconcile
      ensures id != "" && Own(key, owner) ==>
                Tracker(tracked, out) == Step(Tracker(old(tracked), []), OrderTouch(id, d, status))
      ensures id != "" && Own(key, owner) ==> (reconcile <==> id !in old(tracked))
    {
      if id == "" || !Own(key, owner) { return [], false; }
      reconcile := id !in tracked;
      var t := GetOrCreateTracked(id);
      t := DescribeOrder(t, d);
      if d.size > 0.0 { t := t.(requested := d.size); }
      out := [];
      match status {
        case Live =>
          if CanAccept(t) {
            out := [EventFor(id, t, Accepted, 0.0, "")];
            t := t.(accepted := true);
          }
        case Canceled =>
          if !t.finalized {
            out := [EventFor(id, t, Cancelled, 0.0, "")];
            t := t.(finalized := true);
          }
        case OtherOrderStatus =>
      }
      tracked := tracked[id := t];
      assert [] + out == out;
    }

    static method BuildFill(id: string, t: Tracked, delta: real) returns (r: Tracked, out: seq<ExecutionEvent>)
      ensures Effect(r, out) == FillByDelta(id, t, delta)
    {
      r, out := t, [];
      if delta <= EPS { return; }
      var cumulative := t.filled + delta;
      if cumulative < 0.0 { cumulative := 0.0; }
      var step := cumulative - t.filled;
      if step <= EPS { return; }
      r := r.(filled := cumulative);
      var status := PartiallyFilled;
      if r.requested > 0.0 && r.filled + EPS >= r.requested {
        status := Filled;
        r := r.(finalized := true);
      }
      out := [EventFor(id, r, status, step, "")];
    }

    /** The part of a trade that concerns one of our orders. */
    method TouchOrder(x: Touch) returns (out: seq<ExecutionEvent>)
      requires x.FillTouch?
      modifies this
      ensures Tracker(tracked, out) == Step(Tracker(old(tracked), []), x)
    {
      var t := GetOrCreateTracked(x.id);
      out := [];
      if t.finalized {
        assert [] + out == out;
        return;
      }
      t := DescribeOrder(t, x.detail);
      match x.tradeStatus {
        case Mined =>
          if x.tradeID == "" || x.tradeID !in t.seen {
            if x.tradeID != "" { t := t.(seen := t.seen + {x.tradeID}); }
            t, out := BuildFill(x.id, t, x.detail.size);
          }
        case Failed =>
          out := [EventFor(x.id, t, Rejected, 0.0, TRADE_FAILED)];
          t := t.(finalized := true);
        case OtherTradeStatus =>
      }
      tracked := tracked[x.id := t];
      assert [] + out == out;
    }

    method OwnFills(ti: Trade) returns (fills: seq<Touch>)
      ensures fills == Touches(key, ti)
    {
      fills := [];
      if ti.takerOrderID != "" && Own(key, ti.owner) {
        fills := [FillTouch(ti.takerOrderID, Detail(ti.market, ti.assetID, ti.side, ti.price, ti.size),
                            ti.id, ti.status)];
      }
      var i := 0;
      while i < |ti.makers|
        invariant i <= |ti.makers|
        invariant fills == TakerTouches(key, ti) + MakerTouches(key, ti, ti.makers[..i])
      {
        var mo := ti.makers[i];
        assert ti.makers[..i + 1][..i] == ti.makers[..i];
        if mo.orderID != "" && Own(key, mo.owner) {
          fills := fills + [FillTouch(mo.orderID, Detail(ti.market, mo.assetID, mo.side, mo.price, mo.matched),
                                      ti.id, ti.status)];
        }
        i := i + 1;
      }
      assert ti.makers[..i] == ti.makers;
    }

    /** A websocket trade message. */
    method OnTradeEvent(ti: Trade) returns (out: seq<ExecutionEvent>, reconcile: bool)
      modifies this
      ensures Tracker(tracked, out) == Run(Tracker(old(tracked), []), Touches(key, ti))
      ensures reconcile <==> exists i :: 0 <= i < |Touches(key, ti)| && Touches(key, ti)[i].id !in old(tracked)
    {
      var fills := OwnFills(ti);
      MakerTouchesUniform(key, ti, ti.makers);
      assert forall i :: 0 <= i < |fills| ==> fills[i].FillTouch?;
      hide Step, Touches;
      reconcile := exists i :: 0 <= i < |fills| && fills[i].id !in tracked;
      ghost var start := Tracker(tracked, []);
      out := [];
      var i := 0;
      while i < |fills|
        invariant i <= |fills|
        invariant Tracker(tracked, out) == Run(start, fills[..i])
      {
        ghost var before := tracked;
        var more := TouchOrder(fills[i]);
        StepAppends(before, out, fills[i], tracked, more);
        assert fills[..i + 1][..i] == fills[..i];
        out := out + more;
        i := i + 1;
      }
      assert fills[..i] == fills;
    }
  }
}
