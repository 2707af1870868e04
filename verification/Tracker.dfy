/**
 The executor's order tracker: websocket order and trade messages, possibly repeated, are turned
 into execution events. A trade touches each of our orders it names; everything the tracker does
 is a sequence of such touches, each of which looks at one tracked order only.
 */
module Trackers {
  import opened Core

  datatype Tracked = Tracked(
    marketID: string, tokenID: string, side: Side, price: real,
    requested: real, filled: real, accepted: bool, finalized: bool, seen: set<string>)

  const NEW_ORDER := Tracked("", "", OtherSide(""), 0.0, 0.0, 0.0, false, false, {})

  type Book = map<string, Tracked>

  function At(book: Book, id: string): Tracked {
    if id in book then book[id] else NEW_ORDER
  }

  datatype OrderStatus = Live | Canceled | OtherOrderStatus
  datatype TradeStatus = Mined | Failed | OtherTradeStatus

  /** What a message says about one order. */
  datatype Detail = Detail(marketID: string, tokenID: string, side: Side, price: real, size: real)

  datatype Touch =
    | Posted(id: string, intentID: string, detail: Detail)
    | OrderTouch(id: string, detail: Detail, orderStatus: OrderStatus)
    | FillTouch(id: string, detail: Detail, tradeID: string, tradeStatus: TradeStatus)

  function FirstNonEmpty(a: string, b: string): string {
    if a != "" then a else b
  }

  function Describe(t: Tracked, d: Detail): Tracked {
    t.(marketID := FirstNonEmpty(d.marketID, t.marketID),
       tokenID := FirstNonEmpty(d.tokenID, t.tokenID),
       side := d.side,
       price := if d.price > 0.0 then d.price else t.price)
  }

  function Resize(t: Tracked, size: real): Tracked {
    if size > 0.0 then t.(requested := size) else t
  }

  function EventFor(id: string, t: Tracked, status: Status, filled: real, reason: string): ExecutionEvent {
    ExecutionEvent(id, "", t.marketID, t.tokenID, t.price, t.side, t.requested, filled, status, reason)
  }

  predicate CanAccept(t: Tracked) {
    !t.accepted && t.marketID != "" && t.tokenID != "" && t.price > 0.0 && t.requested > 0.0 && Tradable(t.side)
  }

  datatype Effect = Effect(order: Tracked, out: seq<ExecutionEvent>)

  function FillToCumulative(id: string, t: Tracked, cumulative: real): Effect {
    var total := NonNeg(cumulative);
    var delta := total - t.filled;
    if delta <= EPS then Effect(t, [])
    else
      var t1 := t.(filled := total);
      var done := t1.requested > 0.0 && t1.filled + EPS >= t1.requested;
      Effect(t1.(finalized := t1.finalized || done),
             [EventFor(id, t1, if done then Filled else PartiallyFilled, delta, "")])
  }

  function FillByDelta(id: string, t: Tracked, delta: real): Effect {
    if delta <= EPS then Effect(t, []) else FillToCumulative(id, t, t.filled + delta)
  }

  function ApplyTrade(t: Tracked, x: Touch): Effect
    requires x.FillTouch?
  {
    if t.finalized then Effect(t, [])
    else
      var t1 := Describe(t, x.detail);
      match x.tradeStatus
      case Mined =>
        if x.tradeID != "" && x.tradeID in t1.seen then Effect(t1, [])
        else FillByDelta(x.id, if x.tradeID != "" then t1.(seen := t1.seen + {x.tradeID}) else t1, x.detail.size)
      case Failed => Effect(t1.(finalized := true), [EventFor(x.id, t1, Rejected, 0.0, TRADE_FAILED)])
      case OtherTradeStatus => Effect(t1, [])
  }

  function ApplyOrder(t: Tracked, x: Touch): Effect
    requires x.OrderTouch?
  {
    var t1 := Resize(Describe(t, x.detail), x.detail.size);
    match x.orderStatus
    case Live =>
      if CanAccept(t1) then Effect(t1.(accepted := true), [EventFor(x.id, t1, Accepted, 0.0, "")]) else Effect(t1, [])
    case Canceled =>
      if t1.finalized then Effect(t1, [])
      else Effect(t1.(finalized := true), [EventFor(x.id, t1, Cancelled, 0.0, "")])
    case OtherOrderStatus => Effect(t1, [])
  }

  function ApplyPost(t: Tracked, x: Touch): Effect
    requires x.Posted?
  {
    var d := x.detail;
    Effect(Resize(Describe(t, d), d.size).(accepted := true),
           [ExecutionEvent(x.id, x.intentID, d.marketID, d.tokenID, d.price, d.side, d.size, 0.0, Accepted, "")])
  }

  function Apply(t: Tracked, x: Touch): Effect {
    match x
    case Posted(_, _, _) => ApplyPost(t, x)
    case OrderTouch(_, _, _) => ApplyOrder(t, x)
    case FillTouch(_, _, _, _) => ApplyTrade(t, x)
  }

  datatype Tracker = Tracker(book: Book, out: seq<ExecutionEvent>)

  function Step(s: Tracker, x: Touch): Tracker {
    var r := Apply(At(s.book, x.id), x);
    Tracker(s.book[x.id := r.order], s.out + r.out)
  }

  function Run(s: Tracker, xs: seq<Touch>): Tracker
    decreases |xs|
  {
    if xs == [] then s else Step(Run(s, xs[..|xs| - 1]), xs[|xs| - 1])
  }

  lemma StepAppends(book: Book, out: seq<ExecutionEvent>, x: Touch, book': Book, more: seq<ExecutionEvent>)
    requires Tracker(book', more) == Step(Tracker(book, []), x)
    ensures Step(Tracker(book, out), x) == Tracker(book', out + more)
  {
    var r := Apply(At(book, x.id), x);
    assert [] + r.out == r.out;
  }

  // ---------------------------------------------------------------- trades

  datatype MakerOrder = MakerOrder(orderID: string, owner: string, assetID: string, side: Side, price: real,
                                   matched: real)

  /** A trade as the websocket reports it; ids and owners have been trimmed. */
  datatype Trade = Trade(
    id: string, status: TradeStatus, market: string, assetID: string, side: Side, price: real, size: real,
    takerOrderID: string, owner: string, makers: seq<MakerOrder>)

  predicate Own(key: string, owner: string) {
    key == "" || owner == key
  }

  function TakerTouches(key: string, ti: Trade): seq<Touch> {
    if ti.takerOrderID != "" && Own(key, ti.owner)
    then [FillTouch(ti.takerOrderID, Detail(ti.market, ti.assetID, ti.side, ti.price, ti.size), ti.id, ti.status)]
    else []
  }

  function MakerTouches(key: string, ti: Trade, makers: seq<MakerOrder>): seq<Touch> {
    if makers == [] then []
    else
      var mo := makers[|makers| - 1];
      MakerTouches(key, ti, makers[..|makers| - 1]) +
      if mo.orderID != "" && Own(key, mo.owner)
      then [FillTouch(mo.orderID, Detail(ti.market, mo.assetID, mo.side, mo.price, mo.matched), ti.id, ti.status)]
      else []
  }

  /** The touches of one trade: our taker order first, then our maker orders. */
  function Touches(key: string, ti: Trade): seq<Touch> {
    TakerTouches(key, ti) + MakerTouches(key, ti, ti.makers)
  }

  // ---------------------------------------------------------------- exactly once

  /** A delivered fill: the trade it belongs to (may be unnamed) and its size. */
  datatype Attempt = Attempt(tradeID: string, size: real)

  /** The MINED fills delivered for order `id` while it was not finalized, in order. */
  function Attempts(s: Tracker, xs: seq<Touch>, id: string): seq<Attempt>
    decreases |xs|
  {
    if xs == [] then []
    else
      var front, x := xs[..|xs| - 1], xs[|xs| - 1];
      Attempts(s, front, id) +
      if x.id == id && x.FillTouch? && x.tradeStatus.Mined? && !At(Run(s, front).book, id).finalized
      then [Attempt(x.tradeID, x.detail.size)] else []
  }

  /** The first delivery of its trade; unnamed trades cannot be told apart. */
  predicate FirstSeen(a: seq<Attempt>, i: nat)
    requires i < |a|
  {
    a[i].tradeID == "" || forall j :: 0 <= j < i ==> a[j].tradeID != a[i].tradeID
  }

  /** What should be booked: first deliveries of more than EPS, each once. */
  function Deserved(a: seq<Attempt>): real {
    if a == [] then 0.0
    else Deserved(a[..|a| - 1]) + if FirstSeen(a, |a| - 1) && a[|a| - 1].size > EPS then a[|a| - 1].size else 0.0
  }

  /** What has been published as filled for order `id`. */
  function Published(out: seq<ExecutionEvent>, id: string): real {
    if out == [] then 0.0
    else
      Published(out[..|out| - 1], id)
      + if out[|out| - 1].orderID == id && out[|out| - 1].IsFill() then out[|out| - 1].filledSize else 0.0
  }

  lemma PublishedSnoc(out: seq<ExecutionEvent>, ev: ExecutionEvent, id: string)
    ensures Published(out + [ev], id)
         == Published(out, id) + if ev.orderID == id && ev.IsFill() then ev.filledSize else 0.0
  {
    assert (out + [ev])[..|out|] == out;
  }

  ghost predicate Delivered(a: seq<Attempt>, tradeID: string) {
    exists j :: 0 <= j < |a| && a[j].tradeID == tradeID
  }

  lemma DeservedSnoc(a: seq<Attempt>, x: Attempt)
    ensures Deserved(a + [x])
         == Deserved(a) + if x.size > EPS && (x.tradeID == "" || !Delivered(a, x.tradeID)) then x.size else 0.0
  {
    assert (a + [x])[..|a|] == a;
    assert FirstSeen(a + [x], |a|) <==> (x.tradeID == "" || !Delivered(a, x.tradeID)) by {
      assert forall j :: 0 <= j < |a| ==> (a + [x])[j] == a[j];
    }
  }

  ghost predicate SeenIs(t: Tracked, a: seq<Attempt>) {
    forall tid :: tid in t.seen <==> tid != "" && Delivered(a, tid)
  }

  ghost predicate OnceOnly(s: Tracker, a: seq<Attempt>, id: string) {
    var t := At(s.book, id);
    && t.filled >= 0.0 && t.filled == Deserved(a) == Published(s.out, id) && SeenIs(t, a)
  }

  /** A fill by a positive amount raises the total by exactly that amount. */
  lemma FillByDeltaExact(id: string, t: Tracked, delta: real)
    requires t.filled >= 0.0
    ensures var r := FillByDelta(id, t, delta);
            && r.order.filled == t.filled + (if delta > EPS then delta else 0.0)
            && r.order.seen == t.seen && |r.out| <= 1
            && Published(r.out, id) == r.order.filled - t.filled
            && (r.out != [] ==> r.out[0].orderID == id && r.out[0].IsFill())
  {
    var r := FillByDelta(id, t, delta);
    if r.out != [] {
      assert r.out == [r.out[0]];
      PublishedSingle(r.out[0], id);
    }
  }

  lemma PublishedSingle(ev: ExecutionEvent, id: string)
    ensures Published([ev], id) == if ev.orderID == id && ev.IsFill() then ev.filledSize else 0.0
  {
    assert [ev][..0] == [];
  }

  lemma PublishedAppend(out: seq<ExecutionEvent>, more: seq<ExecutionEvent>, id: string)
    requires |more| <= 1
    ensures Published(out + more, id) == Published(out, id) + Published(more, id)
  {
    if more == [] {
      assert out + more == out;
    } else {
      assert more == [more[0]];
      PublishedSnoc(out, more[0], id);
      PublishedSingle(more[0], id);
    }
  }

  lemma SeenSnoc(t: Tracked, a: seq<Attempt>, x: Attempt)
    requires SeenIs(t, a)
    ensures SeenIs(if x.tradeID == "" then t else t.(seen := t.seen + {x.tradeID}), a + [x])
    ensures x.tradeID in t.seen ==> SeenIs(t, a + [x])
  {
    forall tid: string ensures Delivered(a + [x], tid) <==> tid == x.tradeID || Delivered(a, tid) {
      assert (a + [x])[|a|] == x;
      assert forall j :: 0 <= j < |a| ==> (a + [x])[j] == a[j];
    }
  }

  /** One delivered MINED fill of an order that is not finalized. */
  lemma MinedOnce(t: Tracked, a: seq<Attempt>, x: Touch)
    requires x.FillTouch? && x.tradeStatus.Mined? && !t.finalized
    requires t.filled == Deserved(a) >= 0.0 && SeenIs(t, a)
    ensures var r := Apply(t, x);
            var a' := a + [Attempt(x.tradeID, x.detail.size)];
            && r.order.filled == Deserved(a') >= 0.0 && SeenIs(r.order, a')
            && |r.out| <= 1 && Published(r.out, x.id) == r.order.filled - t.filled
  {
    hide FillByDelta, Deserved, Delivered;
    var t1 := Describe(t, x.detail);
    assert t1.seen == t.seen && t1.filled == t.filled;
    DeservedSnoc(a, Attempt(x.tradeID, x.detail.size));
    SeenSnoc(t1, a, Attempt(x.tradeID, x.detail.size));
    FillByDeltaExact(x.id, if x.tradeID != "" then t1.(seen := t1.seen + {x.tradeID}) else t1, x.detail.size);
  }

  /** Any other touch books nothing. */
  lemma OtherwiseNothing(t: Tracked, x: Touch)
    requires !(x.FillTouch? && x.tradeStatus.Mined? && !t.finalized)
    ensures var r := Apply(t, x);
            r.order.filled == t.filled && r.order.seen == t.seen && |r.out| <= 1 && Published(r.out, x.id) == 0.0
  {
    var r := Apply(t, x);
    if r.out != [] {
      assert r.out == [r.out[0]];
      PublishedSingle(r.out[0], x.id);
    }
  }

  lemma TouchOnce(s: Tracker, a: seq<Attempt>, id: string, x: Touch)
    requires OnceOnly(s, a, id) && x.id == id
    ensures var more := if x.FillTouch? && x.tradeStatus.Mined? && !At(s.book, id).finalized
                        then [Attempt(x.tradeID, x.detail.size)] else [];
            OnceOnly(Step(s, x), a + more, id)
  {
    hide Apply, Published, Deserved;
    var t := At(s.book, id);
    if x.FillTouch? && x.tradeStatus.Mined? && !t.finalized {
      MinedOnce(t, a, x);
    } else {
      OtherwiseNothing(t, x);
      assert a + [] == a;
    }
    PublishedAppend(s.out, Apply(t, x).out, id);
  }

  /** A touch of another order leaves this one alone. */
  lemma TouchElsewhere(s: Tracker, x: Touch, id: string)
    requires x.id != id
    ensures At(Step(s, x).book, id) == At(s.book, id)
    ensures Published(Step(s, x).out, id) == Published(s.out, id)
  {
    var r := Apply(At(s.book, x.id), x);
    if r.out == [] {
      assert s.out + r.out == s.out;
    } else {
      assert r.out == [r.out[0]] && r.out[0].orderID == x.id;
      PublishedSnoc(s.out, r.out[0], id);
    }
  }

  /** At-least-once delivery, exactly-once booking: in every run from an empty tracker, the sum of
      the fills published for an order, its tracked filled size, and the sum of the first
      deliveries before it was finalized are the same amount. */
  lemma {:induction false} ExactlyOnce(xs: seq<Touch>, id: string)
    ensures var s := Run(Tracker(map[], []), xs);
            OnceOnly(s, Attempts(Tracker(map[], []), xs, id), id)
    decreases |xs|
  {
    if xs == [] {
    } else {
      var front, x := xs[..|xs| - 1], xs[|xs| - 1];
      ExactlyOnce(front, id);
      var s := Run(Tracker(map[], []), front);
      if x.id == id {
        TouchOnce(s, Attempts(Tracker(map[], []), front, id), id, x);
      } else {
        TouchElsewhere(s, x, id);
        assert Attempts(Tracker(map[], []), front, id) + [] == Attempts(Tracker(map[], []), front, id);
      }
    }
  }

  // ---------------------------------------------------------------- one terminal event

  predicate Terminal(ev: ExecutionEvent) {
    ev.status.Filled? || ev.status.Cancelled? || ev.status.Rejected?
  }

  ghost predicate Ended(out: seq<ExecutionEvent>, id: string) {
    exists i :: 0 <= i < |out| && out[i].orderID == id && Terminal(out[i])
  }

  /** At most one terminal event, and neither fill nor terminal event after it; it has been
      published exactly if the order is finalized. */
  ghost predicate EndsOnce(s: Tracker, id: string) {
    && (forall i, j :: 0 <= i < j < |s.out| && s.out[i].orderID == id && s.out[j].orderID == id && Terminal(s.out[i])
          ==> !Terminal(s.out[j]) && !s.out[j].IsFill())
    && (At(s.book, id).finalized <==> Ended(s.out, id))
  }

  lemma EndedSnoc(out: seq<ExecutionEvent>, ev: ExecutionEvent, id: string)
    ensures Ended(out + [ev], id) <==> Ended(out, id) || (ev.orderID == id && Terminal(ev))
  {
    assert (out + [ev])[|out|] == ev;
    assert forall i :: 0 <= i < |out| ==> (out + [ev])[i] == out[i];
  }

  lemma ApplyEnds(t: Tracked, x: Touch)
    ensures var r := Apply(t, x);
            && |r.out| <= 1 && (r.out != [] ==> r.out[0].orderID == x.id)
            && (t.finalized ==> r.order.finalized && (r.out != [] ==> !Terminal(r.out[0]) && !r.out[0].IsFill()))
            && (!t.finalized ==> (r.order.finalized <==> r.out != [] && Terminal(r.out[0])))
  {
  }

  lemma EndsOnceSnoc(s: Tracker, id: string, x: Touch)
    requires EndsOnce(s, id)
    ensures EndsOnce(Step(s, x), id)
  {
    var r := Apply(At(s.book, x.id), x);
    var s' := Step(s, x);
    ApplyEnds(At(s.book, x.id), x);
    hide Apply;
    if r.out != [] {
      assert s'.out == s.out + [r.out[0]];
      EndedSnoc(s.out, r.out[0], id);
    } else {
      assert s'.out == s.out;
    }
  }

  lemma {:induction false} OneTerminal(xs: seq<Touch>, id: string)
    ensures EndsOnce(Run(Tracker(map[], []), xs), id)
    decreases |xs|
  {
    if xs == [] {
    } else {
      OneTerminal(xs[..|xs| - 1], id);
      EndsOnceSnoc(Run(Tracker(map[], []), xs[..|xs| - 1]), id, xs[|xs| - 1]);
    }
  }

  // ---------------------------------------------------------------- repeated trades

  /** The order will ignore trade `tradeID`. */
  predicate Deaf(t: Tracked, tradeID: string) {
    t.finalized || tradeID in t.seen
  }

  lemma DeafStays(t: Tracked, x: Touch, tradeID: string)
    requires Deaf(t, tradeID)
    ensures Deaf(Apply(t, x).order, tradeID)
  {
  }

  lemma {:induction false} DeafForever(s: Tracker, xs: seq<Touch>, id: string, tradeID: string)
    requires Deaf(At(s.book, id), tradeID)
    ensures Deaf(At(Run(s, xs).book, id), tradeID)
    decreases |xs|
  {
    if xs == [] {
    } else {
      var front := xs[..|xs| - 1];
      DeafForever(s, front, id, tradeID);
      DeafStays(At(Run(s, front).book, id), xs[|xs| - 1], tradeID);
    }
  }

  /** Everything about an order that decides what is booked. */
  predicate SameProgress(a: Tracked, b: Tracked) {
    a.filled == b.filled && a.finalized == b.finalized && a.seen == b.seen
    && a.requested == b.requested && a.accepted == b.accepted
  }

  lemma DeafTouch(t: Tracked, x: Touch)
    requires x.FillTouch? && x.tradeStatus.Mined? && x.tradeID != "" && Deaf(t, x.tradeID)
    ensures Apply(t, x).out == [] && SameProgress(Apply(t, x).order, t)
  {
  }

  lemma {:induction false} RepeatIgnored(s: Tracker, xs: seq<Touch>, tradeID: string)
    requires forall i :: 0 <= i < |xs| ==>
               xs[i].FillTouch? && xs[i].tradeStatus.Mined? && xs[i].tradeID == tradeID != ""
               && Deaf(At(s.book, xs[i].id), tradeID)
    ensures Run(s, xs).out == s.out
    ensures forall id :: SameProgress(At(Run(s, xs).book, id), At(s.book, id))
    decreases |xs|
  {
    if xs == [] {
    } else {
      var n := |xs| - 1;
      var front := xs[..n];
      assert forall i :: 0 <= i < n ==> front[i] == xs[i];
      RepeatIgnored(s, front, tradeID);
      hide Apply;
      var mid, x := Run(s, front), xs[n];
      assert SameProgress(At(mid.book, x.id), At(s.book, x.id));
      DeafTouch(At(mid.book, x.id), x);
      assert mid.out + [] == mid.out;
    }
  }

  lemma {:induction false} TradeDeafens(s: Tracker, xs: seq<Touch>, tradeID: string, k: nat)
    requires k < |xs|
    requires forall i :: 0 <= i < |xs| ==>
               xs[i].FillTouch? && xs[i].tradeStatus.Mined? && xs[i].tradeID == tradeID != ""
    ensures Deaf(At(Run(s, xs).book, xs[k].id), tradeID)
    decreases |xs|
  {
    var n := |xs| - 1;
    var front := xs[..n];
    assert forall i :: 0 <= i < n ==> front[i] == xs[i];
    if k < n {
      TradeDeafens(s, front, tradeID, k);
      DeafStays(At(Run(s, front).book, xs[k].id), xs[n], tradeID);
    }
  }

  lemma {:induction false} MakerTouchesUniform(key: string, ti: Trade, makers: seq<MakerOrder>)
    ensures forall i :: 0 <= i < |MakerTouches(key, ti, makers)| ==>
              var x := MakerTouches(key, ti, makers)[i];
              x.FillTouch? && x.tradeStatus == ti.status && x.tradeID == ti.id
  {
    if makers == [] {
    } else {
      MakerTouchesUniform(key, ti, makers[..|makers| - 1]);
    }
  }

  /** Delivering a named MINED trade again, at any later time, publishes nothing and books nothing. */
  lemma RedeliveryAddsNothing(s: Tracker, key: string, ti: Trade, between: seq<Touch>)
    requires ti.id != "" && ti.status.Mined?
    ensures var later := Run(Run(s, Touches(key, ti)), between);
            && Run(later, Touches(key, ti)).out == later.out
            && forall id :: SameProgress(At(Run(later, Touches(key, ti)).book, id), At(later.book, id))
  {
    var xs := Touches(key, ti);
    MakerTouchesUniform(key, ti, ti.makers);
    var once := Run(s, xs);
    forall k | 0 <= k < |xs| ensures Deaf(At(Run(once, between).book, xs[k].id), ti.id) {
      TradeDeafens(s, xs, ti.id, k);
      DeafForever(once, between, xs[k].id, ti.id);
    }
    RepeatIgnored(Run(once, between), xs, ti.id);
  }
}
