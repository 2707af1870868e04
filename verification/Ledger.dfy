/**
 The reservation ledger as a value: cash and token positions with an available and a reserved
 part, confirmed order reservations and provisional (intent) reservations. Every operation the
 program performs under the ledger's lock is a function on this value; `Step` and `Run` put them
 together into runs. The mutable ledger in module States is proved against these functions.
 */
module Ledgers {
  import opened Core

  datatype Balance = Balance(available: real, reserved: real, minBalance: real)

  datatype TokenPosition = TokenPosition(
    available: real, reserved: real, avgCost: real, avgCostKnown: bool, totalBought: real)

  /** `terms.size` is the size still open. */
  datatype Order = Order(orderID: string, terms: Terms, reserved: real, externalOrigin: bool)

  datatype Provisional = Provisional(
    intentID: string, terms: Terms, reserved: real, createdAt: int, expiresAt: int)

  datatype Ledger = Ledger(
    balance: Balance,
    tokens: map<string, TokenPosition>,
    orders: map<string, Order>,
    provisionals: map<string, Provisional>,
    dailyPnL: real,
    dailyDate: string)

  datatype Fault =
    | EmptyID | InvalidMarket | InvalidToken | InvalidSize | InvalidPrice | InvalidSide
    | IntentAlreadyReserved | OrderAlreadyReserved
    | InsufficientBalance | InsufficientPosition
    | ReservationNotFound | FillMarketTokenMismatch | FillSideMismatch
    | ReconcileFailed

  datatype Outcome = Done | Fail(fault: Fault)

  datatype Result = Result(ledger: Ledger, outcome: Outcome)

  const NO_POSITION := TokenPosition(0.0, 0.0, 0.0, false, 0.0)
  const SECOND := 1_000_000_000
  const DEFAULT_TTL := 5 * SECOND

  /** An absent token reads as the empty position. */
  function TokenAt(tokens: map<string, TokenPosition>, id: string): TokenPosition {
    if id in tokens then tokens[id] else NO_POSITION
  }

  function Collateral(t: Terms): real {
    RequiredCollateral(t.side, t.price, t.size)
  }

  function ValidateTerms(t: Terms): Outcome {
    if t.marketID == "" then Fail(InvalidMarket)
    else if t.tokenID == "" then Fail(InvalidToken)
    else if t.size <= 0.0 then Fail(InvalidSize)
    else if t.price <= 0.0 || t.price >= 1.0 then Fail(InvalidPrice)
    else if !Tradable(t.side) then Fail(InvalidSide)
    else Done
  }

  function ValidateOrder(orderID: string, t: Terms): Outcome {
    if orderID == "" then Fail(EmptyID) else ValidateTerms(t)
  }

  // ---------------------------------------------------------------- moving amounts

  /** Is there enough available, up to EPS, to set the collateral of `t` aside? */
  function Affordable(l: Ledger, t: Terms): Outcome {
    match t.side
    case BUY =>
      if l.balance.available + EPS < Collateral(t) then Fail(InsufficientBalance) else Done
    case SELL =>
      if TokenAt(l.tokens, t.tokenID).available + EPS < t.size then Fail(InsufficientPosition) else Done
    case OtherSide(_) => Done
  }

  /** Available to reserved. `floor` says whether a token's available amount is cut off at zero. */
  function Hold(l: Ledger, t: Terms, floor: bool): (r: Ledger)
    ensures r.orders == l.orders && r.provisionals == l.provisionals
  {
    match t.side
    case BUY =>
      var c := Collateral(t);
      l.(balance := l.balance.(available := l.balance.available - c, reserved := l.balance.reserved + c))
    case SELL =>
      var tp := TokenAt(l.tokens, t.tokenID);
      var left := tp.available - t.size;
      l.(tokens := l.tokens[t.tokenID :=
        tp.(available := if floor then NonNeg(left) else left, reserved := tp.reserved + t.size)])
    case OtherSide(_) => l
  }

  /** Reserved back to available; the reserved part is cut off at zero. */
  function Unhold(l: Ledger, side: Side, tokenID: string, amount: real): (r: Ledger)
    ensures r.orders == l.orders && r.provisionals == l.provisionals
  {
    match side
    case BUY =>
      l.(balance := l.balance.(available := l.balance.available + amount,
                               reserved := NonNeg(l.balance.reserved - amount)))
    case SELL =>
      var tp := TokenAt(l.tokens, tokenID);
      l.(tokens := l.tokens[tokenID :=
        tp.(available := tp.available + amount, reserved := NonNeg(tp.reserved - amount))])
    case OtherSide(_) => l
  }

  // ---------------------------------------------------------------- provisional reservations

  function TryReserve(l: Ledger, intentID: string, t: Terms, now: int, ttl: int): Result {
    if intentID == "" then Result(l, Fail(EmptyID))
    else if ValidateTerms(t).Fail? then Result(l, ValidateTerms(t))
    else if intentID in l.provisionals then Result(l, Fail(IntentAlreadyReserved))
    else if Affordable(l, t).Fail? then Result(l, Affordable(l, t))
    else
      var p := Provisional(intentID, t, Collateral(t), now, now + if ttl <= 0 then DEFAULT_TTL else ttl);
      Result(Hold(l, t, true).(provisionals := l.provisionals[intentID := p]), Done)
  }

  /** Deletes a provisional reservation and gives back what it held. */
  function Unprovision(l: Ledger, intentID: string): Ledger {
    if intentID !in l.provisionals then l
    else
      var p := l.provisionals[intentID];
      Unhold(l.(provisionals := l.provisionals - {intentID}), p.terms.side, p.terms.tokenID, p.reserved)
  }

  function DropProvisional(l: Ledger, intentID: string): Ledger {
    if intentID == "" then l else Unprovision(l, intentID)
  }

  /** Provisional reservations whose time is up. */
  function ExpiredAt(l: Ledger, now: int): set<string> {
    set k | k in l.provisionals && now >= l.provisionals[k].expiresAt
  }

  function Drops(ids: seq<string>): seq<Op> {
    seq(|ids|, i requires 0 <= i < |ids| => OpUnprovision(ids[i]))
  }

  /** The order reservation a provisional one turns into. */
  function Promote(orderID: string, p: Provisional): Order {
    Order(orderID, p.terms, p.reserved, false)
  }

  function Confirm(l: Ledger, intentID: string, orderID: string): Result {
    if intentID == "" || orderID == "" then Result(l, Fail(EmptyID))
    else if intentID !in l.provisionals then
      Result(l, if orderID in l.orders then Done else Fail(ReservationNotFound))
    else if orderID in l.orders then Result(DropProvisional(l, intentID), Done)
    else
      Result(l.(provisionals := l.provisionals - {intentID},
                orders := l.orders[orderID := Promote(orderID, l.provisionals[intentID])]), Done)
  }

  // ---------------------------------------------------------------- order reservations

  function Attach(l: Ledger, intentID: string, orderID: string, t: Terms): Result {
    if ValidateOrder(orderID, t).Fail? then Result(l, ValidateOrder(orderID, t))
    else if orderID in l.orders then Result(DropProvisional(l, intentID), Fail(OrderAlreadyReserved))
    else if intentID != "" && intentID in l.provisionals then
      Result(l.(provisionals := l.provisionals - {intentID},
                orders := l.orders[orderID := Promote(orderID, l.provisionals[intentID])]), Done)
    else if Affordable(l, t).Fail? then Result(l, Affordable(l, t))
    else
      Result(Hold(l, t, true).(orders := l.orders[orderID := Order(orderID, t, Collateral(t), false)]), Done)
  }

  function AttachExternal(l: Ledger, orderID: string, t: Terms): Result {
    if ValidateOrder(orderID, t).Fail? then Result(l, ValidateOrder(orderID, t))
    else if orderID in l.orders then Result(l, Done)
    else if Affordable(l, t).Fail? then Result(l, Affordable(l, t))
    else
      Result(Hold(l, t, false).(orders := l.orders[orderID := Order(orderID, t, Collateral(t), true)]), Done)
  }

  /** Deletes an order reservation and gives back what it held. */
  function Evict(l: Ledger, orderID: string): Ledger {
    if orderID !in l.orders then l
    else
      var o := l.orders[orderID];
      Unhold(l, o.terms.side, o.terms.tokenID, o.reserved).(orders := l.orders - {orderID})
  }

  // ---------------------------------------------------------------- fills

  datatype Fill = Fill(orderID: string, marketID: string, tokenID: string, side: Side, size: real, price: real)

  function FillOutcome(l: Ledger, f: Fill): Outcome {
    if f.orderID == "" then Fail(ReservationNotFound)
    else if f.size <= 0.0 then Fail(InvalidSize)
    else if !Tradable(f.side) then Fail(InvalidSide)
    else if f.orderID !in l.orders then Fail(ReservationNotFound)
    else
      var t := l.orders[f.orderID].terms;
      if t.marketID != f.marketID || t.tokenID != f.tokenID then Fail(FillMarketTokenMismatch)
      else if t.side != f.side then Fail(FillSideMismatch)
      else Done
  }

  /** A fill without a price is booked at the order's limit. */
  function FillPrice(o: Order, f: Fill): real {
    if f.price <= 0.0 then o.terms.price else f.price
  }

  /** What a fill takes out of the order's reservation. */
  function Consumed(o: Order, f: Fill): real {
    var c := RequiredCollateral(f.side, FillPrice(o, f), f.size);
    if c > o.reserved then o.reserved else c
  }

  function AfterFill(o: Order, f: Fill): Order {
    o.(terms := o.terms.(size := NonNeg(o.terms.size - f.size)),
       reserved := NonNeg(o.reserved - Consumed(o, f)))
  }

  function WeightedCost(avgCost: real, bought: real, price: real, size: real): real
    requires bought + size > 0.0
  {
    (avgCost * bought + price * size) / (bought + size)
  }

  function AverageIn(tp: TokenPosition, price: real, size: real): TokenPosition {
    var total := tp.totalBought + size;
    tp.(avgCost := if tp.totalBought <= 0.0 then price
                   else if total > 0.0 then WeightedCost(tp.avgCost, tp.totalBought, price, size)
                   else tp.avgCost,
        totalBought := total,
        avgCostKnown := true,
        available := tp.available + size)
  }

  function AddDailyPnL(l: Ledger, delta: real, today: string): Ledger {
    l.(dailyPnL := (if l.dailyDate != today then 0.0 else l.dailyPnL) + delta, dailyDate := today)
  }

  /** The effect of a fill on cash, position and daily profit, leaving the order aside. */
  function BookFill(l: Ledger, o: Order, f: Fill, today: string): (r: Ledger)
    ensures r.orders == l.orders && r.provisionals == l.provisionals
  {
    var price := FillPrice(o, f);
    var used := Consumed(o, f);
    var id := o.terms.tokenID;
    var tp := TokenAt(l.tokens, id);
    match f.side
    case BUY =>
      l.(balance := l.balance.(reserved := NonNeg(l.balance.reserved - used)),
         tokens := l.tokens[id := AverageIn(tp, price, f.size)])
    case SELL =>
      var l1 := if tp.avgCostKnown then AddDailyPnL(l, (price - tp.avgCost) * f.size, today) else l;
      l1.(balance := l.balance.(available := l.balance.available + price * f.size),
          tokens := l.tokens[id := tp.(reserved := NonNeg(tp.reserved - used))])
    case OtherSide(_) => l
  }

  function ApplyFill(l: Ledger, f: Fill, today: string): Result {
    if FillOutcome(l, f).Fail? then Result(l, FillOutcome(l, f))
    else
      var o := l.orders[f.orderID];
      var o' := AfterFill(o, f);
      Result(BookFill(l, o, f, today).(
               orders := if o'.terms.size <= EPS then l.orders - {f.orderID}
                         else l.orders[f.orderID := o']), Done)
  }

  // ---------------------------------------------------------------- the exchange's view

  /** An open order as the exchange reports it; its id has been trimmed. */
  datatype RemoteOrder = RemoteOrder(
    id: string, marketID: string, assetID: string, side: Side, price: real,
    originalSize: real, sizeMatched: real)
  {
    function Remaining(): real {
      NonNeg(originalSize - sizeMatched)
    }

    function AsTerms(): Terms {
      Terms(marketID, assetID, side, price, Remaining())
    }
  }

  function AttachRemote(l: Ledger, orderID: string, t: Terms): Result {
    if orderID == "" || t.marketID == "" || t.tokenID == "" || t.size <= 0.0 || t.price <= 0.0 || t.price >= 1.0
    then Result(l, Fail(ReconcileFailed))
    else if orderID in l.orders then Result(l, Done)
    else if !Tradable(t.side) then Result(l, Fail(ReconcileFailed))
    else
      Result(Hold(l, t, false).(orders := l.orders[orderID := Order(orderID, t, Collateral(t), true)]), Done)
  }

  /** Does the local reservation differ from the exchange's order by more than EPS? */
  predicate Drifted(o: Order, ro: RemoteOrder) {
    Abs(o.terms.size - ro.Remaining()) > EPS || Abs(o.terms.price - ro.price) > EPS
  }

  function Aligned(o: Order, ro: RemoteOrder): Order {
    if Drifted(o, ro) then o.(terms := o.terms.(size := ro.Remaining(), price := ro.price)) else o
  }

  function MergeOrder(l: Ledger, id: string, ro: RemoteOrder): Ledger {
    if ro.Remaining() <= 0.0 then l
    else if id !in l.orders then AttachRemote(l, id, ro.AsTerms()).ledger
    else l.(orders := l.orders[id := Aligned(l.orders[id], ro)])
  }

  /** Does the local holding differ from the exchange's size by more than EPS? */
  predicate OffSize(tp: TokenPosition, size: real) {
    Abs(tp.available + tp.reserved - size) > EPS
  }

  /** The local position of a token is moved to the exchange's size. */
  function MatchPosition(tp: TokenPosition, size: real): TokenPosition {
    if OffSize(tp, size)
    then tp.(available := NonNeg(tp.available + (size - (tp.available + tp.reserved))))
    else tp
  }

  function MatchToken(l: Ledger, id: string, size: real): Ledger {
    l.(tokens := l.tokens[id := if id in l.tokens then MatchPosition(l.tokens[id], size)
                                else NO_POSITION.(available := size)])
  }

  function DropToken(l: Ledger, id: string): Ledger {
    l.(tokens := l.tokens - {id})
  }

  /** The available cash implied by an on-chain total. */
  function OnchainAvailable(l: Ledger, total: real): real {
    NonNeg(NonNeg(total) - l.balance.reserved)
  }

  function SetOnchain(l: Ledger, total: real, epsilon: real): Ledger {
    if Abs(OnchainAvailable(l, total) - l.balance.available) <= NonNeg(epsilon) then l
    else l.(balance := l.balance.(available := OnchainAvailable(l, total)))
  }

  /** The start of a restore: balances and positions as given, no reservations. */
  function Reset(l: Ledger, balance: Balance, tokens: map<string, TokenPosition>): Ledger {
    l.(balance := balance, tokens := tokens, orders := map[], provisionals := map[])
  }

  predicate Loadable(o: Order) {
    o.orderID != "" && o.terms.size > 0.0
  }

  /** One restored order: stored and charged against its pool, without any check. */
  function LoadOrder(l: Ledger, r: Order): Ledger {
    if !Loadable(r) then l
    else
      var o := r.(reserved := NonNeg(r.reserved));
      var l1 := l.(orders := l.orders[o.orderID := o]);
      match o.terms.side
      case BUY =>
        l1.(balance := l.balance.(available := l.balance.available - o.reserved,
                                  reserved := l.balance.reserved + o.reserved))
      case SELL =>
        var tp := TokenAt(l.tokens, o.terms.tokenID);
        l1.(tokens := l.tokens[o.terms.tokenID :=
          tp.(available := tp.available - o.reserved, reserved := tp.reserved + o.reserved)])
      case OtherSide(_) => l1
  }

  // ---------------------------------------------------------------- runs

  datatype Op =
    | OpReserve(intentID: string, terms: Terms, now: int, ttl: int)
    | OpUnprovision(intentID: string)
    | OpConfirm(intentID: string, orderID: string)
    | OpAttach(intentID: string, orderID: string, terms: Terms)
    | OpAttachExternal(orderID: string, terms: Terms)
    | OpEvict(orderID: string)
    | OpFill(fill: Fill, today: string)
    | OpMergeOrder(id: string, remote: RemoteOrder)
    | OpMatchToken(tokenID: string, size: real)
    | OpDropToken(tokenID: string)
    | OpOnchain(total: real, epsilon: real)
    | OpReset(balance: Balance, tokens: map<string, TokenPosition>)
    | OpLoadOrder(order: Order)

  function Step(l: Ledger, op: Op): Ledger {
    match op
    case OpReserve(intentID, t, now, ttl) => TryReserve(l, intentID, t, now, ttl).ledger
    case OpUnprovision(intentID) => Unprovision(l, intentID)
    case OpConfirm(intentID, orderID) => Confirm(l, intentID, orderID).ledger
    case OpAttach(intentID, orderID, t) => Attach(l, intentID, orderID, t).ledger
    case OpAttachExternal(orderID, t) => AttachExternal(l, orderID, t).ledger
    case OpEvict(orderID) => Evict(l, orderID)
    case OpFill(f, today) => ApplyFill(l, f, today).ledger
    case OpMergeOrder(id, ro) => MergeOrder(l, id, ro)
    case OpMatchToken(id, size) => MatchToken(l, id, size)
    case OpDropToken(id) => DropToken(l, id)
    case OpOnchain(total, epsilon) => SetOnchain(l, total, epsilon)
    case OpReset(balance, tokens) => Reset(l, balance, tokens)
    case OpLoadOrder(r) => LoadOrder(l, r)
  }

  function Run(l: Ledger, ops: seq<Op>): Ledger
    decreases |ops|
  {
    if ops == [] then l else Run(Step(l, ops[0]), ops[1..])
  }

  lemma {:induction false} RunConcat(l: Ledger, a: seq<Op>, b: seq<Op>)
    ensures Run(l, a + b) == Run(Run(l, a), b)
    decreases |a|
  {
    if a == [] {
      assert a + b == b;
    } else {
      assert (a + b)[1..] == a[1..] + b;
      RunConcat(Step(l, a[0]), a[1..], b);
    }
  }

  lemma RunSnoc(l: Ledger, ops: seq<Op>, op: Op)
    ensures Run(l, ops + [op]) == Step(Run(l, ops), op)
  {
    RunConcat(l, ops, [op]);
    assert [op][1..] == [];
  }
}
