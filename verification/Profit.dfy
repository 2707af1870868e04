/**
 Cost basis and profit. The average cost of a token is the exact weighted average of its BUY
 fills, and daily profit minus the cost of what is held moves only with the value of fills, so
 realized plus unrealized profit is what came in plus what is held minus what was paid.
 */
module Profits {
  import opened Core
  import opened Ledgers
  import opened Books
  import opened Sums
  import opened Solvency
  import opened Reconcile

  // ---------------------------------------------------------------- average cost

  /** Successful BUY fills of token `t`. */
  predicate Buys(l: Ledger, op: Op, t: string) {
    op.OpFill? && FillOutcome(l, op.fill).Done? && op.fill.side.BUY? && op.fill.tokenID == t
  }

  function Spent(l: Ledger, op: Op, t: string): real {
    if Buys(l, op, t) then FillPrice(l.orders[op.fill.orderID], op.fill) * op.fill.size else 0.0
  }

  function Bought(l: Ledger, op: Op, t: string): real {
    if Buys(l, op, t) then op.fill.size else 0.0
  }

  ghost function BuyCost(l: Ledger, ops: seq<Op>, t: string): real
    decreases |ops|
  {
    if ops == [] then 0.0 else Spent(l, ops[0], t) + BuyCost(Step(l, ops[0]), ops[1..], t)
  }

  ghost function BuySize(l: Ledger, ops: seq<Op>, t: string): real
    decreases |ops|
  {
    if ops == [] then 0.0 else Bought(l, ops[0], t) + BuySize(Step(l, ops[0]), ops[1..], t)
  }

  /** All BUY fills of `t` in the run are priced between `lo` and `hi`. */
  ghost predicate PricedWithin(l: Ledger, ops: seq<Op>, t: string, lo: real, hi: real)
    decreases |ops|
  {
    ops != [] ==> BuyWithin(l, ops[0], t, lo, hi) && PricedWithin(Step(l, ops[0]), ops[1..], t, lo, hi)
  }

  predicate BuyWithin(l: Ledger, op: Op, t: string, lo: real, hi: real) {
    Buys(l, op, t) ==> lo <= FillPrice(l.orders[op.fill.orderID], op.fill) <= hi
  }

  predicate KeepsEntry(op: Op, t: string) {
    !op.OpReset? && !(op.OpDropToken? && op.tokenID == t)
  }

  lemma NonNegativeFactor(x: real, c: real)
    requires x * c >= 0.0 && c > 0.0
    ensures x >= 0.0
  {
  }

  lemma MeanAtLeast(w: real, avg: real, bought: real, price: real, size: real, lo: real)
    requires w * (bought + size) == avg * bought + price * size
    requires bought > 0.0 && size > 0.0 && lo <= price && lo <= avg
    ensures lo <= w
  {
    assert (avg - lo) * bought >= 0.0 && (price - lo) * size >= 0.0;
    assert (w - lo) * (bought + size) == (avg - lo) * bought + (price - lo) * size;
    NonNegativeFactor(w - lo, bought + size);
  }

  lemma MeanAtMost(w: real, avg: real, bought: real, price: real, size: real, hi: real)
    requires w * (bought + size) == avg * bought + price * size
    requires bought > 0.0 && size > 0.0 && price <= hi && avg <= hi
    ensures w <= hi
  {
    assert (hi - avg) * bought >= 0.0 && (hi - price) * size >= 0.0;
    assert (hi - w) * (bought + size) == (hi - avg) * bought + (hi - price) * size;
    NonNegativeFactor(hi - w, bought + size);
  }

  lemma QuotientTimes(n: real, d: real)
    requires d > 0.0
    ensures n / d * d == n
  {
  }

  lemma WeightedCostExact(avg: real, bought: real, price: real, size: real, lo: real, hi: real)
    requires bought > 0.0 && size > 0.0 && lo <= price <= hi && lo <= avg <= hi
    ensures WeightedCost(avg, bought, price, size) * (bought + size) == avg * bought + price * size
    ensures lo <= WeightedCost(avg, bought, price, size) <= hi
  {
    QuotientTimes(avg * bought + price * size, bought + size);
    MeanAtLeast(WeightedCost(avg, bought, price, size), avg, bought, price, size, lo);
    MeanAtMost(WeightedCost(avg, bought, price, size), avg, bought, price, size, hi);
  }

  lemma FillCostFrame(l: Ledger, op: Op, t: string)
    requires op.OpFill? && !Buys(l, op, t)
    ensures SameCost(TokenAt(Step(l, op).tokens, t), TokenAt(l.tokens, t))
  {
    hide FillPrice, Consumed, AfterFill, AverageIn;
    var l' := Step(l, op);
    assert l'.tokens == if FillOutcome(l, op.fill).Done?
                        then BookFill(l, l.orders[op.fill.orderID], op.fill, op.today).tokens else l.tokens;
  }

  /** Steps other than BUY fills of `t` leave its cost basis alone. */
  lemma CostFrame(l: Ledger, op: Op, t: string)
    requires KeepsEntry(op, t) && !Buys(l, op, t)
    ensures SameCost(TokenAt(Step(l, op).tokens, t), TokenAt(l.tokens, t))
  {
    hide ApplyFill, Affordable, Buys;
    if op.OpFill? { FillCostFrame(l, op, t); }
  }

  lemma BuyEffect(l: Ledger, op: Op, t: string)
    requires Buys(l, op, t)
    ensures var price := FillPrice(l.orders[op.fill.orderID], op.fill);
            Step(l, op).tokens == l.tokens[t := AverageIn(TokenAt(l.tokens, t), price, op.fill.size)]
    ensures Step(l, op).dailyPnL == l.dailyPnL && Step(l, op).dailyDate == l.dailyDate
  {
  }

  /** `size` units were bought for `cost` in all, each at a price between `lo` and `hi`. */
  ghost predicate CostOf(tp: TokenPosition, cost: real, size: real, lo: real, hi: real) {
    && tp.totalBought == size >= 0.0
    && tp.avgCost * tp.totalBought == cost
    && (tp.totalBought > 0.0 ==> lo <= tp.avgCost <= hi && tp.avgCostKnown)
  }

  lemma AverageInExact(tp: TokenPosition, price: real, more: real, cost: real, size: real, lo: real, hi: real)
    requires CostOf(tp, cost, size, lo, hi) && more > 0.0 && lo <= price <= hi
    ensures CostOf(AverageIn(tp, price, more), cost + price * more, size + more, lo, hi)
  {
    if tp.totalBought > 0.0 {
      WeightedCostExact(tp.avgCost, tp.totalBought, price, more, lo, hi);
    }
  }

  lemma StepCost(l: Ledger, op: Op, t: string, cost: real, size: real, lo: real, hi: real)
    requires CostOf(TokenAt(l.tokens, t), cost, size, lo, hi) && KeepsEntry(op, t) && BuyWithin(l, op, t, lo, hi)
    ensures CostOf(TokenAt(Step(l, op).tokens, t), cost + Spent(l, op, t), size + Bought(l, op, t), lo, hi)
  {
    hide Step, AverageIn;
    if Buys(l, op, t) {
      BuyEffect(l, op, t);
      AverageInExact(TokenAt(l.tokens, t), FillPrice(l.orders[op.fill.orderID], op.fill), op.fill.size, cost, size,
                     lo, hi);
    } else {
      CostFrame(l, op, t);
    }
  }

  lemma {:induction false} RunCost(l: Ledger, ops: seq<Op>, t: string, cost: real, size: real, lo: real, hi: real)
    requires CostOf(TokenAt(l.tokens, t), cost, size, lo, hi)
    requires forall i :: 0 <= i < |ops| ==> KeepsEntry(ops[i], t)
    requires PricedWithin(l, ops, t, lo, hi)
    ensures CostOf(TokenAt(Run(l, ops).tokens, t), cost + BuyCost(l, ops, t), size + BuySize(l, ops, t), lo, hi)
    decreases |ops|
  {
    if ops == [] {
    } else {
      StepCost(l, ops[0], t, cost, size, lo, hi);
      RunCost(Step(l, ops[0]), ops[1..], t, cost + Spent(l, ops[0], t), size + Bought(l, ops[0], t), lo, hi);
    }
  }

  /** From a token never bought before: average cost times size bought is exactly what the BUY fills
      cost, and the average lies between the cheapest and the dearest fill. */
  lemma CostBasisExact(l: Ledger, ops: seq<Op>, t: string, lo: real, hi: real)
    requires TokenAt(l.tokens, t).totalBought == 0.0
    requires forall i :: 0 <= i < |ops| ==> KeepsEntry(ops[i], t)
    requires PricedWithin(l, ops, t, lo, hi)
    ensures var tp := TokenAt(Run(l, ops).tokens, t);
            CostOf(tp, BuyCost(l, ops, t), BuySize(l, ops, t), lo, hi)
  {
    assert CostOf(TokenAt(l.tokens, t), 0.0, 0.0, lo, hi);
    hide CostOf, PricedWithin, Run, BuyCost, BuySize;
    RunCost(l, ops, t, 0.0, 0.0, lo, hi);
  }

  // ---------------------------------------------------------------- realized and unrealized profit

  function Held(tp: TokenPosition): real {
    tp.available + tp.reserved
  }

  function HeldCost(): (string, TokenPosition) -> real {
    (_: string, tp: TokenPosition) => tp.avgCost * Held(tp)
  }

  /** Daily profit minus the cost of everything held. */
  ghost function Book(l: Ledger): real {
    l.dailyPnL - Sum(l.tokens, HeldCost())
  }

  ghost predicate TokensBalanced(l: Ledger) {
    forall t :: Balanced(l, Token(t))
  }

  /** Trading without corrections: BUY fills of a token come before its SELL fills, SELL fills stay
      within the reservation and within the day, and no reservation uses the EPS of slack. */
  predicate Plain(l: Ledger, op: Op) {
    match op
    case OpFill(f, today) =>
      FillOutcome(l, f).Done? ==>
        var tp := TokenAt(l.tokens, f.tokenID);
        if f.side.BUY? then Held(tp) == tp.totalBought >= 0.0
        else tp.avgCostKnown && Consumed(l.orders[f.orderID], f) == f.size
             && (l.dailyDate != today ==> l.dailyPnL == 0.0)
    case OpReserve(_, t, _, _) => Flow(l, op, Token(t.tokenID)) == 0.0
    case OpAttach(_, _, t) => Flow(l, op, Token(t.tokenID)) == 0.0
    case OpMatchToken(_, _) => false
    case OpDropToken(_) => false
    case OpReset(_, _) => false
    case OpLoadOrder(_) => false
    case _ => true
  }

  ghost predicate PlainRun(l: Ledger, ops: seq<Op>)
    decreases |ops|
  {
    ops != [] ==> Plain(l, ops[0]) && PlainRun(Step(l, ops[0]), ops[1..])
  }

  lemma NoFlow(l: Ledger, op: Op, t: string)
    requires Plain(l, op) && !op.OpFill?
    ensures Flow(l, op, Token(t)) == 0.0
  {
  }

  lemma CostFrameOf(l: Ledger, op: Op, t: string)
    requires Plain(l, op) && !op.OpFill?
    ensures SameCost(TokenAt(Step(l, op).tokens, t), TokenAt(l.tokens, t))
  {
    assert KeepsEntry(op, t);
    hide Step, Plain;
    CostFrame(l, op, t);
  }

  lemma HoldingUnchanged(l: Ledger, op: Op, t: string)
    requires Balanced(l, Token(t)) && Plain(l, op) && !op.OpFill?
    ensures SameCost(TokenAt(Step(l, op).tokens, t), TokenAt(l.tokens, t))
    ensures Held(TokenAt(Step(l, op).tokens, t)) == Held(TokenAt(l.tokens, t))
  {
    hide Balanced, Accounted, Flow, Step, Admissible, Plain, Held, Total, TokenAt;
    NoFlow(l, op, t);
    CostFrameOf(l, op, t);
    PlainAdmissible(l, op, Token(t));
    StepTotal(l, op, Token(t));
    HeldIsTotal(l, t);
    HeldIsTotal(Step(l, op), t);
  }

  lemma HeldIsTotal(l: Ledger, t: string)
    ensures Held(TokenAt(l.tokens, t)) == Total(l, Token(t))
  {
    assert Total(l, Token(t)) == Available(l, Token(t)) + Reserved(l, Token(t));
    hide Total;
    assert Available(l, Token(t)) == TokenAt(l.tokens, t).available;
    assert Reserved(l, Token(t)) == TokenAt(l.tokens, t).reserved;
    hide Available, Reserved, TokenAt;
  }

  lemma PlainAdmissible(l: Ledger, op: Op, p: Pool)
    requires Plain(l, op)
    ensures Admissible(l, op, p)
  {
  }

  lemma SameHoldingsSameCost(a: map<string, TokenPosition>, b: map<string, TokenPosition>)
    requires forall t :: TokenAt(a, t).avgCost == TokenAt(b, t).avgCost && Held(TokenAt(a, t)) == Held(TokenAt(b, t))
    ensures Sum(a, HeldCost()) == Sum(b, HeldCost())
  {
    forall t | t in a ensures HeldCost()(t, a[t]) == Term(b, HeldCost(), t) {
      assert TokenAt(a, t) == a[t];
    }
    forall t | t in b ensures HeldCost()(t, b[t]) == Term(a, HeldCost(), t) {
      assert TokenAt(b, t) == b[t];
    }
    SumAgree(a, b, HeldCost());
  }

  lemma DailyUnchanged(l: Ledger, op: Op)
    requires !op.OpFill?
    ensures Step(l, op).dailyPnL == l.dailyPnL && Step(l, op).dailyDate == l.dailyDate
  {
  }

  lemma QuietStepKeepsBook(l: Ledger, op: Op)
    requires TokensBalanced(l) && Plain(l, op) && !op.OpFill?
    ensures Book(Step(l, op)) == Book(l)
  {
    var a := Step(l, op).tokens;
    forall t
      ensures TokenAt(a, t).avgCost == TokenAt(l.tokens, t).avgCost
      ensures Held(TokenAt(a, t)) == Held(TokenAt(l.tokens, t))
    {
      assert Balanced(l, Token(t));
      HoldingUnchanged(l, op, t);
    }
    SameHoldingsSameCost(a, l.tokens);
    DailyUnchanged(l, op);
  }

  lemma BuyBooked(tp: TokenPosition, price: real, size: real)
    requires Held(tp) == tp.totalBought >= 0.0 && size > 0.0
    ensures AverageIn(tp, price, size).avgCost * Held(AverageIn(tp, price, size))
              == tp.avgCost * Held(tp) + price * size
  {
    if tp.totalBought > 0.0 {
      var lo := if price < tp.avgCost then price else tp.avgCost;
      var hi := if price < tp.avgCost then tp.avgCost else price;
      WeightedCostExact(tp.avgCost, tp.totalBought, price, size, lo, hi);
    }
  }

  lemma HeldCostOfWrite(tokens: map<string, TokenPosition>, t: string, tp: TokenPosition)
    ensures Sum(tokens[t := tp], HeldCost())
         == Sum(tokens, HeldCost()) + tp.avgCost * Held(tp) - TokenAt(tokens, t).avgCost * Held(TokenAt(tokens, t))
  {
    SumUpdate(tokens, HeldCost(), t, tp);
  }

  lemma Distribute(a: real, b: real, c: real)
    ensures a * (b - c) == a * b - a * c
  {
  }

  /** Rewriting one position moves the book by the change in daily profit and in held cost. */
  lemma BookShift(l: Ledger, l': Ledger, t: string, tp: TokenPosition, cost: real, gain: real)
    requires l'.tokens == l.tokens[t := tp] && l'.dailyPnL == l.dailyPnL + gain
    requires tp.avgCost * Held(tp) == TokenAt(l.tokens, t).avgCost * Held(TokenAt(l.tokens, t)) + cost
    ensures Book(l') == Book(l) + gain - cost
  {
    HeldCostOfWrite(l.tokens, t, tp);
  }

  lemma BuyOutcome(l: Ledger, op: Op) returns (tp: TokenPosition)
    requires Plain(l, op) && op.OpFill? && Buys(l, op, op.fill.tokenID)
    ensures Step(l, op).tokens == l.tokens[op.fill.tokenID := tp] && Step(l, op).dailyPnL == l.dailyPnL
    ensures var before := TokenAt(l.tokens, op.fill.tokenID);
            tp.avgCost * Held(tp) == before.avgCost * Held(before) + Spent(l, op, op.fill.tokenID)
  {
    hide Held, AverageIn;
    var f := op.fill;
    var price := FillPrice(l.orders[f.orderID], f);
    tp := AverageIn(TokenAt(l.tokens, f.tokenID), price, f.size);
    BuyEffect(l, op, f.tokenID);
    BuyBooked(TokenAt(l.tokens, f.tokenID), price, f.size);
  }

  /** What a SELL fill within its reservation does to the position and to the daily profit. */
  lemma SellEffect(l: Ledger, op: Op)
    requires TokensBalanced(l) && Plain(l, op) && op.OpFill? && FillOutcome(l, op.fill).Done? && op.fill.side.SELL?
    ensures var tp := TokenAt(l.tokens, op.fill.tokenID);
            var l' := Step(l, op);
            && l'.tokens == l.tokens[op.fill.tokenID := tp.(reserved := tp.reserved - op.fill.size)]
            && l'.dailyPnL == l.dailyPnL + (FillPrice(l.orders[op.fill.orderID], op.fill) - tp.avgCost) * op.fill.size
            && l'.dailyDate == op.today
  {
    hide AfterFill, Balanced, FillPrice;
    var p := Token(op.fill.tokenID);
    assert Balanced(l, p);
    ReservationsCovered(l, p);
    var o := l.orders[op.fill.orderID];
    assert Claim(o.terms, o.reserved, p) <= Reserved(l, p);
    assert Step(l, op).tokens == BookFill(l, o, op.fill, op.today).tokens;
  }

  lemma SellMovesBook(l: Ledger, op: Op)
    requires TokensBalanced(l) && Plain(l, op) && op.OpFill? && FillOutcome(l, op.fill).Done? && op.fill.side.SELL?
    ensures Book(Step(l, op)) == Book(l) + FillValue(l, op)
  {
    var f := op.fill;
    var tp, price := TokenAt(l.tokens, f.tokenID), FillPrice(l.orders[f.orderID], f);
    SellEffect(l, op);
    Distribute(tp.avgCost, Held(tp), f.size);
    Distribute(f.size, price, tp.avgCost);
    BookShift(l, Step(l, op), f.tokenID, tp.(reserved := tp.reserved - f.size), -(tp.avgCost * f.size),
              (price - tp.avgCost) * f.size);
  }

  lemma FillMovesBook(l: Ledger, op: Op)
    requires TokensBalanced(l) && Plain(l, op) && op.OpFill?
    ensures Book(Step(l, op)) == Book(l) + FillValue(l, op)
  {
    hide Held, Book;
    if FillOutcome(l, op.fill).Done? {
      if op.fill.side.BUY? {
        var tp := BuyOutcome(l, op);
        BookShift(l, Step(l, op), op.fill.tokenID, tp, Spent(l, op, op.fill.tokenID), 0.0);
      } else {
        SellMovesBook(l, op);
      }
    }
  }

  lemma PlainKeepsTokensBalanced(l: Ledger, op: Op)
    requires TokensBalanced(l) && Plain(l, op)
    ensures TokensBalanced(Step(l, op))
  {
    forall t ensures Balanced(Step(l, op), Token(t)) {
      assert Balanced(l, Token(t));
      PlainAdmissible(l, op, Token(t));
      StepAccounted(l, op, Token(t));
    }
  }

  /** Over every plain run, daily profit minus held cost moves exactly with the value of the fills. */
  lemma {:induction false} RunMovesBook(l: Ledger, ops: seq<Op>)
    requires TokensBalanced(l) && PlainRun(l, ops)
    ensures Book(Run(l, ops)) == Book(l) + TotalFillValue(l, ops)
    decreases |ops|
  {
    if ops == [] {
    } else {
      if ops[0].OpFill? {
        FillMovesBook(l, ops[0]);
      } else {
        QuietStepKeepsBook(l, ops[0]);
      }
      PlainKeepsTokensBalanced(l, ops[0]);
      RunMovesBook(Step(l, ops[0]), ops[1..]);
    }
  }

  // ---------------------------------------------------------------- one day, buys before sells

  /** Tokens sold so far. */
  function SoldAfter(l: Ledger, op: Op, sold: set<string>): set<string> {
    if op.OpFill? && FillOutcome(l, op.fill).Done? && op.fill.side.SELL? then sold + {op.fill.tokenID} else sold
  }

  /** A step of an ordinary trading day: no token is bought after it has been sold, SELL fills have a
      known cost and stay within their reservation, no reservation uses the EPS of slack, and
      nothing is corrected or restored. */
  predicate Regular(l: Ledger, op: Op, day: string, sold: set<string>) {
    match op
    case OpFill(f, today) =>
      && today == day
      && (FillOutcome(l, f).Done? ==>
            if f.side.BUY? then f.tokenID !in sold
            else TokenAt(l.tokens, f.tokenID).avgCostKnown && Consumed(l.orders[f.orderID], f) == f.size)
    case _ => Plain(l, op)
  }

  ghost predicate RegularRun(l: Ledger, ops: seq<Op>, day: string, sold: set<string>)
    decreases |ops|
  {
    ops != [] ==>
      && Regular(l, ops[0], day, sold)
      && RegularRun(Step(l, ops[0]), ops[1..], day, SoldAfter(l, ops[0], sold))
  }

  /** What has been bought of an unsold token is still held, and no profit of another day is booked. */
  ghost predicate Unsold(l: Ledger, day: string, sold: set<string>) {
    && (forall t :: t !in sold ==> var tp := TokenAt(l.tokens, t); Held(tp) == tp.totalBought >= 0.0)
    && (l.dailyDate == day || l.dailyPnL == 0.0)
  }

  lemma RegularIsPlain(l: Ledger, op: Op, day: string, sold: set<string>)
    requires Unsold(l, day, sold) && Regular(l, op, day, sold)
    ensures Plain(l, op)
  {
    hide Held, FillOutcome, Consumed;
  }

  lemma QuietKeepsUnsold(l: Ledger, op: Op, day: string, sold: set<string>)
    requires TokensBalanced(l) && Unsold(l, day, sold) && Plain(l, op) && !op.OpFill?
    ensures Unsold(Step(l, op), day, sold)
  {
    hide Step, Held, Plain;
    DailyUnchanged(l, op);
    forall t | t !in sold
      ensures var tp := TokenAt(Step(l, op).tokens, t); Held(tp) == tp.totalBought >= 0.0
    {
      assert Balanced(l, Token(t));
      HoldingUnchanged(l, op, t);
    }
  }

  lemma AverageInHolds(tp: TokenPosition, price: real, size: real)
    ensures Held(AverageIn(tp, price, size)) == Held(tp) + size
    ensures AverageIn(tp, price, size).totalBought == tp.totalBought + size
  {
    hide WeightedCost;
  }

  lemma WriteKeepsUnsold(l: Ledger, l': Ledger, t: string, tp: TokenPosition, day: string, sold: set<string>)
    requires Unsold(l, day, sold) && l'.tokens == l.tokens[t := tp]
    requires t in sold || Held(tp) == tp.totalBought >= 0.0
    requires l'.dailyDate == day || (l'.dailyPnL == l.dailyPnL && l'.dailyDate == l.dailyDate)
    ensures Unsold(l', day, sold)
  {
    hide Held;
    forall k | k !in sold ensures var x := TokenAt(l'.tokens, k); Held(x) == x.totalBought >= 0.0 {
      assert k != t ==> TokenAt(l'.tokens, k) == TokenAt(l.tokens, k);
    }
  }

  lemma SellTokens(l: Ledger, op: Op) returns (tp: TokenPosition)
    requires TokensBalanced(l) && Plain(l, op) && op.OpFill? && FillOutcome(l, op.fill).Done? && op.fill.side.SELL?
    ensures Step(l, op).tokens == l.tokens[op.fill.tokenID := tp] && Step(l, op).dailyDate == op.today
  {
    SellEffect(l, op);
    hide Step, FillOutcome, Plain, TokensBalanced;
    tp := TokenAt(l.tokens, op.fill.tokenID);
    tp := tp.(reserved := tp.reserved - op.fill.size);
  }

  lemma BuyTokens(l: Ledger, op: Op, t: string) returns (tp: TokenPosition)
    requires Buys(l, op, t)
    ensures Step(l, op).tokens == l.tokens[t := tp]
    ensures Step(l, op).dailyPnL == l.dailyPnL && Step(l, op).dailyDate == l.dailyDate
    ensures Held(tp) == Held(TokenAt(l.tokens, t)) + op.fill.size
    ensures tp.totalBought == TokenAt(l.tokens, t).totalBought + op.fill.size && op.fill.size > 0.0
  {
    BuyEffect(l, op, t);
    hide Step, AverageIn, Held;
    tp := AverageIn(TokenAt(l.tokens, t), FillPrice(l.orders[op.fill.orderID], op.fill), op.fill.size);
    AverageInHolds(TokenAt(l.tokens, t), FillPrice(l.orders[op.fill.orderID], op.fill), op.fill.size);
  }

  lemma BuyKeepsUnsold(l: Ledger, op: Op, day: string, sold: set<string>)
    requires Unsold(l, day, sold) && op.OpFill? && Buys(l, op, op.fill.tokenID) && op.fill.tokenID !in sold
    ensures Unsold(Step(l, op), day, sold)
  {
    hide Step, Held, Buys;
    var tp := BuyTokens(l, op, op.fill.tokenID);
    WriteKeepsUnsold(l, Step(l, op), op.fill.tokenID, tp, day, sold);
  }

  lemma SellKeepsUnsold(l: Ledger, op: Op, day: string, sold: set<string>)
    requires TokensBalanced(l) && Plain(l, op) && op.OpFill? && FillOutcome(l, op.fill).Done? && op.fill.side.SELL?
    requires Unsold(l, day, sold) && op.today == day
    ensures Unsold(Step(l, op), day, sold + {op.fill.tokenID})
  {
    hide Step, Held, Plain, FillOutcome, TokensBalanced;
    var tp := SellTokens(l, op);
    WriteKeepsUnsold(l, Step(l, op), op.fill.tokenID, tp, day, sold + {op.fill.tokenID});
  }

  lemma FillKeepsUnsold(l: Ledger, op: Op, day: string, sold: set<string>)
    requires TokensBalanced(l) && Unsold(l, day, sold) && Regular(l, op, day, sold) && op.OpFill?
    ensures Unsold(Step(l, op), day, SoldAfter(l, op, sold))
  {
    hide Held, Plain, Consumed, TokensBalanced, Unsold, BookFill, AfterFill;
    RegularIsPlain(l, op, day, sold);
    if Buys(l, op, op.fill.tokenID) {
      BuyKeepsUnsold(l, op, day, sold);
    } else if FillOutcome(l, op.fill).Done? {
      SellKeepsUnsold(l, op, day, sold);
    }
  }

  lemma {:induction false} RegularRunIsPlain(l: Ledger, ops: seq<Op>, day: string, sold: set<string>)
    requires TokensBalanced(l) && Unsold(l, day, sold) && RegularRun(l, ops, day, sold)
    ensures PlainRun(l, ops)
    decreases |ops|
  {
    if ops == [] {
    } else {
      var op := ops[0];
      RegularIsPlain(l, op, day, sold);
      PlainKeepsTokensBalanced(l, op);
      if op.OpFill? { FillKeepsUnsold(l, op, day, sold); } else { QuietKeepsUnsold(l, op, day, sold); }
      hide Step, Plain, Regular, Unsold, TokensBalanced;
      RegularRunIsPlain(Step(l, op), ops[1..], day, SoldAfter(l, op, sold));
    }
  }

  /** Mark-to-market gain of one position; unknown costs and unpriced tokens are skipped. */
  function Gain(mids: map<string, real>): (string, TokenPosition) -> real {
    (t: string, tp: TokenPosition) =>
      if tp.avgCostKnown && t in mids && tp.available > 0.0 then (mids[t] - tp.avgCost) * tp.available else 0.0
  }

  function MidValue(mids: map<string, real>): (string, TokenPosition) -> real {
    (t: string, tp: TokenPosition) => if t in mids then mids[t] * tp.available else 0.0
  }

  ghost function UnrealizedPnL(l: Ledger, mids: map<string, real>): real {
    Sum(l.tokens, Gain(mids))
  }

  /** A position counts with the gain of its available part over its cost, if the cost is known, there
      is a price and something is available; otherwise it does not count at all. */
  lemma UnrealizedOf(l: Ledger, mids: map<string, real>, t: string, tp: TokenPosition)
    ensures UnrealizedPnL(l.(tokens := l.tokens[t := tp]), mids)
         == UnrealizedPnL(l.(tokens := l.tokens - {t}), mids)
            + if tp.avgCostKnown && t in mids && tp.available > 0.0 then (mids[t] - tp.avgCost) * tp.available else 0.0
  {
    assert Gain(mids)(t, tp)
        == if tp.avgCostKnown && t in mids && tp.available > 0.0 then (mids[t] - tp.avgCost) * tp.available else 0.0;
    hide Gain, Sum;
    SumUpdate(l.tokens, Gain(mids), t, tp);
    SumDrop(l.tokens, Gain(mids), t);
  }

  /** Nothing reserved, and everything held has a known cost and a price. */
  ghost predicate Settled(l: Ledger, mids: map<string, real>) {
    forall t :: t in l.tokens ==>
      && l.tokens[t].reserved == 0.0 && l.tokens[t].available >= 0.0
      && (l.tokens[t].available > 0.0 ==> l.tokens[t].avgCostKnown && t in mids)
  }

  lemma GainOfOne(t: string, tp: TokenPosition, mids: map<string, real>)
    requires tp.reserved == 0.0 && tp.available >= 0.0 && (tp.available > 0.0 ==> tp.avgCostKnown && t in mids)
    ensures Gain(mids)(t, tp) == MidValue(mids)(t, tp) - HeldCost()(t, tp)
  {
    var a, c := tp.available, tp.avgCost;
    var m := if t in mids then mids[t] else 0.0;
    assert Held(tp) == a;
    assert HeldCost()(t, tp) == c * a && MidValue(mids)(t, tp) == m * a;
    assert Gain(mids)(t, tp) == if a > 0.0 then (m - c) * a else 0.0;
    hide Gain, MidValue, HeldCost, Held;
    assert a <= 0.0 ==> a == 0.0;
  }

  /** With nothing reserved, unrealized profit is market value less cost. */
  lemma SettledGain(l: Ledger, mids: map<string, real>)
    requires Settled(l, mids)
    ensures UnrealizedPnL(l, mids) == Sum(l.tokens, MidValue(mids)) - Sum(l.tokens, HeldCost())
  {
    hide Gain, MidValue, HeldCost;
    forall t | t in l.tokens
      ensures Gain(mids)(t, l.tokens[t]) == MidValue(mids)(t, l.tokens[t]) - HeldCost()(t, l.tokens[t])
    {
      GainOfOne(t, l.tokens[t], mids);
    }
    SumDifference(l.tokens, Gain(mids), MidValue(mids), HeldCost());
  }

  /** Realized plus unrealized profit of a trading day that starts with an empty book: what the
      SELL fills brought in, less what the BUY fills cost, plus the market value of what is held. */
  lemma ProfitIdentity(l: Ledger, ops: seq<Op>, mids: map<string, real>, day: string)
    requires TokensBalanced(l) && Unsold(l, day, {}) && RegularRun(l, ops, day, {}) && Book(l) == 0.0
    requires Settled(Run(l, ops), mids)
    ensures var l' := Run(l, ops);
            l'.dailyPnL + UnrealizedPnL(l', mids) == TotalFillValue(l, ops) + Sum(l'.tokens, MidValue(mids))
  {
    hide Run, TokensBalanced, Unsold, RegularRun, PlainRun, Settled, UnrealizedPnL, MidValue, HeldCost,
        TotalFillValue, Sum;
    RegularRunIsPlain(l, ops, day, {});
    RunMovesBook(l, ops);
    SettledGain(Run(l, ops), mids);
  }
}
