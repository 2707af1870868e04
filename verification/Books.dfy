/**
 Double-entry bookkeeping of the ledger. Cash and every token are pools with an available and a
 reserved part; order and provisional reservations are claims on one pool. Two facts hold over
 every run: the reserved part of a pool covers its claims, the difference (the residue) growing
 only by what completed orders leave behind; and available plus reserved changes only by fills
 and external corrections.
 */
module Books {
  import opened Core
  import opened Ledgers
  import opened Sums

  datatype Pool = Cash | Token(id: string)

  function Available(l: Ledger, p: Pool): real {
    match p
    case Cash => l.balance.available
    case Token(id) => TokenAt(l.tokens, id).available
  }

  function Reserved(l: Ledger, p: Pool): real {
    match p
    case Cash => l.balance.reserved
    case Token(id) => TokenAt(l.tokens, id).reserved
  }

  function Total(l: Ledger, p: Pool): real {
    Available(l, p) + Reserved(l, p)
  }

  /** Does a reservation on this side and token draw on pool `p`? */
  predicate DrawsOn(side: Side, tokenID: string, p: Pool) {
    (side.BUY? && p == Cash) || (side.SELL? && p == Token(tokenID))
  }

  function Claim(t: Terms, reserved: real, p: Pool): real {
    if DrawsOn(t.side, t.tokenID, p) then reserved else 0.0
  }

  function OrderClaim(p: Pool): (string, Order) -> real {
    (_: string, o: Order) => Claim(o.terms, o.reserved, p)
  }

  function ProvisionalClaim(p: Pool): (string, Provisional) -> real {
    (_: string, v: Provisional) => Claim(v.terms, v.reserved, p)
  }

  /** Everything orders and provisional reservations have set aside in pool `p`. */
  ghost function Claims(l: Ledger, p: Pool): real {
    Sum(l.orders, OrderClaim(p)) + Sum(l.provisionals, ProvisionalClaim(p))
  }

  /** The reserved amount that no live reservation accounts for. */
  ghost function Residue(l: Ledger, p: Pool): real {
    Reserved(l, p) - Claims(l, p)
  }

  /** No reservation holds a negative amount. */
  ghost predicate ClaimsNonNegative(l: Ledger) {
    && (forall id :: id in l.orders ==> l.orders[id].reserved >= 0.0)
    && (forall id :: id in l.provisionals ==> l.provisionals[id].reserved >= 0.0)
  }

  /** The books of pool `p` are in order. */
  ghost predicate Balanced(l: Ledger, p: Pool) {
    ClaimsNonNegative(l) && Residue(l, p) >= 0.0
  }

  /** In balanced books every single reservation is covered: no release is ever cut off at zero. */
  lemma ReservationsCovered(l: Ledger, p: Pool)
    requires Balanced(l, p)
    ensures forall id :: id in l.orders ==> Claim(l.orders[id].terms, l.orders[id].reserved, p) <= Reserved(l, p)
    ensures forall id :: id in l.provisionals ==>
              Claim(l.provisionals[id].terms, l.provisionals[id].reserved, p) <= Reserved(l, p)
  {
    SumNonNegative(l.orders, OrderClaim(p));
    SumNonNegative(l.provisionals, ProvisionalClaim(p));
    forall id | id in l.orders
      ensures Claim(l.orders[id].terms, l.orders[id].reserved, p) <= Reserved(l, p)
    {
      assert OrderClaim(p)(id, l.orders[id]) <= Sum(l.orders, OrderClaim(p));
    }
    forall id | id in l.provisionals
      ensures Claim(l.provisionals[id].terms, l.provisionals[id].reserved, p) <= Reserved(l, p)
    {
      assert ProvisionalClaim(p)(id, l.provisionals[id]) <= Sum(l.provisionals, ProvisionalClaim(p));
    }
  }

  // ---------------------------------------------------------------- how claims change

  lemma ClaimsOfOrderWrite(l: Ledger, id: string, o: Order, p: Pool)
    ensures Sum(l.orders[id := o], OrderClaim(p)) == Sum(l.orders, OrderClaim(p)) + Claim(o.terms, o.reserved, p)
              - (if id in l.orders then Claim(l.orders[id].terms, l.orders[id].reserved, p) else 0.0)
  {
    SumUpdate(l.orders, OrderClaim(p), id, o);
  }

  lemma ClaimsOfOrderDrop(l: Ledger, id: string, p: Pool)
    requires id in l.orders
    ensures Sum(l.orders - {id}, OrderClaim(p))
         == Sum(l.orders, OrderClaim(p)) - Claim(l.orders[id].terms, l.orders[id].reserved, p)
  {
    SumDrop(l.orders, OrderClaim(p), id);
  }

  lemma ClaimsOfProvisionalWrite(l: Ledger, id: string, v: Provisional, p: Pool)
    requires id !in l.provisionals
    ensures Sum(l.provisionals[id := v], ProvisionalClaim(p))
         == Sum(l.provisionals, ProvisionalClaim(p)) + Claim(v.terms, v.reserved, p)
  {
    SumUpdate(l.provisionals, ProvisionalClaim(p), id, v);
  }

  lemma ClaimsOfProvisionalDrop(l: Ledger, id: string, p: Pool)
    requires id in l.provisionals
    ensures Sum(l.provisionals - {id}, ProvisionalClaim(p))
         == Sum(l.provisionals, ProvisionalClaim(p)) - Claim(l.provisionals[id].terms, l.provisionals[id].reserved, p)
  {
    SumDrop(l.provisionals, ProvisionalClaim(p), id);
  }

  // ---------------------------------------------------------------- what one step may change

  /** Deleting a token's entry forgets what it had reserved, and a restore replaces the reserved
      amount: the books survive exactly if nothing is claimed from the token, and if the restored
      amount is not negative. No other step can break them. */
  ghost predicate Admissible(l: Ledger, op: Op, p: Pool) {
    match op
    case OpReset(balance, tokens) => Reserved(Reset(l, balance, tokens), p) >= 0.0
    case OpDropToken(id) => p == Token(id) ==> Claims(l, p) == 0.0
    case _ => true
  }

  /** What a step leaves behind in `p`: the unused reservation of an order completed by a fill, or
      of an order overwritten by a restored order with the same id, or what a restore carries in. */
  function Leftover(l: Ledger, op: Op, p: Pool): real {
    match op
    case OpFill(f, _) =>
      if FillOutcome(l, f).Done? && AfterFill(l.orders[f.orderID], f).terms.size <= EPS
      then Claim(l.orders[f.orderID].terms, l.orders[f.orderID].reserved - Consumed(l.orders[f.orderID], f), p)
      else 0.0
    case OpLoadOrder(r) =>
      if Loadable(r) && r.orderID in l.orders
      then Claim(l.orders[r.orderID].terms, l.orders[r.orderID].reserved, p)
      else 0.0
    case OpReset(balance, tokens) => Reserved(Reset(l, balance, tokens), p)
    case _ => 0.0
  }

  /** The residue a step forgets: all of it in a restore and with a deleted entry, else nothing. */
  ghost function Wiped(l: Ledger, op: Op, p: Pool): real {
    if op.OpReset? || (op.OpDropToken? && p == Token(op.tokenID)) then Residue(l, p) else 0.0
  }

  /** The part of a SELL reservation that is not covered by available tokens (at most EPS). */
  function Shortfall(l: Ledger, t: Terms, p: Pool): real {
    if t.side.SELL? && p == Token(t.tokenID)
    then NonNeg(t.size - TokenAt(l.tokens, t.tokenID).available)
    else 0.0
  }

  /** How much a step adds to available + reserved of pool `p`. */
  function Flow(l: Ledger, op: Op, p: Pool): real {
    match op
    case OpFill(f, _) =>
      if FillOutcome(l, f).Fail? then 0.0
      else
        var o := l.orders[f.orderID];
        if f.side.BUY? then
          if p == Cash then -Consumed(o, f) else if p == Token(f.tokenID) then f.size else 0.0
        else
          if p == Cash then FillPrice(o, f) * f.size else if p == Token(f.tokenID) then -Consumed(o, f) else 0.0
    case OpReserve(intentID, t, now, ttl) =>
      if TryReserve(l, intentID, t, now, ttl).outcome.Done? then Shortfall(l, t, p) else 0.0
    case OpAttach(intentID, orderID, t) =>
      if Attach(l, intentID, orderID, t).outcome.Done? && (intentID == "" || intentID !in l.provisionals)
      then Shortfall(l, t, p) else 0.0
    case OpOnchain(total, epsilon) =>
      var drift := OnchainAvailable(l, total) - l.balance.available;
      if p == Cash && Abs(drift) > NonNeg(epsilon) then drift else 0.0
    case OpMatchToken(id, size) =>
      if p != Token(id) then 0.0
      else if id !in l.tokens then size
      else
        var off := size - Total(l, p);
        if Abs(off) <= EPS then 0.0
        else if off < -Available(l, p) then -Available(l, p) else off
    case OpDropToken(id) => if p == Token(id) then -Total(l, p) else 0.0
    case OpReset(balance, tokens) => Total(Reset(l, balance, tokens), p) - Total(l, p)
    case _ => 0.0
  }

  ghost predicate Accounted(l: Ledger, op: Op, p: Pool) {
    && Balanced(Step(l, op), p)
    && Residue(Step(l, op), p) == Residue(l, p) + Leftover(l, op, p) - Wiped(l, op, p)
    && Total(Step(l, op), p) == Total(l, p) + Flow(l, op, p)
    && Leftover(l, op, p) >= 0.0 && Wiped(l, op, p) >= 0.0
  }

  lemma UnholdOrder(l: Ledger, id: string, p: Pool)
    requires Balanced(l, p) && id in l.orders
    ensures var o := l.orders[id];
            var l' := Unhold(l, o.terms.side, o.terms.tokenID, o.reserved).(orders := l.orders - {id});
            Balanced(l', p) && Residue(l', p) == Residue(l, p) && Total(l', p) == Total(l, p)
  {
    ReservationsCovered(l, p);
    ClaimsOfOrderDrop(l, id, p);
  }

  lemma UnprovisionAccounted(l: Ledger, intentID: string, p: Pool)
    requires Balanced(l, p)
    ensures var l' := Unprovision(l, intentID);
            Balanced(l', p) && Residue(l', p) == Residue(l, p) && Total(l', p) == Total(l, p)
  {
    if intentID in l.provisionals {
      ReservationsCovered(l, p);
      ClaimsOfProvisionalDrop(l, intentID, p);
    }
  }

  lemma PromoteAccounted(l: Ledger, intentID: string, orderID: string, p: Pool)
    requires Balanced(l, p) && intentID in l.provisionals && orderID !in l.orders
    ensures var l' := l.(provisionals := l.provisionals - {intentID},
                         orders := l.orders[orderID := Promote(orderID, l.provisionals[intentID])]);
            Balanced(l', p) && Residue(l', p) == Residue(l, p) && Total(l', p) == Total(l, p)
  {
    ClaimsOfProvisionalDrop(l, intentID, p);
    ClaimsOfOrderWrite(l, orderID, Promote(orderID, l.provisionals[intentID]), p);
  }

  lemma CollateralPositive(t: Terms)
    requires ValidateTerms(t).Done?
    ensures Collateral(t) > 0.0
  {
  }

  /** Setting collateral aside moves it inside one pool, and only there. */
  lemma HoldPools(l: Ledger, t: Terms, floor: bool, p: Pool)
    requires ValidateTerms(t).Done?
    ensures Reserved(Hold(l, t, floor), p) == Reserved(l, p) + Claim(t, Collateral(t), p)
    ensures Total(Hold(l, t, floor), p) == Total(l, p) + if floor then Shortfall(l, t, p) else 0.0
  {
  }

  lemma HoldOrderAccounted(l: Ledger, orderID: string, t: Terms, floor: bool, external: bool, p: Pool)
    requires Balanced(l, p) && orderID !in l.orders && ValidateTerms(t).Done?
    ensures var l' := Hold(l, t, floor).(orders := l.orders[orderID := Order(orderID, t, Collateral(t), external)]);
            && Balanced(l', p) && Residue(l', p) == Residue(l, p)
            && Total(l', p) == Total(l, p) + if floor then Shortfall(l, t, p) else 0.0
  {
    CollateralPositive(t);
    HoldPools(l, t, floor, p);
    ClaimsOfOrderWrite(l, orderID, Order(orderID, t, Collateral(t), external), p);
  }

  lemma ReserveAccounted(l: Ledger, op: Op, p: Pool)
    requires Balanced(l, p) && op.OpReserve?
    ensures Accounted(l, op, p)
  {
    if TryReserve(l, op.intentID, op.terms, op.now, op.ttl).outcome.Done? {
      var l' := Step(l, op);
      var h := Hold(l, op.terms, true);
      assert l' == h.(provisionals := l'.provisionals);
      CollateralPositive(op.terms);
      HoldPools(l, op.terms, true, p);
      ClaimsOfProvisionalWrite(l, op.intentID, l'.provisionals[op.intentID], p);
      assert Reserved(l', p) == Reserved(h, p) && Total(l', p) == Total(h, p);
    }
  }

  lemma AttachAccounted(l: Ledger, op: Op, p: Pool)
    requires Balanced(l, p) && op.OpAttach?
    ensures Accounted(l, op, p)
  {
    hide Balanced, Residue, Total, Hold, Unhold, Shortfall;
    if ValidateOrder(op.orderID, op.terms).Done? {
      if op.orderID in l.orders {
        UnprovisionAccounted(l, op.intentID, p);
      } else if op.intentID != "" && op.intentID in l.provisionals {
        PromoteAccounted(l, op.intentID, op.orderID, p);
      } else {
        HoldOrderAccounted(l, op.orderID, op.terms, true, false, p);
      }
    }
  }

  lemma ConfirmAccounted(l: Ledger, op: Op, p: Pool)
    requires Balanced(l, p) && op.OpConfirm?
    ensures Accounted(l, op, p)
  {
    UnprovisionAccounted(l, op.intentID, p);
    if op.intentID in l.provisionals && op.orderID !in l.orders {
      PromoteAccounted(l, op.intentID, op.orderID, p);
    }
  }

  lemma ExternalAccounted(l: Ledger, op: Op, p: Pool)
    requires Balanced(l, p) && op.OpAttachExternal?
    ensures Accounted(l, op, p)
  {
    if ValidateOrder(op.orderID, op.terms).Done? && op.orderID !in l.orders {
      HoldOrderAccounted(l, op.orderID, op.terms, false, true, p);
    }
  }

  ghost predicate FillMoves(l: Ledger, op: Op, p: Pool)
    requires op.OpFill? && FillOutcome(l, op.fill).Done?
  {
    var o := l.orders[op.fill.orderID];
    var l' := BookFill(l, o, op.fill, op.today);
    && Reserved(l', p) == Reserved(l, p) - Claim(o.terms, Consumed(o, op.fill), p)
    && Total(l', p) == Total(l, p) + Flow(l, op, p)
  }

  lemma BuyPools(l: Ledger, op: Op, p: Pool)
    requires op.OpFill? && FillOutcome(l, op.fill).Done? && op.fill.side.BUY?
    requires Claim(l.orders[op.fill.orderID].terms, l.orders[op.fill.orderID].reserved, p) <= Reserved(l, p)
    ensures FillMoves(l, op, p)
  {
    hide WeightedCost, AfterFill, FillPrice, RequiredCollateral;
  }

  lemma SellPools(l: Ledger, op: Op, p: Pool)
    requires op.OpFill? && FillOutcome(l, op.fill).Done? && op.fill.side.SELL?
    requires Claim(l.orders[op.fill.orderID].terms, l.orders[op.fill.orderID].reserved, p) <= Reserved(l, p)
    ensures FillMoves(l, op, p)
  {
    hide AverageIn, AfterFill, FillPrice, RequiredCollateral;
  }

  /** The pools' side of a fill: the reserved part gives up what the fill consumed. */
  lemma FillPools(l: Ledger, op: Op, p: Pool)
    requires Balanced(l, p) && op.OpFill? && FillOutcome(l, op.fill).Done?
    ensures var o := l.orders[op.fill.orderID];
            var l' := BookFill(l, o, op.fill, op.today);
            && Reserved(l', p) == Reserved(l, p) - Claim(o.terms, Consumed(o, op.fill), p)
            && Total(l', p) == Total(l, p) + Flow(l, op, p)
  {
    hide Balanced, BookFill, Consumed, Claim, Flow, Total;
    ReservationsCovered(l, p);
    if op.fill.side.BUY? { BuyPools(l, op, p); } else { SellPools(l, op, p); }
  }

  /** The claims' side of a fill: the order gives up the same amount, and the rest if it completes. */
  lemma FillClaims(l: Ledger, op: Op, p: Pool)
    requires op.OpFill? && FillOutcome(l, op.fill).Done?
    requires l.orders[op.fill.orderID].reserved >= 0.0
    ensures var o := l.orders[op.fill.orderID];
            Sum(Step(l, op).orders, OrderClaim(p))
            == Sum(l.orders, OrderClaim(p)) - Claim(o.terms, Consumed(o, op.fill), p) - Leftover(l, op, p)
  {
    var f := op.fill;
    var o := l.orders[f.orderID];
    if AfterFill(o, f).terms.size <= EPS {
      ClaimsOfOrderDrop(l, f.orderID, p);
    } else {
      ClaimsOfOrderWrite(l, f.orderID, AfterFill(o, f), p);
    }
  }

  lemma FillAccounted(l: Ledger, op: Op, p: Pool)
    requires Balanced(l, p) && op.OpFill?
    ensures Accounted(l, op, p)
  {
    if FillOutcome(l, op.fill).Done? {
      FillPools(l, op, p);
      FillClaims(l, op, p);
      var l' := BookFill(l, l.orders[op.fill.orderID], op.fill, op.today);
      assert Reserved(Step(l, op), p) == Reserved(l', p) && Total(Step(l, op), p) == Total(l', p);
      assert Step(l, op).provisionals == l.provisionals;
    }
  }

  lemma LoadPools(l: Ledger, r: Order, p: Pool)
    requires Loadable(r)
    ensures var o := r.(reserved := NonNeg(r.reserved));
            && LoadOrder(l, r).orders == l.orders[o.orderID := o]
            && Reserved(LoadOrder(l, r), p) == Reserved(l, p) + Claim(o.terms, o.reserved, p)
            && Total(LoadOrder(l, r), p) == Total(l, p)
  {
  }

  lemma LoadAccounted(l: Ledger, op: Op, p: Pool)
    requires Balanced(l, p) && op.OpLoadOrder?
    ensures Accounted(l, op, p)
  {
    if Loadable(op.order) {
      var o := op.order.(reserved := NonNeg(op.order.reserved));
      ClaimsOfOrderWrite(l, o.orderID, o, p);
      LoadPools(l, op.order, p);
      assert Step(l, op).provisionals == l.provisionals;
    }
  }

  /** Steps that touch no reservation and no reserved amount keep the residue. */
  lemma ResidueKept(l: Ledger, l': Ledger, p: Pool)
    requires Balanced(l, p) && l'.orders == l.orders && l'.provisionals == l.provisionals
    requires Reserved(l', p) == Reserved(l, p)
    ensures Balanced(l', p) && Residue(l', p) == Residue(l, p)
  {
  }

  lemma OnchainAccounted(l: Ledger, op: Op, p: Pool)
    requires Balanced(l, p) && op.OpOnchain?
    ensures Accounted(l, op, p)
  {
    ResidueKept(l, Step(l, op), p);
    hide Residue, Balanced;
  }

  lemma MatchAccounted(l: Ledger, op: Op, p: Pool)
    requires Balanced(l, p) && op.OpMatchToken?
    ensures Accounted(l, op, p)
  {
    ResidueKept(l, Step(l, op), p);
    hide Residue, Balanced;
  }

  lemma DropElsewhereAccounted(l: Ledger, op: Op, p: Pool)
    requires Balanced(l, p) && op.OpDropToken? && p != Token(op.tokenID)
    ensures Accounted(l, op, p)
  {
    ResidueKept(l, Step(l, op), p);
    hide Residue, Balanced;
  }

  /** A deleted entry reads as an empty position, so the token's books survive exactly if no
      reservation draws on it. */
  lemma DropKeepsBooksIff(l: Ledger, id: string)
    requires ClaimsNonNegative(l)
    ensures Balanced(DropToken(l, id), Token(id)) <==> Claims(l, Token(id)) == 0.0
    ensures Total(DropToken(l, id), Token(id)) == 0.0 && Claims(DropToken(l, id), Token(id)) == Claims(l, Token(id))
  {
    SumNonNegative(l.orders, OrderClaim(Token(id)));
    SumNonNegative(l.provisionals, ProvisionalClaim(Token(id)));
  }

  lemma DropAccounted(l: Ledger, op: Op, p: Pool)
    requires Balanced(l, p) && op.OpDropToken?
    ensures Balanced(Step(l, op), p) <==> Admissible(l, op, p)
    ensures Admissible(l, op, p) ==> Accounted(l, op, p)
  {
    if p == Token(op.tokenID) {
      DropKeepsBooksIff(l, op.tokenID);
    } else {
      DropElsewhereAccounted(l, op, p);
    }
  }

  lemma ResetAccounted(l: Ledger, op: Op, p: Pool)
    requires Balanced(l, p) && op.OpReset?
    ensures Balanced(Step(l, op), p) <==> Admissible(l, op, p)
    ensures Admissible(l, op, p) ==> Accounted(l, op, p)
  {
    SumEmpty(OrderClaim(p));
    SumEmpty(ProvisionalClaim(p));
  }

  lemma MergeAccounted(l: Ledger, op: Op, p: Pool)
    requires Balanced(l, p) && op.OpMergeOrder?
    ensures Accounted(l, op, p)
  {
    if op.id in l.orders {
      ClaimsOfOrderWrite(l, op.id, Aligned(l.orders[op.id], op.remote), p);
    } else if AttachRemote(l, op.id, op.remote.AsTerms()).outcome.Done? {
      HoldOrderAccounted(l, op.id, op.remote.AsTerms(), false, true, p);
    }
  }

  /** Every step keeps the books of a pool exactly if it is admissible, and then accounts for them. */
  lemma StepAccounted(l: Ledger, op: Op, p: Pool)
    requires Balanced(l, p)
    ensures Balanced(Step(l, op), p) <==> Admissible(l, op, p)
    ensures Admissible(l, op, p) ==> Accounted(l, op, p)
  {
    hide Balanced, Residue;
    match op
    case OpReserve(_, _, _, _) => ReserveAccounted(l, op, p);
    case OpUnprovision(id) => UnprovisionAccounted(l, id, p);
    case OpConfirm(_, _) => ConfirmAccounted(l, op, p);
    case OpAttach(_, _, _) => AttachAccounted(l, op, p);
    case OpAttachExternal(_, _) => ExternalAccounted(l, op, p);
    case OpEvict(id) => if id in l.orders { UnholdOrder(l, id, p); }
    case OpFill(_, _) => FillAccounted(l, op, p);
    case OpMergeOrder(_, _) => MergeAccounted(l, op, p);
    case OpLoadOrder(_) => LoadAccounted(l, op, p);
    case OpOnchain(_, _) => OnchainAccounted(l, op, p);
    case OpMatchToken(_, _) => MatchAccounted(l, op, p);
    case OpDropToken(_) => DropAccounted(l, op, p);
    case OpReset(_, _) => ResetAccounted(l, op, p);
  }

  lemma StepTotal(l: Ledger, op: Op, p: Pool)
    requires Balanced(l, p) && Admissible(l, op, p)
    ensures Total(Step(l, op), p) == Total(l, p) + Flow(l, op, p)
  {
    hide Balanced, Admissible, Step, Total, Flow, Residue, Leftover, Wiped;
    StepAccounted(l, op, p);
  }

  // ---------------------------------------------------------------- whole runs

  /** Every step is admissible in the state it meets. */
  ghost predicate AdmissibleRun(l: Ledger, ops: seq<Op>, p: Pool)
    decreases |ops|
  {
    ops != [] ==> Admissible(l, ops[0], p) && AdmissibleRun(Step(l, ops[0]), ops[1..], p)
  }

  /** The books are in order after every step of the run. */
  ghost predicate BalancedThroughout(l: Ledger, ops: seq<Op>, p: Pool)
    decreases |ops|
  {
    Balanced(l, p) && (ops != [] ==> BalancedThroughout(Step(l, ops[0]), ops[1..], p))
  }

  ghost function TotalFlow(l: Ledger, ops: seq<Op>, p: Pool): real
    decreases |ops|
  {
    if ops == [] then 0.0 else Flow(l, ops[0], p) + TotalFlow(Step(l, ops[0]), ops[1..], p)
  }

  ghost function TotalLeftover(l: Ledger, ops: seq<Op>, p: Pool): real
    decreases |ops|
  {
    if ops == [] then 0.0 else Leftover(l, ops[0], p) + TotalLeftover(Step(l, ops[0]), ops[1..], p)
  }

  ghost function TotalWiped(l: Ledger, ops: seq<Op>, p: Pool): real
    decreases |ops|
  {
    if ops == [] then 0.0 else Wiped(l, ops[0], p) + TotalWiped(Step(l, ops[0]), ops[1..], p)
  }

  /** Reserve invariant and conservation over every run of ledger operations. */
  lemma {:induction false} RunAccounted(l: Ledger, ops: seq<Op>, p: Pool)
    requires Balanced(l, p) && AdmissibleRun(l, ops, p)
    ensures Balanced(Run(l, ops), p)
    ensures Residue(Run(l, ops), p) == Residue(l, p) + TotalLeftover(l, ops, p) - TotalWiped(l, ops, p)
    ensures Total(Run(l, ops), p) == Total(l, p) + TotalFlow(l, ops, p)
    ensures TotalLeftover(l, ops, p) >= 0.0 && TotalWiped(l, ops, p) >= 0.0
    decreases |ops|
  {
    hide Balanced, Residue, Total, Admissible, Leftover, Flow, Wiped, Step;
    if ops == [] {
    } else {
      StepAccounted(l, ops[0], p);
      RunAccounted(Step(l, ops[0]), ops[1..], p);
    }
  }

  /** The condition is exact: the books are in order after every step if and only if every step is
      admissible. */
  lemma {:induction false} BalancedThroughoutIff(l: Ledger, ops: seq<Op>, p: Pool)
    requires Balanced(l, p)
    ensures BalancedThroughout(l, ops, p) <==> AdmissibleRun(l, ops, p)
    decreases |ops|
  {
    hide Balanced, Admissible, Step;
    if ops == [] {
    } else {
      StepAccounted(l, ops[0], p);
      if Admissible(l, ops[0], p) {
        BalancedThroughoutIff(Step(l, ops[0]), ops[1..], p);
      } else {
        assert !BalancedThroughout(Step(l, ops[0]), ops[1..], p);
      }
    }
  }

  // ---------------------------------------------------------------- where books are lost

  /** An order that holds `reserved`, alone in a ledger with just that set aside. */
  function LoneOrder(t: Terms, reserved: real, available: real): Ledger {
    var l := Ledger(Balance(available, 0.0, 0.0), map[], map["o" := Order("o", t, reserved, false)], map[], 0.0, "");
    if t.side.SELL? then l.(tokens := map[t.tokenID := NO_POSITION.(reserved := reserved)])
    else l.(balance := l.balance.(reserved := reserved))
  }

  lemma LoneOrderBalanced(t: Terms, reserved: real, available: real, p: Pool)
    requires reserved >= 0.0 && Tradable(t.side)
    ensures Balanced(LoneOrder(t, reserved, available), p)
    ensures Claims(LoneOrder(t, reserved, available), p) == Claim(t, reserved, p)
    ensures Residue(LoneOrder(t, reserved, available), p) == 0.0
  {
    var l := LoneOrder(t, reserved, available);
    var none: map<string, Order> := map[];
    SumEmpty(OrderClaim(p));
    SumEmpty(ProvisionalClaim(p));
    SumUpdate(none, OrderClaim(p), "o", l.orders["o"]);
    assert none["o" := l.orders["o"]] == l.orders;
  }

  /** A live SELL whose token entry is deleted: the claim is left without a reserved amount. */
  lemma DropBreaksBooks(t: Terms, size: real)
    requires t.side.SELL? && size > 0.0
    ensures Balanced(LoneOrder(t, size, 0.0), Token(t.tokenID))
    ensures !Balanced(DropToken(LoneOrder(t, size, 0.0), t.tokenID), Token(t.tokenID))
  {
    LoneOrderBalanced(t, size, 0.0, Token(t.tokenID));
    DropKeepsBooksIff(LoneOrder(t, size, 0.0), t.tokenID);
    hide Balanced;
  }
}
