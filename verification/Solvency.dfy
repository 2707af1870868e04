/**
 What each single reservation is worth, and how far a pool may be overdrawn: SELL reservations
 equal the open size, BUY reservations cover limit price times open size, and the EPS of slack in
 the affordability checks never adds up over a run.
 */
module Solvency {
  import opened Core
  import opened Ledgers
  import opened Books

  // ---------------------------------------------------------------- each reservation is backed

  predicate BackedBy(t: Terms, reserved: real) {
    && (t.side.SELL? ==> reserved == t.size)
    && (t.side.BUY? ==> reserved >= t.price * t.size)
    && t.price > 0.0
    && reserved >= 0.0
  }

  /** Every reservation, confirmed or provisional, satisfies `ok`. */
  ghost predicate Each(l: Ledger, ok: (Terms, real) -> bool) {
    && (forall id :: id in l.orders ==> ok(l.orders[id].terms, l.orders[id].reserved))
    && (forall id :: id in l.provisionals ==> ok(l.provisionals[id].terms, l.provisionals[id].reserved))
  }

  /** What is written by a step that does not restore: new reservations hold their collateral,
      promoted ones are copied, fills and merges rewrite one order. */
  ghost predicate WritesOnly(l: Ledger, op: Op, ok: (Terms, real) -> bool) {
    && !op.OpReset? && !op.OpLoadOrder?
    && (forall t :: ValidateTerms(t).Done? ==> ok(t, Collateral(t)))
    && (op.OpFill? && FillOutcome(l, op.fill).Done? ==>
          var o' := AfterFill(l.orders[op.fill.orderID], op.fill); ok(o'.terms, o'.reserved))
    && (op.OpMergeOrder? && op.remote.Remaining() > 0.0 && op.id in l.orders ==>
          var o' := Aligned(l.orders[op.id], op.remote); ok(o'.terms, o'.reserved))
  }

  lemma StepKeepsEach(l: Ledger, op: Op, ok: (Terms, real) -> bool)
    requires Each(l, ok) && WritesOnly(l, op, ok)
    ensures Each(Step(l, op), ok)
  {
    hide Hold, Unhold, BookFill, Affordable, MatchPosition, OnchainAvailable, AfterFill, Aligned, FillOutcome,
        Collateral, Abs;
  }

  ghost predicate Backed(l: Ledger) {
    Each(l, BackedBy)
  }

  /** A BUY fill at a price above the order's limit would eat into the cover of the rest. */
  predicate AtOrBelowLimit(l: Ledger, f: Fill) {
    FillOutcome(l, f).Done? && f.side.BUY? ==> FillPrice(l.orders[f.orderID], f) <= l.orders[f.orderID].terms.price
  }

  predicate WithinSize(l: Ledger, f: Fill) {
    FillOutcome(l, f).Done? && f.side.BUY? ==> f.size <= l.orders[f.orderID].terms.size
  }

  /** Steps that keep reservations backed: no restore, no drift correction from the exchange, and
      BUY fills no worse than the limit. */
  predicate Orderly(l: Ledger, op: Op) {
    && !op.OpReset? && !op.OpLoadOrder?
    && (op.OpFill? ==> AtOrBelowLimit(l, op.fill))
    && (op.OpMergeOrder? && op.remote.Remaining() > 0.0 && op.id in l.orders ==>
          !Drifted(l.orders[op.id], op.remote))
  }

  lemma CollateralBacks(t: Terms)
    requires ValidateTerms(t).Done?
    ensures BackedBy(t, Collateral(t))
  {
  }

  lemma Scale(a: real, b: real, c: real)
    requires a <= b && 0.0 <= c
    ensures a * c <= b * c
  {
  }

  lemma CheaperFill(reserved: real, limit: real, open: real, price: real, size: real)
    requires reserved >= limit * open && 0.0 < price <= limit && 0.0 < size <= open
    ensures size * price <= reserved
    ensures reserved - size * price >= limit * (open - size)
  {
    Scale(price, limit, size);
    Scale(size, open, limit);
  }

  lemma FillKeepsBacked(o: Order, f: Fill)
    requires BackedBy(o.terms, o.reserved) && f.size > 0.0 && f.side == o.terms.side && Tradable(f.side)
    requires f.side.BUY? ==> FillPrice(o, f) <= o.terms.price
    ensures BackedBy(AfterFill(o, f).terms, AfterFill(o, f).reserved)
    ensures f.side.BUY? && f.size <= o.terms.size ==> Consumed(o, f) == FillPrice(o, f) * f.size
    ensures f.side.SELL? && AfterFill(o, f).terms.size <= EPS ==> o.reserved - Consumed(o, f) <= EPS
  {
    if f.side.BUY? && f.size <= o.terms.size {
      CheaperFill(o.reserved, o.terms.price, o.terms.size, FillPrice(o, f), f.size);
    }
  }

  lemma StepBacked(l: Ledger, op: Op)
    requires Backed(l) && Orderly(l, op)
    ensures Backed(Step(l, op))
  {
    forall t | ValidateTerms(t).Done? ensures BackedBy(t, Collateral(t)) {
      CollateralBacks(t);
    }
    if op.OpFill? && FillOutcome(l, op.fill).Done? {
      FillKeepsBacked(l.orders[op.fill.orderID], op.fill);
    }
    StepKeepsEach(l, op, BackedBy);
  }

  /** Every step of the run is orderly in the state it meets. */
  ghost predicate OrderlyRun(l: Ledger, ops: seq<Op>)
    decreases |ops|
  {
    ops != [] ==> Orderly(l, ops[0]) && OrderlyRun(Step(l, ops[0]), ops[1..])
  }

  /** SELL fills of token `t` that complete their order. */
  predicate CompletesSell(l: Ledger, op: Op, t: string) {
    && op.OpFill? && FillOutcome(l, op.fill).Done? && op.fill.side.SELL? && op.fill.tokenID == t
    && AfterFill(l.orders[op.fill.orderID], op.fill).terms.size <= EPS
  }

  ghost function CompletedSells(l: Ledger, ops: seq<Op>, t: string): nat
    decreases |ops|
  {
    if ops == [] then 0
    else (if CompletesSell(l, ops[0], t) then 1 else 0) + CompletedSells(Step(l, ops[0]), ops[1..], t)
  }

  /** Over every orderly run reservations stay backed, and each completed SELL strands at most EPS. */
  lemma {:induction false} RunBacked(l: Ledger, ops: seq<Op>, t: string)
    requires Backed(l) && OrderlyRun(l, ops)
    ensures Backed(Run(l, ops))
    ensures TotalLeftover(l, ops, Token(t)) <= EPS * CompletedSells(l, ops, t) as real
    decreases |ops|
  {
    if ops == [] {
    } else {
      var op := ops[0];
      StepBacked(l, op);
      if op.OpFill? && FillOutcome(l, op.fill).Done? {
        FillKeepsBacked(l.orders[op.fill.orderID], op.fill);
      }
      assert Leftover(l, op, Token(t)) <= if CompletesSell(l, op, t) then EPS else 0.0;
      RunBacked(Step(l, op), ops[1..], t);
    }
  }

  /** So the unaccounted part of a token's reserved amount is bounded by EPS per completed SELL. */
  lemma StrandedTokensBounded(l: Ledger, ops: seq<Op>, t: string)
    requires Backed(l) && OrderlyRun(l, ops)
    requires Balanced(l, Token(t)) && AdmissibleRun(l, ops, Token(t))
    ensures Residue(l, Token(t)) - TotalWiped(l, ops, Token(t)) <= Residue(Run(l, ops), Token(t))
    ensures Residue(Run(l, ops), Token(t)) <= Residue(l, Token(t)) + EPS * CompletedSells(l, ops, t) as real
  {
    RunAccounted(l, ops, Token(t));
    RunBacked(l, ops, t);
  }

  /** Fill value: what the exchange pays out (SELL) or charges (BUY), at the fill's own price. */
  function FillValue(l: Ledger, op: Op): real {
    if op.OpFill? && FillOutcome(l, op.fill).Done? then
      var o := l.orders[op.fill.orderID];
      var value := FillPrice(o, op.fill) * op.fill.size;
      if op.fill.side.BUY? then -value else value
    else 0.0
  }

  ghost function TotalFillValue(l: Ledger, ops: seq<Op>): real
    decreases |ops|
  {
    if ops == [] then 0.0 else FillValue(l, ops[0]) + TotalFillValue(Step(l, ops[0]), ops[1..])
  }

  ghost predicate ExactRun(l: Ledger, ops: seq<Op>)
    decreases |ops|
  {
    ops != [] ==>
      && Orderly(l, ops[0]) && !ops[0].OpOnchain?
      && (ops[0].OpFill? ==> WithinSize(l, ops[0].fill))
      && ExactRun(Step(l, ops[0]), ops[1..])
  }

  lemma FlowIsFillValue(l: Ledger, op: Op)
    requires Backed(l) && Orderly(l, op) && !op.OpOnchain?
    requires op.OpFill? ==> WithinSize(l, op.fill)
    ensures Flow(l, op, Cash) == FillValue(l, op)
  {
    if op.OpFill? && FillOutcome(l, op.fill).Done? {
      FillKeepsBacked(l.orders[op.fill.orderID], op.fill);
    }
  }

  /** With fills inside limit and size, cash is charged exactly price times size: over every such
      run the cash total moves by the value of the fills and nothing else. */
  lemma {:induction false} RunChargesFillValue(l: Ledger, ops: seq<Op>)
    requires Backed(l) && Balanced(l, Cash) && ExactRun(l, ops)
    ensures Total(Run(l, ops), Cash) == Total(l, Cash) + TotalFillValue(l, ops)
    decreases |ops|
  {
    if ops == [] {
    } else {
      var op := ops[0];
      StepBacked(l, op);
      StepAccounted(l, op, Cash);
      FlowIsFillValue(l, op);
      RunChargesFillValue(Step(l, op), ops[1..]);
    }
  }

  // ---------------------------------------------------------------- what completed orders strand

  /** The fill completes a BUY, and the order's reservation exceeds what the fill costs. */
  predicate CompletesBelowCost(l: Ledger, f: Fill) {
    && FillOutcome(l, f).Done? && f.side.BUY?
    && l.orders[f.orderID].terms.size - f.size <= EPS
    && l.orders[f.orderID].reserved > FillPrice(l.orders[f.orderID], f) * f.size
  }

  /** A fill leaves cash reserved for nothing exactly in that case. */
  lemma FillStrandsCashIff(l: Ledger, f: Fill, today: string)
    requires Balanced(l, Cash)
    ensures CompletesBelowCost(l, f) <==> Residue(ApplyFill(l, f, today).ledger, Cash) > Residue(l, Cash)
  {
    FillAccounted(l, OpFill(f, today), Cash);
    CompletedLeavesCash(l, f, today);
    hide Balanced, Residue, Leftover, FillOutcome, ApplyFill, CompletesBelowCost;
  }

  lemma CompletedLeavesCash(l: Ledger, f: Fill, today: string)
    ensures CompletesBelowCost(l, f) <==> Leftover(l, OpFill(f, today), Cash) > 0.0
  {
  }

  /** A BUY completed below its limit: the unused cash stays reserved, and the release that follows
      finds no order to take it from. */
  lemma FillBelowLimitStrandsCash(today: string)
    ensures var l := LoneOrder(Terms("m", "t", BUY, 0.5, 2.0), 1.0, 9.0);
            var f := Fill("o", "m", "t", BUY, 2.0, 0.25);
            var filled := ApplyFill(l, f, today).ledger;
            && Residue(l, Cash) == 0.0 && Residue(filled, Cash) == 0.5
            && Evict(filled, "o") == filled && filled.balance == Balance(9.0, 0.5, 0.0)
  {
    var t := Terms("m", "t", BUY, 0.5, 2.0);
    var l := LoneOrder(t, 1.0, 9.0);
    LoneOrderBalanced(t, 1.0, 9.0, Cash);
    FillAccounted(l, OpFill(Fill("o", "m", "t", BUY, 2.0, 0.25), today), Cash);
  }

  // ---------------------------------------------------------------- slack does not accumulate

  /** Steps that set nothing aside without checking that it can be afforded. A restore does, and so
      does reconciliation when it adopts an order; aligning a known order does not, and keeps its
      limit positive if the exchange's price is. */
  predicate Checked(l: Ledger, op: Op) {
    && !op.OpReset? && !op.OpLoadOrder?
    && (op.OpMergeOrder? ==>
          || op.remote.Remaining() <= 0.0
          || (op.id in l.orders && (Drifted(l.orders[op.id], op.remote) ==> op.remote.price > 0.0))
          || (op.id !in l.orders && AttachRemote(l, op.id, op.remote.AsTerms()).outcome.Fail?))
  }

  predicate PricedAt(t: Terms, reserved: real) {
    t.price > 0.0 && reserved >= 0.0
  }

  ghost predicate Priced(l: Ledger) {
    Each(l, PricedAt)
  }

  /** No pool is overdrawn by more than EPS. */
  ghost predicate Solvent(l: Ledger) {
    && l.balance.available >= -EPS
    && (forall t :: t in l.tokens ==> l.tokens[t].available >= -EPS)
  }

  predicate SaneCorrection(op: Op) {
    op.OpMatchToken? ==> op.size > 0.0
  }

  lemma StepPriced(l: Ledger, op: Op)
    requires Priced(l) && Checked(l, op)
    ensures Priced(Step(l, op))
  {
    forall t | ValidateTerms(t).Done? ensures PricedAt(t, Collateral(t)) {
      CollateralBacks(t);
    }
    StepKeepsEach(l, op, PricedAt);
  }

  lemma HoldSolvent(l: Ledger, t: Terms, floor: bool)
    requires Solvent(l) && ValidateTerms(t).Done? && Affordable(l, t).Done?
    ensures Solvent(Hold(l, t, floor))
    ensures forall p :: 0.0 <= Shortfall(l, t, p) <= EPS
  {
  }

  lemma UnholdSolvent(l: Ledger, side: Side, tokenID: string, amount: real)
    requires Solvent(l) && amount >= 0.0
    ensures Solvent(Unhold(l, side, tokenID, amount))
  {
  }

  lemma FillSolvent(l: Ledger, o: Order, f: Fill, today: string)
    requires Solvent(l) && o.terms.price > 0.0 && f.size > 0.0
    ensures Solvent(BookFill(l, o, f, today))
  {
    var l' := BookFill(l, o, f, today);
    assert FillPrice(o, f) * f.size >= 0.0;
    assert l'.balance.available >= l.balance.available;
    assert TokenAt(l'.tokens, o.terms.tokenID).available >= TokenAt(l.tokens, o.terms.tokenID).available;
  }

  lemma UnprovisionSolvent(l: Ledger, id: string)
    requires Priced(l) && Solvent(l)
    ensures Solvent(Unprovision(l, id))
  {
    if id in l.provisionals {
      var v := l.provisionals[id];
      UnholdSolvent(l.(provisionals := l.provisionals - {id}), v.terms.side, v.terms.tokenID, v.reserved);
    }
  }

  lemma StepSolvent(l: Ledger, op: Op)
    requires Priced(l) && Solvent(l) && Checked(l, op) && SaneCorrection(op)
    ensures Solvent(Step(l, op))
  {
    match op
    case OpReserve(_, t, _, _) =>
      if ValidateTerms(t).Done? && Affordable(l, t).Done? { HoldSolvent(l, t, true); }
    case OpUnprovision(id) => UnprovisionSolvent(l, id);
    case OpConfirm(id, _) => UnprovisionSolvent(l, id);
    case OpAttach(id, _, t) =>
      UnprovisionSolvent(l, id);
      if ValidateTerms(t).Done? && Affordable(l, t).Done? { HoldSolvent(l, t, true); }
    case OpAttachExternal(_, t) =>
      if ValidateTerms(t).Done? && Affordable(l, t).Done? { HoldSolvent(l, t, false); }
    case OpEvict(id) =>
      if id in l.orders {
        UnholdSolvent(l, l.orders[id].terms.side, l.orders[id].terms.tokenID, l.orders[id].reserved);
      }
    case OpFill(f, today) =>
      if FillOutcome(l, f).Done? { FillSolvent(l, l.orders[f.orderID], f, today); }
    case _ =>
  }

  /** A SELL reservation raises its token's total by at most EPS, and only that token's. */
  lemma ReserveSlack(l: Ledger, op: Op, p: Pool)
    requires op.OpReserve? || op.OpAttach?
    ensures 0.0 <= Flow(l, op, p) <= EPS
    ensures Flow(l, op, p) > 0.0 ==> op.terms.side.SELL? && p == Token(op.terms.tokenID)
  {
  }

  /** Every step of the run is checked in the state it meets. */
  ghost predicate CheckedRun(l: Ledger, ops: seq<Op>)
    decreases |ops|
  {
    ops != [] ==> Checked(l, ops[0]) && SaneCorrection(ops[0]) && CheckedRun(Step(l, ops[0]), ops[1..])
  }

  /** In every run of checked operations no pool is ever overdrawn by more than one EPS. */
  lemma {:induction false} RunSolvent(l: Ledger, ops: seq<Op>)
    requires Priced(l) && Solvent(l) && CheckedRun(l, ops)
    ensures Priced(Run(l, ops)) && Solvent(Run(l, ops))
    decreases |ops|
  {
    if ops == [] {
    } else {
      StepPriced(l, ops[0]);
      StepSolvent(l, ops[0]);
      hide Step, Checked, Priced, Solvent;
      RunSolvent(Step(l, ops[0]), ops[1..]);
    }
  }
}
