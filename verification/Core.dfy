/** Vocabulary shared by every component: sides, tolerance, collateral and execution events. */
module Core {

  /** The project-wide tolerance for comparing amounts. */
  const EPS: real := 0.000000001

  /** An order side arrives as free text; only two spellings are tradable. */
  datatype Side = BUY | SELL | OtherSide(text: string)

  predicate Tradable(side: Side) {
    side.BUY? || side.SELL?
  }

  /** What one order must set aside: cash for a BUY, tokens for a SELL. */
  function RequiredCollateral(side: Side, price: real, size: real): real {
    match side
    case BUY => size * price
    case SELL => size
    case OtherSide(_) => 0.0
  }

  function NonNeg(x: real): real {
    if x < 0.0 then 0.0 else x
  }

  function Abs(x: real): real {
    if x < 0.0 then -x else x
  }

  /** What an order asks for. */
  datatype Terms = Terms(marketID: string, tokenID: string, side: Side, price: real, size: real)

  /** A point in time together with its UTC date stamp. */
  datatype Clock = Clock(now: int, today: string)

  datatype Status = Accepted | PartiallyFilled | Filled | Cancelled | Rejected | OtherStatus(text: string)

  datatype ExecutionEvent = ExecutionEvent(
    orderID: string,
    parentOrderID: string,
    marketID: string,
    tokenID: string,
    price: real,
    side: Side,
    requestedSize: real,
    filledSize: real,
    status: Status,
    reason: string)
  {
    predicate IsFill() {
      status.PartiallyFilled? || status.Filled?
    }
  }

  const TRADE_FAILED := "TRADE_FAILED"
}
