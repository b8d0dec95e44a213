/**
 * Request validation (internal/execution/risk.go): four guard checks run in
 * a fixed order; the first that fails names the error.
 */
module Risk {
  import opened Wrappers
  import opened Domain

  datatype ValidationError =
    | NonPositiveQuantity
    | MissingSymbol
    | InvalidSide(side: string)
    | InvalidOrderType(orderType: string)

  /** The error text the validator returns for each failed check. */
  function Message(e: ValidationError): string
  {
    match e
    case NonPositiveQuantity => "quantity must be greater than zero"
    case MissingSymbol => "symbol is required"
    case InvalidSide(side) => "invalid order side: " + side
    case InvalidOrderType(t) => "invalid order type: " + t
  }

  predicate IsSide(side: string)
  {
    side == SideBuy || side == SideSell
  }

  predicate IsOrderType(t: string)
  {
    t == TypeMarket || t == TypeLimit || t == TypeStop || t == TypeStopLimit
  }

  /** The request shape the execution engine accepts. */
  predicate WellFormed(req: OrderRequest)
  {
    req.quantity > 0.0 && req.symbol != "" && IsSide(req.side) && IsOrderType(req.orderType)
  }

  /** Every rule the request breaks, listed in the order the validator checks them. */
  function Violations(req: OrderRequest): seq<ValidationError>
  {
    (if req.quantity <= 0.0 then [NonPositiveQuantity] else [])
    + (if req.symbol == "" then [MissingSymbol] else [])
    + (if !IsSide(req.side) then [InvalidSide(req.side)] else [])
    + (if !IsOrderType(req.orderType) then [InvalidOrderType(req.orderType)] else [])
  }

  /** validateOrderRequest: None stands for a nil error. */
  function ValidateOrderRequest(req: OrderRequest): (r: Option<ValidationError>)
    ensures r == None <==> WellFormed(req)
    ensures r == None <==> Violations(req) == []
    ensures r.Some? ==> Violations(req) != [] && r.value == Violations(req)[0]
  {
    if req.quantity <= 0.0 then Some(NonPositiveQuantity)
    else if req.symbol == "" then Some(MissingSymbol)
    else if !IsSide(req.side) then Some(InvalidSide(req.side))
    else if !IsOrderType(req.orderType) then Some(InvalidOrderType(req.orderType))
    else None
  }

  /** Each check on its own: a request that breaks it is refused with that check's error
      unless an earlier check already refused it. */
  lemma EachCheckRejects(req: OrderRequest)
    ensures req.quantity <= 0.0 ==> ValidateOrderRequest(req) == Some(NonPositiveQuantity)
    ensures req.quantity > 0.0 && req.symbol == "" ==> ValidateOrderRequest(req) == Some(MissingSymbol)
    ensures req.quantity > 0.0 && req.symbol != "" && !IsSide(req.side)
      ==> ValidateOrderRequest(req) == Some(InvalidSide(req.side))
    ensures req.quantity > 0.0 && req.symbol != "" && IsSide(req.side) && !IsOrderType(req.orderType)
      ==> ValidateOrderRequest(req) == Some(InvalidOrderType(req.orderType))
  {
  }
}
