/**
 * The order execution engine (internal/execution/order_service.go,
 * SubmitAndExecute) stated as a function from a store and a request to an
 * outcome and a new store. The class in OrderService.dfy performs the same
 * execution as a sequence of in-place writes and is proved equal to it.
 *
 * The store holds the four tables the engine touches: portfolio cash, the
 * positions table, the orders table (an order's id is its row number) and
 * the append-only ledger. Prices come from a map standing for the last-price
 * cache (a missing key is the nil tick). Which database calls fail is a
 * parameter, a set of call sites.
 */
module Execution {
  import opened Wrappers
  import opened Domain
  import opened Risk
  import Positions

  /** The outside calls one execution makes, each of which can return an error. */
  datatype Step =
    | PriceLookup
    | BeginTx
    | LoadPortfolio
    | LoadPosition
    | InsertOrder
    | UpsertPosition
    | ReloadPosition
    | DeletePosition
    | UpdatePositionQty
    | UpdateCash
    | UpdateOrderStatus
    | InsertLedger
    | Commit

  datatype ExecError =
    | Invalid(reason: ValidationError)
    | PriceLookupFailed
    | NoPriceData(symbol: Symbol)
    | PortfolioNotFound(portfolioId: PortfolioId)
    | StoreFailure(step: Step)

  datatype Store = Store(
    cash: map<PortfolioId, real>,
    positions: Positions.Table,
    orders: seq<Order>,
    ledger: seq<LedgerEntry>)

  datatype Outcome = Outcome(result: Result<Order, ExecError>, store: Store)

  const InsufficientFunds: string := "insufficient funds"
  const InsufficientPosition: string := "insufficient position"

  /** What the locked transaction does, decided by the portfolio and position it reads. */
  datatype Plan = RejectFunds | RejectPosition | FillBuy | FillSellClose | FillSellReduce

  function Cost(req: OrderRequest, price: real): real
  {
    price * req.quantity
  }

  function PlanFor(st: Store, req: OrderRequest, price: real): Plan
    requires req.portfolioId in st.cash
  {
    if req.side == SideBuy then
      if st.cash[req.portfolioId] < Cost(req, price) then RejectFunds else FillBuy
    else
      match Positions.GetBySymbol(st.positions, req.portfolioId, req.symbol)
      case None => RejectPosition
      case Some(pos) =>
        if pos.quantity < req.quantity then RejectPosition
        else if pos.quantity - req.quantity == 0.0 then FillSellClose
        else FillSellReduce
  }

  /** The calls a plan makes, in order, once the portfolio row is locked. */
  function Steps(plan: Plan): seq<Step>
  {
    match plan
    case RejectFunds => [InsertOrder, Commit]
    case RejectPosition => [LoadPosition, InsertOrder, Commit]
    case FillBuy => [InsertOrder, UpsertPosition, UpdateCash, UpdateOrderStatus, InsertLedger, Commit]
    case FillSellClose =>
      [LoadPosition, InsertOrder, ReloadPosition, DeletePosition, UpdateCash, UpdateOrderStatus, InsertLedger, Commit]
    case FillSellReduce =>
      [LoadPosition, InsertOrder, ReloadPosition, UpdatePositionQty, UpdateCash, UpdateOrderStatus, InsertLedger, Commit]
  }

  /** The first call of `steps` that fails, if any. */
  function FirstFault(steps: seq<Step>, failing: set<Step>): (r: Option<Step>)
    ensures r.None? <==> forall i :: 0 <= i < |steps| ==> steps[i] !in failing
    ensures r.Some? ==> r.value in failing && r.value in steps
  {
    if steps == [] then None
    else if steps[0] in failing then Some(steps[0])
    else FirstFault(steps[1..], failing)
  }

  /** The failing call a path stops at is the first one along it that fails. */
  lemma {:induction false} FirstFaultAt(steps: seq<Step>, failing: set<Step>, k: nat)
    requires k < |steps| && steps[k] in failing
    requires forall i :: 0 <= i < k ==> steps[i] !in failing
    ensures FirstFault(steps, failing) == Some(steps[k])
  {
    if k > 0 {
      FirstFaultAt(steps[1..], failing, k - 1);
    }
  }

  /** The calls that fail: the given faults, and an upsert whose averaging would divide by zero. */
  function Failing(st: Store, req: OrderRequest, faults: set<Step>): set<Step>
  {
    faults + (if Positions.UpsertDividesByZero(st.positions, req.portfolioId, req.symbol, req.quantity)
              then {UpsertPosition} else {})
  }

  /** The order built from a request once CreateTx has given it an id. */
  function NewOrder(req: OrderRequest, id: OrderId): Order
  {
    Order(id, req.portfolioId, req.symbol, req.side, req.orderType, req.quantity,
          req.limitPrice, None, 0.0, Pending, None)
  }

  /** The row CreateTx stores: reject_reason is not among the columns it writes. */
  function InsertedRow(o: Order): Order
  {
    o.(rejectReason := None)
  }

  /** The state and result a plan commits when none of its calls fails. */
  function Committed(st: Store, req: OrderRequest, price: real, plan: Plan): Outcome
    requires req.portfolioId in st.cash
    requires plan == PlanFor(st, req, price)
    requires plan == FillBuy ==>
      !Positions.UpsertDividesByZero(st.positions, req.portfolioId, req.symbol, req.quantity)
  {
    var id := |st.orders|;
    var p := req.portfolioId;
    var cost := Cost(req, price);
    match plan
    case RejectFunds =>
      var o := NewOrder(req, id).(status := Rejected, rejectReason := Some(InsufficientFunds));
      Outcome(Ok(o), st.(orders := st.orders + [InsertedRow(o)]))
    case RejectPosition =>
      var o := NewOrder(req, id).(status := Rejected, rejectReason := Some(InsufficientPosition));
      Outcome(Ok(o), st.(orders := st.orders + [InsertedRow(o)]))
    case FillBuy =>
      var balance := st.cash[p] - cost;
      var o := NewOrder(req, id).(status := Filled, fillPrice := Some(price), filledQty := req.quantity);
      Outcome(Ok(o), Store(
        st.cash[p := balance],
        Positions.Upsert(st.positions, p, req.symbol, req.quantity, price),
        st.orders + [o],
        st.ledger + [LedgerEntry(p, Some(id), TradeBuy, -cost, balance)]))
    case FillSellClose =>
      var balance := st.cash[p] + cost;
      var o := NewOrder(req, id).(status := Filled, fillPrice := Some(price), filledQty := req.quantity);
      Outcome(Ok(o), Store(
        st.cash[p := balance],
        Positions.Delete(st.positions, p, req.symbol),
        st.orders + [o],
        st.ledger + [LedgerEntry(p, Some(id), TradeSell, cost, balance)]))
    case FillSellReduce =>
      var balance := st.cash[p] + cost;
      var held := st.positions[(p, req.symbol)].quantity;
      var o := NewOrder(req, id).(status := Filled, fillPrice := Some(price), filledQty := req.quantity);
      Outcome(Ok(o), Store(
        st.cash[p := balance],
        Positions.UpdateQty(st.positions, p, req.symbol, held - req.quantity),
        st.orders + [o],
        st.ledger + [LedgerEntry(p, Some(id), TradeSell, cost, balance)]))
  }

  /** SubmitAndExecute, as one atomic step on the store. */
  function Execute(st: Store, req: OrderRequest, prices: map<Symbol, PriceTick>, faults: set<Step>): Outcome
  {
    match ValidateOrderRequest(req)
    case Some(e) => Outcome(Err(Invalid(e)), st)
    case None =>
      if PriceLookup in faults then Outcome(Err(PriceLookupFailed), st)
      else if req.symbol !in prices then Outcome(Err(NoPriceData(req.symbol)), st)
      else if BeginTx in faults then Outcome(Err(StoreFailure(BeginTx)), st)
      else if LoadPortfolio in faults then Outcome(Err(StoreFailure(LoadPortfolio)), st)
      else if req.portfolioId !in st.cash then Outcome(Err(PortfolioNotFound(req.portfolioId)), st)
      else Transact(st, req, prices[req.symbol].price, faults)
  }

  /**
   * The transaction once the portfolio row is locked: the first failing call
   * rolls everything back, otherwise the plan's writes are committed.
   */
  function Transact(st: Store, req: OrderRequest, price: real, faults: set<Step>): Outcome
    requires req.portfolioId in st.cash
  {
    var plan := PlanFor(st, req, price);
    match FirstFault(Steps(plan), Failing(st, req, faults))
    case Some(step) => Outcome(Err(StoreFailure(step)), st)
    case None =>
      assert plan == FillBuy ==> Steps(plan)[1] == UpsertPosition;
      Committed(st, req, price, plan)
  }

  // ---------------------------------------------------------------------
  // The ledger and the invariants an execution keeps

  /** Sum of the ledger amounts booked to portfolio p. */
  function Credited(ledger: seq<LedgerEntry>, p: PortfolioId): real
  {
    if ledger == [] then 0.0
    else Credited(ledger[..|ledger| - 1], p)
         + (if ledger[|ledger| - 1].portfolioId == p then ledger[|ledger| - 1].amount else 0.0)
  }

  lemma CreditedAppend(ledger: seq<LedgerEntry>, e: LedgerEntry, p: PortfolioId)
    ensures Credited(ledger + [e], p) == Credited(ledger, p) + (if e.portfolioId == p then e.amount else 0.0)
  {
    assert (ledger + [e])[..|ledger|] == ledger;
  }

  lemma {:induction false} CreditedOfUnbooked(ledger: seq<LedgerEntry>, p: PortfolioId)
    requires forall i :: 0 <= i < |ledger| ==> ledger[i].portfolioId != p
    ensures Credited(ledger, p) == 0.0
  {
    if ledger != [] {
      CreditedOfUnbooked(ledger[..|ledger| - 1], p);
    }
  }

  /**
   * The store's invariant relative to each portfolio's opening cash:
   * cash is the opening cash plus the portfolio's ledger amounts, every
   * entry's balanceAfter is the running balance after it, every stored
   * position has a positive quantity, and order ids are row numbers.
   */
  predicate Consistent(st: Store, opening: map<PortfolioId, real>)
  {
    && (forall p :: p in st.cash ==> p in opening && st.cash[p] == opening[p] + Credited(st.ledger, p))
    && (forall i :: 0 <= i < |st.ledger| ==>
          st.ledger[i].portfolioId in opening &&
          st.ledger[i].balanceAfter
            == opening[st.ledger[i].portfolioId] + Credited(st.ledger[..i + 1], st.ledger[i].portfolioId))
    && (forall k :: k in st.positions ==> st.positions[k].quantity > 0.0)
    && (forall i :: 0 <= i < |st.orders| ==> st.orders[i].id == i)
  }

  /** Appending one order row keeps the invariant. */
  lemma AppendOrderKeepsConsistency(st: Store, opening: map<PortfolioId, real>, o: Order)
    requires Consistent(st, opening)
    requires o.id == |st.orders|
    ensures Consistent(st.(orders := st.orders + [o]), opening)
  {
  }

  /** A fill's writes (cash, positions, one order row, one ledger entry) keep the invariant. */
  lemma FillKeepsConsistency(st: Store, opening: map<PortfolioId, real>,
                             positions: Positions.Table, o: Order, e: LedgerEntry)
    requires Consistent(st, opening)
    requires e.portfolioId in st.cash
    requires e.balanceAfter == st.cash[e.portfolioId] + e.amount
    requires forall k :: k in positions ==> positions[k].quantity > 0.0
    requires o.id == |st.orders|
    ensures Consistent(Store(st.cash[e.portfolioId := e.balanceAfter], positions,
                             st.orders + [o], st.ledger + [e]), opening)
  {
    var p := e.portfolioId;
    var ledger := st.ledger + [e];
    forall q | q in st.cash
      ensures st.cash[p := e.balanceAfter][q] == opening[q] + Credited(ledger, q)
    {
      CreditedAppend(st.ledger, e, q);
    }
    forall i | 0 <= i < |ledger|
      ensures ledger[i].portfolioId in opening
      ensures ledger[i].balanceAfter
              == opening[ledger[i].portfolioId] + Credited(ledger[..i + 1], ledger[i].portfolioId)
    {
      if i < |st.ledger| {
        assert ledger[..i + 1] == st.ledger[..i + 1];
      } else {
        assert ledger[..i + 1] == ledger;
        CreditedAppend(st.ledger, e, p);
      }
    }
  }

  /** Every execution, whatever its outcome, keeps the store's invariant. */
  lemma ExecutePreservesConsistency(st: Store, opening: map<PortfolioId, real>, req: OrderRequest,
                                    prices: map<Symbol, PriceTick>, faults: set<Step>)
    requires Consistent(st, opening)
    ensures Consistent(Execute(st, req, prices, faults).store, opening)
  {
    if ValidateOrderRequest(req).None? && PriceLookup !in faults && req.symbol in prices
       && BeginTx !in faults && LoadPortfolio !in faults && req.portfolioId in st.cash
    {
      var price := prices[req.symbol].price;
      var plan := PlanFor(st, req, price);
      if FirstFault(Steps(plan), Failing(st, req, faults)).None? {
        assert plan == FillBuy ==> Steps(plan)[1] == UpsertPosition;
        CommitKeepsConsistency(st, opening, req, price, plan);
      }
    }
  }

  /** The writes of every plan, committed, keep the invariant. */
  lemma CommitKeepsConsistency(st: Store, opening: map<PortfolioId, real>, req: OrderRequest, price: real, plan: Plan)
    requires Consistent(st, opening) && WellFormed(req)
    requires req.portfolioId in st.cash
    requires plan == PlanFor(st, req, price)
    requires plan == FillBuy ==>
      !Positions.UpsertDividesByZero(st.positions, req.portfolioId, req.symbol, req.quantity)
    ensures Consistent(Committed(st, req, price, plan).store, opening)
  {
    if plan.RejectFunds? || plan.RejectPosition? {
      AppendOrderKeepsConsistency(st, opening, InsertedRow(Committed(st, req, price, plan).result.value));
    } else {
      FillPlanKeepsConsistency(st, opening, req, price, plan);
    }
  }

  /** The fill half of CommitKeepsConsistency. */
  lemma FillPlanKeepsConsistency(st: Store, opening: map<PortfolioId, real>, req: OrderRequest, price: real, plan: Plan)
    requires Consistent(st, opening) && WellFormed(req)
    requires req.portfolioId in st.cash
    requires plan == PlanFor(st, req, price) && !plan.RejectFunds? && !plan.RejectPosition?
    requires plan == FillBuy ==>
      !Positions.UpsertDividesByZero(st.positions, req.portfolioId, req.symbol, req.quantity)
    ensures Consistent(Committed(st, req, price, plan).store, opening)
  {
    var out := Committed(st, req, price, plan);
    var e := out.store.ledger[|st.ledger|];
    assert out.store.ledger == st.ledger + [e];
    FillLeavesPositivePositions(st, opening, req, price, plan);
    FillKeepsConsistency(st, opening, out.store.positions, out.result.value, e);
  }

  /** After a fill every stored position still holds a positive quantity. */
  lemma FillLeavesPositivePositions(st: Store, opening: map<PortfolioId, real>, req: OrderRequest, price: real, plan: Plan)
    requires Consistent(st, opening) && WellFormed(req)
    requires req.portfolioId in st.cash
    requires plan == PlanFor(st, req, price) && !plan.RejectFunds? && !plan.RejectPosition?
    requires plan == FillBuy ==>
      !Positions.UpsertDividesByZero(st.positions, req.portfolioId, req.symbol, req.quantity)
    ensures forall k :: k in Committed(st, req, price, plan).store.positions ==>
      Committed(st, req, price, plan).store.positions[k].quantity > 0.0
  {
    var key := (req.portfolioId, req.symbol);
    var t := Committed(st, req, price, plan).store.positions;
    forall k | k in t
      ensures t[k].quantity > 0.0
    {
      if k != key {
        assert t[k] == st.positions[k];
      } else if plan == FillSellReduce {
        assert st.positions[key].quantity - req.quantity > 0.0;
      }
    }
  }

  // ---------------------------------------------------------------------
  // What one execution does

  /** Malformed requests and missing quotes fail before the transaction and write nothing;
      every error, before or after the transaction began, leaves the store as it was. */
  lemma RefusalsWriteNothing(st: Store, req: OrderRequest, prices: map<Symbol, PriceTick>, faults: set<Step>)
    ensures var out := Execute(st, req, prices, faults);
      (ValidateOrderRequest(req).Some? ==> out == Outcome(Err(Invalid(ValidateOrderRequest(req).value)), st))
      && (WellFormed(req) && PriceLookup !in faults && req.symbol !in prices
          ==> out == Outcome(Err(NoPriceData(req.symbol)), st))
      && (out.result.Err? ==> out.store == st)
  {
  }

  /** Under the invariant, a valid request meets no failing call when no fault is injected:
      the upsert's divisor is a positive quantity plus a positive quantity. */
  lemma NoFaultsNoFailures(st: Store, opening: map<PortfolioId, real>, req: OrderRequest)
    requires Consistent(st, opening)
    requires WellFormed(req)
    ensures Failing(st, req, {}) == {}
  {
    var key := (req.portfolioId, req.symbol);
    if key in st.positions {
      assert st.positions[key].quantity > 0.0;
    }
  }

  /** A buy is rejected exactly when cash is below price times quantity (equal cash fills);
      a rejection only records the order, a fill debits the cash, upserts the position and
      books one ledger entry of minus the cost. */
  lemma BuyOutcome(st: Store, opening: map<PortfolioId, real>, req: OrderRequest,
                   prices: map<Symbol, PriceTick>)
    requires Consistent(st, opening)
    requires WellFormed(req) && req.side == SideBuy
    requires req.symbol in prices && req.portfolioId in st.cash
    ensures var out := Execute(st, req, prices, {});
      var price := prices[req.symbol].price;
      var cost := Cost(req, price);
      var p := req.portfolioId;
      && out.result.Ok?
      && (out.result.value.status == Rejected <==> st.cash[p] < cost)
      && (st.cash[p] < cost ==>
            && out.result.value.rejectReason == Some(InsufficientFunds)
            && out.store == st.(orders := st.orders + [InsertedRow(out.result.value)]))
      && (st.cash[p] >= cost ==>
            && out.result.value.status == Filled
            && out.result.value.fillPrice == Some(price)
            && out.result.value.filledQty == req.quantity
            && out.store.cash == st.cash[p := st.cash[p] - cost]
            && out.store.cash[p] >= 0.0
            && out.store.positions == Positions.Upsert(st.positions, p, req.symbol, req.quantity, price)
            && out.store.orders == st.orders + [out.result.value]
            && out.store.ledger == st.ledger + [LedgerEntry(p, Some(|st.orders|), TradeBuy, -cost, st.cash[p] - cost)])
  {
    NoFaultsNoFailures(st, opening, req);
  }

  /** A sell is rejected exactly when there is no position or it holds less than the order;
      a fill credits the cost, lowers the held quantity, deletes the row exactly when nothing
      is left, keeps the average cost, and books one ledger entry of plus the cost. */
  lemma SellOutcome(st: Store, opening: map<PortfolioId, real>, req: OrderRequest,
                    prices: map<Symbol, PriceTick>)
    requires Consistent(st, opening)
    requires WellFormed(req) && req.side == SideSell
    requires req.symbol in prices && req.portfolioId in st.cash
    ensures var out := Execute(st, req, prices, {});
      var price := prices[req.symbol].price;
      var cost := Cost(req, price);
      var p := req.portfolioId;
      var key := (p, req.symbol);
      var short := key !in st.positions || st.positions[key].quantity < req.quantity;
      && out.result.Ok?
      && (out.result.value.status == Rejected <==> short)
      && (short ==>
            && out.result.value.rejectReason == Some(InsufficientPosition)
            && out.store == st.(orders := st.orders + [InsertedRow(out.result.value)]))
      && (!short ==>
            && out.result.value.status == Filled
            && out.result.value.fillPrice == Some(price)
            && out.result.value.filledQty == req.quantity
            && out.store.cash == st.cash[p := st.cash[p] + cost]
            && (key in out.store.positions <==> st.positions[key].quantity != req.quantity)
            && (key in out.store.positions ==>
                  out.store.positions[key]
                    == Position(st.positions[key].quantity - req.quantity, st.positions[key].avgCost))
            && (forall k :: k != key ==>
                  (k in out.store.positions <==> k in st.positions) &&
                  (k in st.positions ==> out.store.positions[k] == st.positions[k]))
            && out.store.orders == st.orders + [out.result.value]
            && out.store.ledger == st.ledger + [LedgerEntry(p, Some(|st.orders|), TradeSell, cost, st.cash[p] + cost)])
  {
    NoFaultsNoFailures(st, opening, req);
  }

  /** A fill is priced at the last tick, whatever the order type or limit price. */
  lemma FillsAtLastTick(st: Store, req: OrderRequest, prices: map<Symbol, PriceTick>, faults: set<Step>)
    ensures var out := Execute(st, req, prices, faults);
      out.result.Ok? && out.result.value.status == Filled ==>
        && req.symbol in prices
        && out.result.value.fillPrice == Some(prices[req.symbol].price)
        && out.result.value.filledQty == req.quantity
        && |out.store.ledger| == |st.ledger| + 1
        && var amount := out.store.ledger[|st.ledger|].amount;
           (amount == prices[req.symbol].price * req.quantity || amount == -(prices[req.symbol].price * req.quantity))
  {
  }

  /** A committed plan writes the same for two requests that differ only in type and limit price. */
  lemma CommittedIgnoresOrderType(st: Store, req: OrderRequest, req': OrderRequest, price: real, plan: Plan)
    requires req' == req.(orderType := req'.orderType, limitPrice := req'.limitPrice)
    requires req.portfolioId in st.cash
    requires plan == PlanFor(st, req, price) && plan == PlanFor(st, req', price)
    requires plan == FillBuy ==>
      !Positions.UpsertDividesByZero(st.positions, req.portfolioId, req.symbol, req.quantity)
    ensures var a := Committed(st, req, price, plan);
      var b := Committed(st, req', price, plan);
      && a.store.cash == b.store.cash
      && a.store.positions == b.store.positions
      && a.store.ledger == b.store.ledger
      && a.result.Ok? && b.result.Ok?
      && a.result.value.status == b.result.value.status
      && a.result.value.fillPrice == b.result.value.fillPrice
  {
    assert Cost(req', price) == Cost(req, price);
  }

  /** Changing the order type (to another accepted one) or the limit price changes nothing
      the engine does with cash, positions and the ledger. */
  lemma OrderTypeDoesNotMatter(st: Store, req: OrderRequest, t: string, limit: Option<real>,
                               prices: map<Symbol, PriceTick>, faults: set<Step>)
    requires IsOrderType(req.orderType) && IsOrderType(t)
    ensures var a := Execute(st, req, prices, faults);
      var b := Execute(st, req.(orderType := t, limitPrice := limit), prices, faults);
      && a.store.cash == b.store.cash
      && a.store.positions == b.store.positions
      && a.store.ledger == b.store.ledger
      && a.result.Ok? == b.result.Ok?
      && (a.result.Ok? ==> a.result.value.status == b.result.value.status
                           && a.result.value.fillPrice == b.result.value.fillPrice)
  {
    var req' := req.(orderType := t, limitPrice := limit);
    assert ValidateOrderRequest(req') == ValidateOrderRequest(req);
    if ValidateOrderRequest(req).None? && PriceLookup !in faults && req.symbol in prices
       && BeginTx !in faults && LoadPortfolio !in faults && req.portfolioId in st.cash
    {
      var price := prices[req.symbol].price;
      var plan := PlanFor(st, req, price);
      assert PlanFor(st, req', price) == plan;
      assert Failing(st, req', faults) == Failing(st, req, faults);
      if FirstFault(Steps(plan), Failing(st, req, faults)).None? {
        assert plan == FillBuy ==> Steps(plan)[1] == UpsertPosition;
        CommittedIgnoresOrderType(st, req, req', price, plan);
      }
    }
  }

  /** The orders table and the ledger only grow: an accepted request adds one order row and a
      fill adds one ledger entry; nothing already stored is rewritten. */
  lemma TablesAreAppendOnly(st: Store, req: OrderRequest, prices: map<Symbol, PriceTick>, faults: set<Step>)
    ensures var out := Execute(st, req, prices, faults);
      && |out.store.orders| == |st.orders| + (if out.result.Ok? then 1 else 0)
      && out.store.orders[..|st.orders|] == st.orders
      && |out.store.ledger| == |st.ledger| + (if out.result.Ok? && out.result.value.status == Filled then 1 else 0)
      && out.store.ledger[..|st.ledger|] == st.ledger
  {
    var out := Execute(st, req, prices, faults);
    assert out.store.orders[..|st.orders|] == st.orders;
    assert out.store.ledger[..|st.ledger|] == st.ledger;
  }

  /** With non-negative prices, no execution takes any portfolio's cash below zero. */
  lemma CashStaysNonNegative(st: Store, req: OrderRequest, prices: map<Symbol, PriceTick>, faults: set<Step>)
    requires forall p :: p in st.cash ==> st.cash[p] >= 0.0
    requires req.symbol in prices ==> prices[req.symbol].price >= 0.0
    ensures var out := Execute(st, req, prices, faults);
      forall p :: p in out.store.cash ==> out.store.cash[p] >= 0.0
  {
    var out := Execute(st, req, prices, faults);
    if out.store.cash != st.cash {
      assert req.quantity > 0.0;
      assert prices[req.symbol].price * req.quantity >= 0.0;
    }
  }

  // ---------------------------------------------------------------------
  // Runs of executions

  /** A new portfolio, as registration creates it: the starting cash and no ledger entry. */
  function OpenPortfolio(st: Store, p: PortfolioId): Store
  {
    st.(cash := st.cash[p := StartingCash])
  }

  lemma OpenPortfolioKeepsConsistency(st: Store, opening: map<PortfolioId, real>, p: PortfolioId)
    requires Consistent(st, opening)
    requires p !in opening
    ensures Consistent(OpenPortfolio(st, p), opening[p := StartingCash])
    ensures OpenPortfolio(st, p).cash[p] == StartingCash
  {
    var opening' := opening[p := StartingCash];
    CreditedOfUnbooked(st.ledger, p);
    forall i | 0 <= i < |st.ledger|
      ensures st.ledger[i].balanceAfter
              == opening'[st.ledger[i].portfolioId] + Credited(st.ledger[..i + 1], st.ledger[i].portfolioId)
    {
      assert st.ledger[i].portfolioId != p;
    }
  }

  /** One submission: a request with the quotes and failures it meets. */
  datatype Submission = Submission(req: OrderRequest, prices: map<Symbol, PriceTick>, faults: set<Step>)

  /** Executions applied one after another, as the portfolio row lock serialises them. */
  function ExecuteAll(st: Store, run: seq<Submission>): Store
    decreases |run|
  {
    if run == [] then st
    else ExecuteAll(Execute(st, run[0].req, run[0].prices, run[0].faults).store, run[1..])
  }

  /** Over any run of executions each portfolio's cash equals its opening cash plus the sum
      of its ledger amounts, and the other invariants hold throughout. */
  lemma {:induction false} RunsReconcile(st: Store, opening: map<PortfolioId, real>, run: seq<Submission>)
    requires Consistent(st, opening)
    ensures Consistent(ExecuteAll(st, run), opening)
    ensures var end := ExecuteAll(st, run);
      forall p :: p in end.cash ==> end.cash[p] == opening[p] + Credited(end.ledger, p)
    decreases |run|
  {
    if run != [] {
      ExecutePreservesConsistency(st, opening, run[0].req, run[0].prices, run[0].faults);
      RunsReconcile(Execute(st, run[0].req, run[0].prices, run[0].faults).store, opening, run[1..]);
    }
  }

  /** Two buys on one portfolio that are each affordable but not together: once serialised,
      the first fills, the second is rejected, and cash never goes negative. */
  lemma SerializedBuysCannotOverspend(st: Store, opening: map<PortfolioId, real>,
                                      first: OrderRequest, second: OrderRequest,
                                      prices: map<Symbol, PriceTick>)
    requires Consistent(st, opening)
    requires WellFormed(first) && first.side == SideBuy && WellFormed(second) && second.side == SideBuy
    requires first.portfolioId == second.portfolioId && first.portfolioId in st.cash
    requires first.symbol in prices && second.symbol in prices
    requires var cash := st.cash[first.portfolioId];
      var c1 := Cost(first, prices[first.symbol].price);
      var c2 := Cost(second, prices[second.symbol].price);
      c1 <= cash && c2 <= cash && c1 + c2 > cash
    ensures var a := Execute(st, first, prices, {});
      var b := Execute(a.store, second, prices, {});
      && a.result.Ok? && a.result.value.status == Filled
      && b.result.Ok? && b.result.value.status == Rejected
      && b.store.cash[first.portfolioId] >= 0.0
  {
    var a := Execute(st, first, prices, {});
    BuyOutcome(st, opening, first, prices);
    ExecutePreservesConsistency(st, opening, first, prices, {});
    BuyOutcome(a.store, opening, second, prices);
  }
}
