/**
 * The order service and the repository calls it makes, as a class over the
 * four tables (internal/execution/order_service.go and the postgres
 * repositories). SubmitAndExecute issues the source's writes one by one in
 * place; every error after the transaction began restores the tables as
 * they were when it began, which is what the deferred rollback achieves.
 * Its postcondition ties the outcome and the final tables to
 * Execution.Execute, about which the properties are proved.
 */
module OrderService {
  import opened Wrappers
  import opened Domain
  import opened Risk
  import Positions
  import opened Execution

  class TradingStore {
    var cash: map<PortfolioId, real>
    var positions: Positions.Table
    var orders: seq<Order>
    var ledger: seq<LedgerEntry>
    /** The cash each portfolio was opened with, outside the ledger. */
    ghost var opening: map<PortfolioId, real>

    function State(): Store
      reads this
    {
      Store(cash, positions, orders, ledger)
    }

    ghost predicate Valid()
      reads this
    {
      Consistent(State(), opening)
    }

    constructor ()
      ensures Valid()
      ensures State() == Store(map[], map[], [], []) && opening == map[]
    {
      cash, positions, orders, ledger := map[], map[], [], [];
      opening := map[];
    }

    /** Registration opens a portfolio with the starting cash (gateway/rest_handlers.go). */
    method CreatePortfolio(p: PortfolioId)
      requires Valid() && p !in opening
      modifies this
      ensures Valid()
      ensures State() == OpenPortfolio(old(State()), p)
      ensures opening == old(opening)[p := StartingCash]
    {
      OpenPortfolioKeepsConsistency(State(), opening, p);
      cash := cash[p := StartingCash];
      opening := opening[p := StartingCash];
    }

    // -- portfolio_repo.go

    /** GetByIDForUpdateTx: the portfolio's cash, or an error when the row is missing. */
    method GetByIdForUpdate(p: PortfolioId, faults: set<Step>) returns (r: Result<real, ExecError>)
      ensures LoadPortfolio in faults ==> r == Err(StoreFailure(LoadPortfolio))
      ensures LoadPortfolio !in faults && p !in cash ==> r == Err(PortfolioNotFound(p))
      ensures LoadPortfolio !in faults && p in cash ==> r == Ok(cash[p])
    {
      if LoadPortfolio in faults {
        r := Err(StoreFailure(LoadPortfolio));
      } else if p !in cash {
        r := Err(PortfolioNotFound(p));
      } else {
        r := Ok(cash[p]);
      }
    }

    /** UpdateCashBalanceTx: an UPDATE of one row; a missing row is left missing. */
    method UpdateCashBalance(p: PortfolioId, newBalance: real, faults: set<Step>) returns (ok: bool)
      modifies this`cash
      ensures ok == (UpdateCash !in faults)
      ensures cash == if ok && p in old(cash) then old(cash)[p := newBalance] else old(cash)
    {
      ok := UpdateCash !in faults;
      if ok && p in cash {
        cash := cash[p := newBalance];
      }
    }

    // -- position_repo.go

    /** GetBySymbolTx, called at the given step. */
    method GetPosition(p: PortfolioId, s: Symbol, step: Step, faults: set<Step>)
      returns (r: Result<Option<Position>, ExecError>)
      ensures step in faults ==> r == Err(StoreFailure(step))
      ensures step !in faults ==> r == Ok(Positions.GetBySymbol(positions, p, s))
    {
      if step in faults {
        r := Err(StoreFailure(step));
      } else {
        r := Ok(Positions.GetBySymbol(positions, p, s));
      }
    }

    /** UpsertTx; the database refuses an average whose divisor is zero. */
    method Upsert(p: PortfolioId, s: Symbol, qty: real, price: real, faults: set<Step>)
      returns (ok: bool)
      modifies this`positions
      ensures ok == (UpsertPosition !in faults && !Positions.UpsertDividesByZero(old(positions), p, s, qty))
      ensures ok ==> positions == Positions.Upsert(old(positions), p, s, qty, price)
      ensures !ok ==> positions == old(positions)
    {
      ok := UpsertPosition !in faults && !Positions.UpsertDividesByZero(positions, p, s, qty);
      if ok {
        positions := Positions.Upsert(positions, p, s, qty, price);
      }
    }

    /** UpdateQtyTx. */
    method UpdateQty(p: PortfolioId, s: Symbol, newQty: real, faults: set<Step>) returns (ok: bool)
      modifies this`positions
      ensures ok == (UpdatePositionQty !in faults)
      ensures positions == if ok then Positions.UpdateQty(old(positions), p, s, newQty) else old(positions)
    {
      ok := UpdatePositionQty !in faults;
      if ok {
        positions := Positions.UpdateQty(positions, p, s, newQty);
      }
    }

    /** DeleteTx. */
    method Delete(p: PortfolioId, s: Symbol, faults: set<Step>) returns (ok: bool)
      modifies this`positions
      ensures ok == (DeletePosition !in faults)
      ensures positions == if ok then Positions.Delete(old(positions), p, s) else old(positions)
    {
      ok := DeletePosition !in faults;
      if ok {
        positions := Positions.Delete(positions, p, s);
      }
    }

    // -- order_repo.go

    /** CreateTx: gives the order the next id and stores the columns it writes. */
    method CreateOrder(o: Order, faults: set<Step>) returns (ok: bool, id: OrderId)
      modifies this`orders
      ensures id == |old(orders)|
      ensures ok == (InsertOrder !in faults)
      ensures orders == if ok then old(orders) + [InsertedRow(o.(id := id))] else old(orders)
    {
      id := |orders|;
      ok := InsertOrder !in faults;
      if ok {
        orders := orders + [InsertedRow(o.(id := id))];
      }
    }

    /** UpdateStatusTx: sets status, fill price and filled quantity of one order row. */
    method UpdateStatus(id: OrderId, status: OrderStatus, fillPrice: real, filledQty: real,
                             faults: set<Step>) returns (ok: bool)
      modifies this`orders
      ensures ok == (UpdateOrderStatus !in faults)
      ensures orders == if ok && id < |old(orders)|
        then old(orders)[id := old(orders)[id].(status := status, fillPrice := Some(fillPrice), filledQty := filledQty)]
        else old(orders)
    {
      ok := UpdateOrderStatus !in faults;
      if ok && id < |orders| {
        orders := orders[id := orders[id].(status := status, fillPrice := Some(fillPrice), filledQty := filledQty)];
      }
    }

    // -- ledger_repo.go

    /** InsertTx: appends one entry. */
    method InsertLedgerEntry(e: LedgerEntry, faults: set<Step>) returns (ok: bool)
      modifies this`ledger
      ensures ok == (InsertLedger !in faults)
      ensures ledger == if ok then old(ledger) + [e] else old(ledger)
    {
      ok := InsertLedger !in faults;
      if ok {
        ledger := ledger + [e];
      }
    }

    /** The deferred rollback: the tables return to what they held when the transaction began. */
    method Rollback(snapshot: Store)
      modifies this`cash, this`positions, this`orders, this`ledger
      ensures State() == snapshot
    {
      cash, positions, orders, ledger := snapshot.cash, snapshot.positions, snapshot.orders, snapshot.ledger;
    }

    /**
     * SubmitAndExecute: validation and the price lookup happen before the
     * transaction; everything after BeginTx runs inside it.
     */
    method SubmitAndExecute(req: OrderRequest, prices: map<Symbol, PriceTick>, faults: set<Step>)
      returns (result: Result<Order, ExecError>)
      requires Valid()
      modifies this`cash, this`positions, this`orders, this`ledger
      ensures Valid()
      ensures Outcome(result, State()) == Execute(old(State()), req, prices, faults)
    {
      ExecutePreservesConsistency(State(), opening, req, prices, faults);
      var invalid := ValidateOrderRequest(req);
      if invalid.Some? {
        return Err(Invalid(invalid.value));
      }
      if PriceLookup in faults {
        return Err(PriceLookupFailed);
      }
      if req.symbol !in prices {
        return Err(NoPriceData(req.symbol));
      }
      var fillPrice := prices[req.symbol].price;
      if BeginTx in faults {
        return Err(StoreFailure(BeginTx));
      }
      var portfolio := GetByIdForUpdate(req.portfolioId, faults);
      if portfolio.Err? {
        return Err(portfolio.error);
      }
      if req.side == SideBuy {
        result := BuyInTx(req, fillPrice, portfolio.value, faults);
      } else {
        result := SellInTx(req, fillPrice, portfolio.value, faults);
      }
    }

    /**
     * A rejected order is stored and committed; nothing else is written.
     * On an error the tables are restored to snapshot.
     */
    method StoreRejection(order: Order, faults: set<Step>, snapshot: Store)
      returns (result: Result<Order, ExecError>)
      requires State() == snapshot
      modifies this`cash, this`positions, this`orders, this`ledger
      ensures InsertOrder in faults ==> result == Err(StoreFailure(InsertOrder))
      ensures InsertOrder !in faults && Commit in faults ==> result == Err(StoreFailure(Commit))
      ensures InsertOrder !in faults && Commit !in faults ==> result == Ok(order.(id := |snapshot.orders|))
      ensures State() == if result.Ok?
        then snapshot.(orders := snapshot.orders + [InsertedRow(order.(id := |snapshot.orders|))])
        else snapshot
    {
      var ok, id := CreateOrder(order, faults);
      if !ok {
        return Err(StoreFailure(InsertOrder));
      }
      if Commit in faults {
        Rollback(snapshot);
        return Err(StoreFailure(Commit));
      }
      return Ok(order.(id := id));
    }

    /**
     * The writes common to both fills once the position is written: the new
     * cash balance, the order's fill, the ledger entry and the commit. On an
     * error the tables are restored to snapshot.
     */
    method FinishFill(order: Order, fillPrice: real, newBalance: real, entryType: EntryType, amount: real,
                      faults: set<Step>, snapshot: Store)
      returns (result: Result<Order, ExecError>)
      requires order.portfolioId in cash && order.id < |orders|
      modifies this`cash, this`positions, this`orders, this`ledger
      ensures UpdateCash in faults ==> result == Err(StoreFailure(UpdateCash))
      ensures UpdateCash !in faults && UpdateOrderStatus in faults ==> result == Err(StoreFailure(UpdateOrderStatus))
      ensures UpdateCash !in faults && UpdateOrderStatus !in faults && InsertLedger in faults ==>
        result == Err(StoreFailure(InsertLedger))
      ensures UpdateCash !in faults && UpdateOrderStatus !in faults && InsertLedger !in faults && Commit in faults ==>
        result == Err(StoreFailure(Commit))
      ensures result.Ok? <==>
        UpdateCash !in faults && UpdateOrderStatus !in faults && InsertLedger !in faults && Commit !in faults
      ensures result.Err? ==> State() == snapshot
      ensures result.Ok? ==>
        var filled := order.(status := Filled, fillPrice := Some(fillPrice), filledQty := order.quantity);
        && result == Ok(filled)
        && cash == old(cash)[order.portfolioId := newBalance]
        && positions == old(positions)
        && orders == old(orders)[order.id := old(orders)[order.id].(status := Filled, fillPrice := Some(fillPrice), filledQty := order.quantity)]
        && ledger == old(ledger) + [LedgerEntry(order.portfolioId, Some(order.id), entryType, amount, newBalance)]
    {
      var ok := UpdateCashBalance(order.portfolioId, newBalance, faults);
      if !ok {
        Rollback(snapshot);
        return Err(StoreFailure(UpdateCash));
      }
      ok := UpdateStatus(order.id, Filled, fillPrice, order.quantity, faults);
      if !ok {
        Rollback(snapshot);
        return Err(StoreFailure(UpdateOrderStatus));
      }
      var entry := LedgerEntry(order.portfolioId, Some(order.id), entryType, amount, newBalance);
      ok := InsertLedgerEntry(entry, faults);
      if !ok {
        Rollback(snapshot);
        return Err(StoreFailure(InsertLedger));
      }
      if Commit in faults {
        Rollback(snapshot);
        return Err(StoreFailure(Commit));
      }
      return Ok(order.(status := Filled, fillPrice := Some(fillPrice), filledQty := order.quantity));
    }

    /** The buy branch, with the portfolio row locked and its cash read. */
    method BuyInTx(req: OrderRequest, fillPrice: real, balance: real, faults: set<Step>)
      returns (result: Result<Order, ExecError>)
      requires req.side == SideBuy
      requires req.portfolioId in cash && balance == cash[req.portfolioId]
      modifies this`cash, this`positions, this`orders, this`ledger
      ensures Outcome(result, State()) == Transact(old(State()), req, fillPrice, faults)
    {
      var snapshot := State();
      ghost var steps := Steps(PlanFor(snapshot, req, fillPrice));
      ghost var failing := Failing(snapshot, req, faults);
      var cost := Cost(req, fillPrice);
      var order := NewOrder(req, 0);
      if balance < cost {
        order := order.(status := Rejected, rejectReason := Some(InsufficientFunds));
        result := StoreRejection(order, faults, snapshot);
        if InsertOrder in faults {
          FirstFaultAt(steps, failing, 0);
        } else if Commit in faults {
          FirstFaultAt(steps, failing, 1);
        }
        return;
      }
      var ok, id := CreateOrder(order, faults);
      if !ok {
        FirstFaultAt(steps, failing, 0);
        return Err(StoreFailure(InsertOrder));
      }
      ok := Upsert(req.portfolioId, req.symbol, req.quantity, fillPrice, faults);
      if !ok {
        FirstFaultAt(steps, failing, 1);
        Rollback(snapshot);
        return Err(StoreFailure(UpsertPosition));
      }
      result := CompleteBuy(req, fillPrice, balance, faults, snapshot, id);
    }

    /** The writes of an affordable buy after its position row: cash, fill, ledger and commit. */
    method CompleteBuy(req: OrderRequest, fillPrice: real, balance: real, faults: set<Step>,
                       snapshot: Store, id: OrderId)
      returns (result: Result<Order, ExecError>)
      requires req.side == SideBuy
      requires req.portfolioId in snapshot.cash && balance == snapshot.cash[req.portfolioId]
      requires balance >= Cost(req, fillPrice)
      requires InsertOrder !in faults && UpsertPosition !in faults
      requires !Positions.UpsertDividesByZero(snapshot.positions, req.portfolioId, req.symbol, req.quantity)
      requires id == |snapshot.orders|
      requires cash == snapshot.cash && ledger == snapshot.ledger
      requires orders == snapshot.orders + [InsertedRow(NewOrder(req, id))]
      requires positions == Positions.Upsert(snapshot.positions, req.portfolioId, req.symbol, req.quantity, fillPrice)
      modifies this`cash, this`positions, this`orders, this`ledger
      ensures Outcome(result, State()) == Transact(snapshot, req, fillPrice, faults)
    {
      assert PlanFor(snapshot, req, fillPrice) == FillBuy;
      ghost var steps := Steps(FillBuy);
      ghost var failing := Failing(snapshot, req, faults);
      var cost := Cost(req, fillPrice);
      result := FinishFill(NewOrder(req, id), fillPrice, balance - cost, TradeBuy, -cost, faults, snapshot);
      FillFaults(steps, failing, faults, 2);
      if result.Ok? {
        var filled := NewOrder(req, id).(status := Filled, fillPrice := Some(fillPrice), filledQty := req.quantity);
        assert orders == snapshot.orders + [filled];
      }
    }

    /** The sell branch, with the portfolio row locked and its cash read. */
    method SellInTx(req: OrderRequest, fillPrice: real, balance: real, faults: set<Step>)
      returns (result: Result<Order, ExecError>)
      requires req.side != SideBuy
      requires req.portfolioId in cash && balance == cash[req.portfolioId]
      modifies this`cash, this`positions, this`orders, this`ledger
      ensures Outcome(result, State()) == Transact(old(State()), req, fillPrice, faults)
    {
      var snapshot := State();
      ghost var steps := Steps(PlanFor(snapshot, req, fillPrice));
      ghost var failing := Failing(snapshot, req, faults);
      var pos := GetPosition(req.portfolioId, req.symbol, LoadPosition, faults);
      if pos.Err? {
        FirstFaultAt(steps, failing, 0);
        return Err(pos.error);
      }
      if pos.value.None? || pos.value.value.quantity < req.quantity {
        var order := NewOrder(req, 0).(status := Rejected, rejectReason := Some(InsufficientPosition));
        result := StoreRejection(order, faults, snapshot);
        if InsertOrder in faults {
          FirstFaultAt(steps, failing, 1);
        } else if Commit in faults {
          FirstFaultAt(steps, failing, 2);
        }
        return;
      }
      result := SellFillInTx(req, fillPrice, balance, faults);
    }

    /** The position write of a sell: the row is deleted when nothing is left, else its quantity is lowered. */
    method ReducePosition(p: PortfolioId, s: Symbol, newQty: real, faults: set<Step>) returns (ok: bool)
      modifies this`positions
      ensures ok == ((if newQty == 0.0 then DeletePosition else UpdatePositionQty) !in faults)
      ensures positions == if !ok then old(positions)
        else if newQty == 0.0 then Positions.Delete(old(positions), p, s)
        else Positions.UpdateQty(old(positions), p, s, newQty)
    {
      if newQty == 0.0 {
        ok := Delete(p, s, faults);
      } else {
        ok := UpdateQty(p, s, newQty, faults);
      }
    }

    /** The sell branch once the position is known to cover the quantity. */
    method SellFillInTx(req: OrderRequest, fillPrice: real, balance: real, faults: set<Step>)
      returns (result: Result<Order, ExecError>)
      requires req.side != SideBuy && LoadPosition !in faults
      requires req.portfolioId in cash && balance == cash[req.portfolioId]
      requires (req.portfolioId, req.symbol) in positions
      requires positions[(req.portfolioId, req.symbol)].quantity >= req.quantity
      modifies this`cash, this`positions, this`orders, this`ledger
      ensures Outcome(result, State()) == Transact(old(State()), req, fillPrice, faults)
    {
      var snapshot := State();
      ghost var steps := Steps(PlanFor(snapshot, req, fillPrice));
      ghost var failing := Failing(snapshot, req, faults);
      var order := NewOrder(req, 0);
      var ok, id := CreateOrder(order, faults);
      if !ok {
        FirstFaultAt(steps, failing, 1);
        return Err(StoreFailure(InsertOrder));
      }
      var again := GetPosition(req.portfolioId, req.symbol, ReloadPosition, faults);
      if again.Err? {
        FirstFaultAt(steps, failing, 2);
        Rollback(snapshot);
        return Err(again.error);
      }
      var newQty := again.value.value.quantity - req.quantity;
      ghost var plan := if newQty == 0.0 then FillSellClose else FillSellReduce;
      assert PlanFor(snapshot, req, fillPrice) == plan;
      ok := ReducePosition(req.portfolioId, req.symbol, newQty, faults);
      if !ok {
        FirstFaultAt(steps, failing, 3);
        Rollback(snapshot);
        return Err(StoreFailure(if newQty == 0.0 then DeletePosition else UpdatePositionQty));
      }
      result := CompleteSell(req, fillPrice, balance, faults, snapshot, id, newQty);
    }

    /** The writes of a covered sell after its position row: cash, fill, ledger and commit. */
    method CompleteSell(req: OrderRequest, fillPrice: real, balance: real, faults: set<Step>,
                        snapshot: Store, id: OrderId, newQty: real)
      returns (result: Result<Order, ExecError>)
      requires req.side != SideBuy
      requires req.portfolioId in snapshot.cash && balance == snapshot.cash[req.portfolioId]
      requires (req.portfolioId, req.symbol) in snapshot.positions
      requires snapshot.positions[(req.portfolioId, req.symbol)].quantity >= req.quantity
      requires newQty == snapshot.positions[(req.portfolioId, req.symbol)].quantity - req.quantity
      requires LoadPosition !in faults && InsertOrder !in faults && ReloadPosition !in faults
      requires (if newQty == 0.0 then DeletePosition else UpdatePositionQty) !in faults
      requires id == |snapshot.orders|
      requires cash == snapshot.cash && ledger == snapshot.ledger
      requires orders == snapshot.orders + [InsertedRow(NewOrder(req, id))]
      requires positions == if newQty == 0.0
        then Positions.Delete(snapshot.positions, req.portfolioId, req.symbol)
        else Positions.UpdateQty(snapshot.positions, req.portfolioId, req.symbol, newQty)
      modifies this`cash, this`positions, this`orders, this`ledger
      ensures Outcome(result, State()) == Transact(snapshot, req, fillPrice, faults)
    {
      ghost var plan := if newQty == 0.0 then FillSellClose else FillSellReduce;
      assert PlanFor(snapshot, req, fillPrice) == plan;
      ghost var steps := Steps(plan);
      ghost var failing := Failing(snapshot, req, faults);
      var cost := Cost(req, fillPrice);
      result := FinishFill(NewOrder(req, id), fillPrice, balance + cost, TradeSell, cost, faults, snapshot);
      FillFaults(steps, failing, faults, 4);
      if result.Ok? {
        var filled := NewOrder(req, id).(status := Filled, fillPrice := Some(fillPrice), filledQty := req.quantity);
        assert orders == snapshot.orders + [filled];
      }
    }
  }

  /** Every fill path ends with the same four calls; the first of them to fail is the one reported. */
  lemma FillFaults(steps: seq<Step>, failing: set<Step>, faults: set<Step>, m: nat)
    requires m + 4 == |steps|
    requires steps[m..] == [UpdateCash, UpdateOrderStatus, InsertLedger, Commit]
    requires forall i :: 0 <= i < m ==> steps[i] !in failing
    requires forall i :: m <= i < |steps| ==> (steps[i] in failing <==> steps[i] in faults)
    ensures UpdateCash in faults ==> FirstFault(steps, failing) == Some(UpdateCash)
    ensures UpdateCash !in faults && UpdateOrderStatus in faults ==>
      FirstFault(steps, failing) == Some(UpdateOrderStatus)
    ensures UpdateCash !in faults && UpdateOrderStatus !in faults && InsertLedger in faults ==>
      FirstFault(steps, failing) == Some(InsertLedger)
    ensures UpdateCash !in faults && UpdateOrderStatus !in faults && InsertLedger !in faults && Commit in faults ==>
      FirstFault(steps, failing) == Some(Commit)
    ensures UpdateCash !in faults && UpdateOrderStatus !in faults && InsertLedger !in faults && Commit !in faults ==>
      FirstFault(steps, failing) == None
  {
    assert steps[m] == UpdateCash && steps[m + 1] == UpdateOrderStatus;
    assert steps[m + 2] == InsertLedger && steps[m + 3] == Commit;
    if UpdateCash in faults {
      FirstFaultAt(steps, failing, m);
    } else if UpdateOrderStatus in faults {
      FirstFaultAt(steps, failing, m + 1);
    } else if InsertLedger in faults {
      FirstFaultAt(steps, failing, m + 2);
    } else if Commit in faults {
      FirstFaultAt(steps, failing, m + 3);
    }
  }
}
