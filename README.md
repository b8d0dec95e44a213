# A verified model of the paper-trader backend's core

paper-trader is a paper-trading backend written in Go. This project models its four pieces of sequential logic in Dafny and proves properties of them.

- **Order execution** (`execution/order_service.go`, `execution/risk.go`, and the postgres repositories it calls). `Execution.Execute` states `SubmitAndExecute` as one atomic step on a store. The store has four tables:
  - portfolio cash;
  - positions, keyed by (portfolio, symbol);
  - orders, where an order's id is its row number;
  - the append-only ledger.

  `OrderService.TradingStore` performs the same run. It makes the source's writes one by one on fields it updates in place, and every error after the transaction begins restores the fields to the snapshot taken at `BeginTx`. Its `SubmitAndExecute` is proved to end in the state and result that `Execute` gives. The lemmas about `Execute` state:
  - the reject and fill rules;
  - rollback;
  - the weighted-average cost;
  - that cash always equals opening cash plus ledger amounts.

  The inputs are parameters:
  - The last-price cache is a map from symbol to `PriceTick`; a missing key is the nil tick.
  - Which database calls fail is a set of call sites, `faults`.
- **The WebSocket hub** (`gateway/ws_hub.go`). `HubModel` describes each `Run` case and `fanOut` as a function on a `HubState`, which holds:
  - `clients`, `subs` and `redisCancels`;
  - one `Bridge` record per `pumpRedis` goroutine, live or cancelled;
  - each client's send channel, a queue of at most 256 payloads, plus the set of closed channels.

  `WsHub.Hub` is the same hub as a class whose methods update those maps in place. Its subscribe case carries the correction described under Findings.
- **Client command translation** (`gateway/ws_client.go`). `readPump` turns each frame into hub commands, and `ServeWS` attaches a send channel and registers the client.
- **Market-data ingestion** (`ingestion/alpaca_client.go`). This covers:
  - the reconnect loop and its doubling backoff;
  - the auth check;
  - the filter that turns trade messages into `PriceTick`s.

  What the network does in one connection is a `Session` value.

Amounts and quantities are exact `real`s, and identifiers are natural numbers.

Two behaviours of the code differ from what a reader might expect. The model follows the code in both:
- One might expect a rejected order's row to record why it was rejected. It does not: `CreateTx` (`repository/postgres/order_repo.go:20-31`) never writes `reject_reason`. Only the order returned to the caller carries the reason.
- One might expect a reconnect after a working session to start again from a one-second backoff. In fact the backoff resets only when `connect` returns nil:
  - A failed auth returns nil, so `Run` reconnects at once with the backoff reset.
  - A streaming session that ends with a read error counts as a failure, so the backoff keeps growing.

A third behaviour is reproduced as written. The register and unregister channels are buffered (`gateway/ws_hub.go:35-36`), and `Run`'s select picks among the ready cases, so it can take a client's unregister before its register. The unregister is then a no-op (`ws_hub.go:52`), and the register keeps the client in `clients` from then on. This is a leak, not a crash: the client stays registered and its channel is never closed, so nothing is ever sent on a closed channel.

## Model

| member | source | states |
|---|---|---|
| Risk.ValidateOrderRequest | paper-trader/internal/execution/risk.go:9-27 | The request is accepted iff quantity > 0, the symbol is non-empty, the side is buy/sell and the type is market/limit/stop/stop_limit. Otherwise the error is the first broken rule in the order quantity, symbol, side, type. |
| Risk.EachCheckRejects | paper-trader/internal/execution/risk.go:10-25 | Each of the four checks alone rejects with its own error once the earlier checks have passed. |
| Positions.GetBySymbol | paper-trader/internal/repository/postgres/position_repo.go:31-42 | A missing (portfolio, symbol) row yields "no position", not an error. A present row is returned as stored. |
| Positions.Upserted | paper-trader/internal/repository/postgres/position_repo.go:46-53 | With no row, the result is (qty, price). With a row, the quantity adds up and quantity × avgCost equals the sum of the two lots' quantity × cost. |
| Positions.Upsert | paper-trader/internal/repository/postgres/position_repo.go:44-56 | The key set gains exactly (portfolio, symbol), that row becomes the upserted row, and every other row is unchanged. There is one row per conflict key. |
| Positions.UpdateQty | paper-trader/internal/repository/postgres/position_repo.go:58-63 | Only the quantity of that one row changes; other rows and the key set stay the same. |
| Positions.Delete | paper-trader/internal/repository/postgres/position_repo.go:65-70 | Exactly that row is removed, and all other rows are unchanged. |
| Positions.AvgCostBetween | paper-trader/internal/repository/postgres/position_repo.go:51-52 | For positive lots, the re-averaged cost lies between the held average and the new price. |
| Execution.FirstFault | paper-trader/internal/execution/order_service.go:102-158 | The failing call reported is one of the path's calls that fails, and there is none exactly when no call on the path fails. |
| Execution.FirstFaultAt | paper-trader/internal/execution/order_service.go:102-158 | A path stops at the first of its calls that fails. |
| Execution.RefusalsWriteNothing | paper-trader/internal/execution/order_service.go:42-68 | An invalid request returns its validation error and a missing tick returns "no price data"; in both cases, and for every other error, the store is unchanged. |
| Execution.FillsAtLastTick | paper-trader/internal/execution/order_service.go:54-55 | A fill is priced at the last tick with filledQty = quantity and books exactly one ledger entry of ± price × quantity. |
| Execution.OrderTypeDoesNotMatter | paper-trader/internal/execution/order_service.go:54-55 | Switching to another accepted order type or limit price changes neither cash, positions, ledger, status nor fill price. |
| Execution.CommittedIgnoresOrderType | paper-trader/internal/execution/order_service.go:54-55 | Once the transaction commits, two requests differing only in order type and limit price leave equal cash, positions and ledger and report the same status and fill price. |
| Execution.BuyOutcome | paper-trader/internal/execution/order_service.go:70-113 | A buy is rejected iff cash < cost; equal cash fills. A rejection adds only the order row, with reason "insufficient funds". A fill debits the cost, upserts the position, appends the filled order and books the entry (-cost, new balance). |
| Execution.SellOutcome | paper-trader/internal/execution/order_service.go:84-131 | A sell is rejected iff there is no position or it is shorter than the order; a rejection adds only the order row, with reason "insufficient position". A fill credits the cost, lowers the quantity and deletes the row iff nothing is left. It keeps avgCost and other positions, and books (+cost, new balance). |
| Execution.NoFaultsNoFailures | paper-trader/internal/repository/postgres/position_repo.go:51-52 | Under the store invariant, a valid request meets no failing call when no fault is injected: the upsert's divisor is never zero. |
| Execution.TablesAreAppendOnly | paper-trader/internal/execution/order_service.go:102-154 | Orders grow by one row per accepted request and the ledger by one entry per fill; no stored row is rewritten. |
| Execution.CashStaysNonNegative | paper-trader/internal/execution/order_service.go:71 | With non-negative prices, no execution takes any portfolio's cash below zero. |
| Execution.CreditedAppend | paper-trader/internal/execution/order_service.go:141-154 | Appending an entry adds its amount to its portfolio's ledger sum only. |
| Execution.CreditedOfUnbooked | paper-trader/internal/repository/postgres/ledger_repo.go:19-27 | A portfolio with no ledger entry has a ledger sum of zero. |
| Execution.AppendOrderKeepsConsistency | paper-trader/internal/repository/postgres/order_repo.go:20-31 | Storing one new order row, with the next id, keeps the store invariant. |
| Execution.FillKeepsConsistency | paper-trader/internal/execution/order_service.go:133-154 | A fill's writes keep the invariant: new cash, positive-quantity positions, one order row, and one entry whose balanceAfter is old cash plus amount. |
| Execution.CommitKeepsConsistency | paper-trader/internal/execution/order_service.go:70-166 | The committed writes of every plan, rejection or fill, keep the invariant. |
| Execution.FillPlanKeepsConsistency | paper-trader/internal/execution/order_service.go:102-166 | The committed writes of a buy, a closing sell or a reducing sell keep the invariant. |
| Execution.FillLeavesPositivePositions | paper-trader/internal/execution/order_service.go:108-131 | After any fill every stored position still holds a positive quantity: an upsert adds a positive lot, a sell down to zero deletes the row, and a partial sell leaves a positive remainder. |
| Execution.ExecutePreservesConsistency | paper-trader/internal/execution/order_service.go:41-167 | Every execution, whatever its outcome, keeps the invariant. Cash is opening cash plus the ledger sum, each balanceAfter is the running balance, positions are positive, and order ids are row numbers. |
| Execution.Execute | paper-trader/internal/execution/order_service.go:41-167 | Has no contract of its own; it is the reference for `TradingStore.SubmitAndExecute` and is characterised by RefusalsWriteNothing, BuyOutcome, SellOutcome, FillsAtLastTick, ExecutePreservesConsistency and RunsReconcile. |
| Execution.Transact | paper-trader/internal/execution/order_service.go:59-167 | Has no contract of its own; it is the part of `Execute` after the portfolio row is locked, characterised by FirstFault, BuyOutcome and SellOutcome and the reference for `BuyInTx`, `SellInTx` and their tails. |
| Execution.OpenPortfolioKeepsConsistency | paper-trader/internal/gateway/rest_handlers.go:84-88 | A new portfolio opens with 100000 cash and keeps the invariant. |
| Execution.RunsReconcile | paper-trader/internal/execution/order_service.go:133-154 | Over any run of executions, each portfolio's cash equals its opening cash plus the sum of its ledger amounts. |
| Execution.SerializedBuysCannotOverspend | paper-trader/internal/repository/postgres/portfolio_repo.go:50-57 | Two buys that are each affordable but not together: serialised by the row lock, the first fills, the second is rejected, and cash stays non-negative. |
| OrderService.TradingStore.constructor | paper-trader/internal/execution/order_service.go:23-39 | The service starts over empty tables, which satisfy the invariant. |
| OrderService.TradingStore.CreatePortfolio | paper-trader/internal/gateway/rest_handlers.go:84-88 | Registration adds a portfolio with the starting cash and keeps the invariant. |
| OrderService.TradingStore.GetByIdForUpdate | paper-trader/internal/repository/postgres/portfolio_repo.go:50-57 | Returns the portfolio's cash, "portfolio not found" for a missing row, or the call's error. |
| OrderService.TradingStore.UpdateCashBalance | paper-trader/internal/repository/postgres/portfolio_repo.go:59-64 | Sets that one portfolio's cash unless the call fails. |
| OrderService.TradingStore.GetPosition | paper-trader/internal/repository/postgres/position_repo.go:31-42 | Returns the lookup of the positions table, or the call's error. |
| OrderService.TradingStore.Upsert | paper-trader/internal/repository/postgres/position_repo.go:44-56 | Succeeds iff the call is not faulted and the average does not divide by zero; the table becomes Positions.Upsert of it, or stays as it was. |
| OrderService.TradingStore.UpdateQty | paper-trader/internal/repository/postgres/position_repo.go:58-63 | The table becomes Positions.UpdateQty of it unless the call fails. |
| OrderService.TradingStore.Delete | paper-trader/internal/repository/postgres/position_repo.go:65-70 | The table becomes Positions.Delete of it unless the call fails. |
| OrderService.TradingStore.CreateOrder | paper-trader/internal/repository/postgres/order_repo.go:20-31 | Gives the order the next id and appends the row CreateTx writes, without the reject reason. |
| OrderService.TradingStore.UpdateStatus | paper-trader/internal/repository/postgres/order_repo.go:33-40 | Sets status, fill price and filled quantity of that one row. |
| OrderService.TradingStore.InsertLedgerEntry | paper-trader/internal/repository/postgres/ledger_repo.go:19-27 | Appends exactly one entry unless the call fails. |
| OrderService.TradingStore.Rollback | paper-trader/internal/execution/order_service.go:63 | The tables return to the snapshot taken when the transaction began. |
| OrderService.TradingStore.SubmitAndExecute | paper-trader/internal/execution/order_service.go:41-167 | Keeps the invariant, and its result and final tables are those of Execution.Execute on the initial tables. |
| OrderService.TradingStore.StoreRejection | paper-trader/internal/execution/order_service.go:75-81 | Stores the rejected row and commits, or reports the first failing call with the tables restored. |
| OrderService.TradingStore.FinishFill | paper-trader/internal/execution/order_service.go:133-166 | Succeeds iff none of the cash, status, ledger and commit calls fails. On success it writes the new balance, the filled order row and the entry; on failure the tables are restored and the first failing call is reported. |
| OrderService.TradingStore.BuyInTx | paper-trader/internal/execution/order_service.go:70-113 | The buy branch ends in the outcome Execution.Transact gives. |
| OrderService.TradingStore.CompleteBuy | paper-trader/internal/execution/order_service.go:133-166 | After the order row and the upsert of an affordable buy, the cash, fill, ledger and commit steps end in the outcome Execution.Transact gives. |
| OrderService.TradingStore.SellInTx | paper-trader/internal/execution/order_service.go:84-99 | The sell branch ends in the outcome Execution.Transact gives. |
| OrderService.TradingStore.SellFillInTx | paper-trader/internal/execution/order_service.go:114-131 | A covered sell ends in the outcome Execution.Transact gives. |
| OrderService.TradingStore.ReducePosition | paper-trader/internal/execution/order_service.go:121-130 | The position row is deleted when the new quantity is zero, and its quantity is lowered otherwise. The call fails exactly when that write step is faulted, and then nothing changes. |
| OrderService.TradingStore.CompleteSell | paper-trader/internal/execution/order_service.go:133-166 | After the order row and the position write of a covered sell, the cash, fill, ledger and commit steps end in the outcome Execution.Transact gives. |
| OrderService.FillFaults | paper-trader/internal/execution/order_service.go:133-158 | On every fill path, the first of the cash, status, ledger and commit calls to fail is the error reported. |
| HubModel.NewHub | paper-trader/internal/gateway/ws_hub.go:30-42 | The new hub has no client, subscription or bridge, and satisfies the hub invariant. |
| HubModel.MarkCancelled | paper-trader/internal/gateway/ws_hub.go:58-60 | Cancelling bridges marks exactly the given ones and keeps every bridge's symbol. |
| HubModel.CancelOne | paper-trader/internal/gateway/ws_hub.go:59 | Cancelling one bridge updates that one element. |
| HubModel.DropNothing | paper-trader/internal/gateway/ws_hub.go:54 | Before the unregister range has visited a symbol, nothing has changed. |
| HubModel.DropStep | paper-trader/internal/gateway/ws_hub.go:54-65 | One more visited symbol removes the client from its set; if the set empties, the symbol's entry and cancel handle are deleted and its bridge is cancelled. |
| HubModel.DropUnvisited | paper-trader/internal/gateway/ws_hub.go:54-65 | A symbol the range has not reached still has its subscribers and its cancel handle, and the bridge list keeps its length. |
| HubModel.DropKeeps | paper-trader/internal/gateway/ws_hub.go:54-57 | If the visited symbol has subscribers other than the client, only its set changes, by losing the client. |
| HubModel.DropEmpties | paper-trader/internal/gateway/ws_hub.go:55-63 | If the client was the visited symbol's only subscriber, the symbol and its cancel handle are deleted and exactly its bridge is cancelled. |
| HubModel.DropEmptiesUnbridged | paper-trader/internal/gateway/ws_hub.go:55-63 | The same for a symbol with no cancel handle: only its entry is deleted. |
| HubModel.AttachKeepsInv | paper-trader/internal/gateway/ws_client.go:94-99 | Giving a new connection its send channel keeps the hub invariant. |
| HubModel.UnregisterKeepsInv | paper-trader/internal/gateway/ws_hub.go:51-67 | The unregister case keeps the hub invariant. |
| HubModel.SubscribeKeepsInv | paper-trader/internal/gateway/ws_hub.go:68-75 | The subscribe case keeps the invariant: every subscribed symbol has exactly one live bridge. |
| HubModel.UnsubscribeKeepsInv | paper-trader/internal/gateway/ws_hub.go:76-86 | The unsubscribe case keeps the hub invariant. |
| HubModel.DispatchKeepsInv | paper-trader/internal/gateway/ws_hub.go:44-89 | Every command from an accepted connection keeps the hub invariant. |
| HubModel.RunKeepsInv | paper-trader/internal/gateway/ws_hub.go:44-89 | After any sequence of commands, the keys of redisCancels are those of subs, no subscriber set is empty, and every live bridge belongs to a subscribed symbol. |
| HubModel.OnRegister | paper-trader/internal/gateway/ws_hub.go:49-50 | Has no contract of its own; it is the register case, characterised by RegisterEffect. |
| HubModel.OnUnregister | paper-trader/internal/gateway/ws_hub.go:51-67 | Has no contract of its own; it is the unregister case, characterised by UnregisterEffect, UnregisterKeepsInv and UnregisterKeepsSafety. |
| HubModel.OnSubscribe | paper-trader/internal/gateway/ws_hub.go:68-75 | Has no contract of its own; it is the subscribe case as written, characterised by SubscribeEffect, SubscribeKeepsInv and SubscribeAfterUnregisterPanics. |
| HubModel.OnUnsubscribe | paper-trader/internal/gateway/ws_hub.go:76-86 | Has no contract of its own; it is the unsubscribe case, characterised by UnsubscribeEffect, UnsubscribeKeepsInv and LastLeaverStops. |
| HubModel.Dispatch | paper-trader/internal/gateway/ws_hub.go:46-87 | Has no contract of its own; it is one iteration of the select as written, characterised by DispatchKeepsInv. |
| HubModel.RunCommands | paper-trader/internal/gateway/ws_hub.go:44-89 | Has no contract of its own; it is the select loop as written over a command order, characterised by RunKeepsInv. |
| HubModel.FanOut | paper-trader/internal/gateway/ws_hub.go:113-124 | Has no contract of its own; it is fanOut, characterised by FanOutEffect and FanOutKeepsInv. |
| HubModel.OnSubscribeLive | paper-trader/internal/gateway/ws_hub.go:68-75 | Has no contract of its own; it is the corrected subscribe case, characterised by SubscribeLiveKeepsSafety and LiveAgreesWhileConnected. |
| HubModel.DispatchLive | paper-trader/internal/gateway/ws_hub.go:46-87 | Has no contract of its own; it is one corrected select iteration, characterised by DispatchLiveKeepsSafety. |
| HubModel.RunLive | paper-trader/internal/gateway/ws_hub.go:44-89 | Has no contract of its own; it is the corrected select loop, characterised by RunLiveNeverPanics. |
| HubModel.Receive | paper-trader/internal/gateway/ws_client.go:69-74 | Has no contract of its own; it is the receive at the top of writePump, characterised by FanOutThenReceive and ClosedChannelDrains. |
| HubModel.FanOutKeepsInv | paper-trader/internal/gateway/ws_hub.go:113-124 | A fan-out keeps every send channel within its capacity. |
| HubModel.RegisterEffect | paper-trader/internal/gateway/ws_hub.go:49-50 | Register adds the client to clients and changes nothing else. |
| HubModel.UnregisterEffect | paper-trader/internal/gateway/ws_hub.go:51-67 | An unknown client is a no-op. A registered client leaves clients and every symbol set. A symbol it leaves empty loses its entry and has its bridge cancelled. Every other symbol keeps its cancel handle and its bridge, the bridge list keeps its length, and the client's channel is closed with the channels' contents unchanged. |
| HubModel.SubscribeEffect | paper-trader/internal/gateway/ws_hub.go:68-75 | The client joins the symbol's set. A bridge is started, and its handle recorded, only when the symbol had no entry. Other symbols' sets and cancel handles, the clients, the channels and the closed set are untouched. |
| HubModel.UnsubscribeEffect | paper-trader/internal/gateway/ws_hub.go:76-86 | An unknown symbol is a no-op. Otherwise the client leaves the set. The entry, its cancel handle and its bridge go when the set becomes empty. While other subscribers remain, the symbol stays and no cancel handle or bridge changes. Only that symbol's bridge can be cancelled; the clients, the channels and the closed set never change. |
| HubModel.SharedBridge | paper-trader/internal/gateway/ws_hub.go:68-86 | Two subscribers to one symbol share one bridge, which is cancelled once both have left. |
| HubModel.SecondSubscriberJoins | paper-trader/internal/gateway/ws_hub.go:68-75 | The first subscriber to a symbol starts one bridge and records its handle. The second joins the set without starting another, and the invariant holds. |
| HubModel.LastLeaverStops | paper-trader/internal/gateway/ws_hub.go:76-86 | Of two subscribers, the first to leave only shrinks the set, leaving the bridges alone. The second deletes the symbol and cancels exactly its bridge. |
| HubModel.FanOutEffect | paper-trader/internal/gateway/ws_hub.go:113-124 | Only subscribers of the symbol receive, and nobody if it has no entry. A full channel drops the payload, others get it appended. A fan-out panics iff a subscriber's channel is closed. |
| HubModel.FanOutThenReceive | paper-trader/internal/gateway/ws_client.go:69-74 | A payload fanned out to an idle subscriber is the next thing its writer receives. |
| HubModel.ClosedChannelDrains | paper-trader/internal/gateway/ws_client.go:69-74 | A closed channel still yields its buffered payloads in order, then reports closure. |
| HubModel.SubscribeAfterUnregisterPanics | paper-trader/internal/gateway/ws_hub.go:68-75 | As written: register, unregister, then subscribe of one client leaves its closed channel in subs, and the next fan-out panics. |
| HubModel.UnregisterKeepsSafety | paper-trader/internal/gateway/ws_hub.go:51-67 | Unregistering keeps closed channels out of every subscriber set. |
| HubModel.SubscribeLiveKeepsSafety | paper-trader/internal/gateway/ws_hub.go:68-75 | The corrected subscribe keeps the invariant and keeps closed channels out of the subscriber sets. |
| HubModel.UnsubscribeKeepsSafety | paper-trader/internal/gateway/ws_hub.go:76-86 | Unsubscribing keeps closed channels out of the subscriber sets. |
| HubModel.DispatchLiveKeepsSafety | paper-trader/internal/gateway/ws_hub.go:44-89 | Every corrected command keeps the invariant, fan-out safety and the set of send channels. |
| HubModel.RunLiveNeverPanics | paper-trader/internal/gateway/ws_hub.go:113-124 | With the corrected subscribe, no order of commands leads to a fan-out that panics. |
| HubModel.LiveAgreesWhileConnected | paper-trader/internal/gateway/ws_hub.go:68-75 | The correction changes nothing for a client whose channel is open. |
| WsHub.Hub.constructor | paper-trader/internal/gateway/ws_hub.go:30-42 | The new hub is HubModel.NewHub. |
| WsHub.Hub.OpenSendChannel | paper-trader/internal/gateway/ws_client.go:94-99 | Adds an empty send channel for the new connection and keeps the invariants. |
| WsHub.Hub.Register | paper-trader/internal/gateway/ws_hub.go:49-50 | The hub becomes HubModel.OnRegister of it. |
| WsHub.Hub.Unregister | paper-trader/internal/gateway/ws_hub.go:51-67 | The loop over subs leaves the hub in the state HubModel.OnUnregister describes. |
| WsHub.Hub.LeaveSymbol | paper-trader/internal/gateway/ws_hub.go:55-64 | One pass of the range advances the hub by one visited symbol. |
| WsHub.Hub.Subscribe | paper-trader/internal/gateway/ws_hub.go:68-75 | The hub becomes HubModel.OnSubscribeLive of it and keeps both invariants. |
| WsHub.Hub.Unsubscribe | paper-trader/internal/gateway/ws_hub.go:76-86 | The hub becomes HubModel.OnUnsubscribe of it and keeps both invariants. |
| WsHub.Hub.Dispatch | paper-trader/internal/gateway/ws_hub.go:46-87 | One select iteration is HubModel.DispatchLive and keeps both invariants. |
| WsHub.Hub.Run | paper-trader/internal/gateway/ws_hub.go:44-89 | The loop ends in HubModel.RunLive of the commands and keeps both invariants. |
| WsHub.Hub.FanOut | paper-trader/internal/gateway/ws_hub.go:113-124 | The loop over subscribers panics exactly when HubModel.FanOut does; otherwise it leaves the channels as HubModel.FanOut says. |
| WsHub.Hub.Receive | paper-trader/internal/gateway/ws_client.go:69-74 | The receive yields what HubModel.Receive says and leaves its channel as that function says. |
| WsClient.FrameCommands | paper-trader/internal/gateway/ws_client.go:50-57 | "subscribe" and "unsubscribe" give one command per symbol, in list order. Any other action gives none. |
| WsClient.SendFrame | paper-trader/internal/gateway/ws_client.go:50-57 | The loop over a frame's symbols sends FrameCommands. |
| WsClient.ReadPump | paper-trader/internal/gateway/ws_client.go:30-59 | The pump sends PumpCommands of its reads. |
| WsClient.PumpCommands | paper-trader/internal/gateway/ws_client.go:30-58 | Has no contract of its own; it is the reference for ReadPump, characterised by PumpShape and ReadsStopAtError. |
| WsClient.ServeWS | paper-trader/internal/gateway/ws_client.go:87-103 | The connection gets an empty send channel of capacity 256, and its first command is its register, followed by what its read pump sends. |
| WsClient.PumpShape | paper-trader/internal/gateway/ws_client.go:30-59 | Every command names this client, and the unregister is sent exactly when a read fails, once, as the last command. Undecodable frames are skipped. |
| WsClient.ReadsStopAtError | paper-trader/internal/gateway/ws_client.go:42-45 | Nothing after the first read error is read. |
| WsClient.InOrderStreamIsSafe | paper-trader/internal/gateway/ws_client.go:30-59 | One connection's commands processed in sending order never leave its closed channel subscribed. |
| Ingestion.PublishFrame | paper-trader/internal/ingestion/alpaca_client.go:135-156 | The loop over a frame's elements publishes FrameTicks of them. |
| Ingestion.Connect | paper-trader/internal/ingestion/alpaca_client.go:69-158 | Each handshake failure returns an error and an auth failure returns nil. A subscribed session publishes its stream's ticks and returns nil on cancellation or the error on a read failure. |
| Ingestion.ConnectResultOf | paper-trader/internal/ingestion/alpaca_client.go:69-158 | Has no contract of its own; it is what connect returns in a session, characterised by NilResets, AuthFailureReconnectsAtOnce and ReadErrorKeepsBackoff. |
| Ingestion.FrameTicks | paper-trader/internal/ingestion/alpaca_client.go:135-156 | Has no contract of its own; it is the element loop's ticks, characterised by FrameTicksAppend, OnlyTradesBecomeTicks and TradeTick. |
| Ingestion.StreamTicks | paper-trader/internal/ingestion/alpaca_client.go:120-157 | Has no contract of its own; it is the read loop's ticks, characterised by StreamTicksAppend and UndecodableFrameSkipped. |
| Ingestion.Run | paper-trader/internal/ingestion/alpaca_client.go:34-59 | The waits Run makes are Waits from one second, and the ticks published are those of each session in turn. |
| Ingestion.Waits | paper-trader/internal/ingestion/alpaca_client.go:43-57 | Has no contract of its own; it is the schedule of waits, characterised by WaitsInRange, RepeatedFailures, NilResets and ReadErrorKeepsBackoff. |
| Ingestion.Attempt | paper-trader/internal/ingestion/alpaca_client.go:43-57 | One pass connects once. After a clean return there is no wait and the backoff resets to one second. After an error it waits the current backoff, which then doubles up to sixty seconds. It publishes that session's ticks. |
| Ingestion.RunStep | paper-trader/internal/ingestion/alpaca_client.go:43-57 | The schedule from one connection on is that connection's wait (if it failed), followed by the schedule of the rest from the next backoff. The ticks are that session's, then the rest's. |
| Ingestion.WaitsInRange | paper-trader/internal/ingestion/alpaca_client.go:35-57 | Every wait lies between 1 and 60 seconds. |
| Ingestion.DoubledPowers | paper-trader/internal/ingestion/alpaca_client.go:54-57 | k doublings from a capped power of two give the capped power k steps later. |
| Ingestion.RepeatedFailures | paper-trader/internal/ingestion/alpaca_client.go:48-57 | Consecutive failures wait 1, 2, 4, 8, 16, 32, 60, 60, ... seconds. |
| Ingestion.NilResets | paper-trader/internal/ingestion/alpaca_client.go:43-47 | A connection that returns nil is followed by no wait and resets the backoff to one second. |
| Ingestion.AuthFailureReconnectsAtOnce | paper-trader/internal/ingestion/alpaca_client.go:101-104 | An empty auth reply, or one whose first type is not "success", returns nil, publishes nothing and resets the backoff. |
| Ingestion.ReadErrorKeepsBackoff | paper-trader/internal/ingestion/alpaca_client.go:127-130 | A streaming session ended by a read error waits the current backoff and doubles it. |
| Ingestion.FrameTicksAppend | paper-trader/internal/ingestion/alpaca_client.go:135-156 | The filter works element by element: the ticks of a concatenation are the concatenated ticks. |
| Ingestion.StreamTicksAppend | paper-trader/internal/ingestion/alpaca_client.go:120-157 | The read loop's ticks over two runs of frames are the first run's ticks followed by the second's. |
| Ingestion.UndecodableFrameSkipped | paper-trader/internal/ingestion/alpaca_client.go:131-134 | A frame that does not decode publishes nothing, and the loop goes on to the next frame. |
| Ingestion.OnlyTradesBecomeTicks | paper-trader/internal/ingestion/alpaca_client.go:135-142 | Each tick comes from a trade element, there are never more ticks than elements, and a frame without trades gives none. |
| Ingestion.TradeTick | paper-trader/internal/ingestion/alpaca_client.go:140-152 | A trade becomes one tick with its symbol, price and size, and its parsed time or else now. Any other element gives nothing. |

## Left out

- Floating point: amounts, quantities and the average cost are exact reals. This includes the `newQty == 0` test and the division in the upsert.
- SQL itself, the `FOR UPDATE` lock and concurrent requests. Each execution is atomic and executions are sequential, which is what the row lock guarantees per portfolio.
- The contents of a database error. A failing call is named by the `Step` at which it fails, and the `faults` parameter says which calls fail.
- Clocks: `FilledAt` and the created/updated columns are not modelled.
- Ingestion.Connect: the fallback time is one `now` per session, where the source reads the clock per element. Timestamp parsing (RFC 3339) is the `parse` parameter.
- Ledger row ids (a database sequence, which may skip values after a rollback) and the list queries `GetByPortfolioID` of the repositories. Neither one changes state.
- Redis: the last-price cache is the `prices` map, and its 60-second expiry is not modelled. `pumpRedis` and pub/sub are modelled only as the bridge records a subscription starts and cancels.
- Publishing a tick to Redis: its errors are only logged, so a published tick is one the loop handed on.
- Goroutines and `select`: the hub processes one command at a time, in any order given to it. The unsynchronised read of `subs` from a bridge goroutine is not modelled.
- WsHub.Hub.FanOut: when it meets a closed channel it reports the panic and says nothing of the state, since the process ends there. The map iteration order is also not modelled.
- WebSocket and JSON I/O: dialing, deadlines, read limits, pings, close frames, marshalling, and the write side of `writePump`. A frame is given already decoded or as undecodable.
- `ServeWS`'s upgrade failure: no client is created then.
- Ingestion.Run: cancellation of the context is the end of the session list. A wait that cancellation cuts short is still listed.
- Closing a channel twice: `OnUnregister` closes the client's channel with no check for an earlier close, where Go would panic. A command stream with two unregisters of one client that are both taken is not one the source produces: `ServeWS` registers each client once and `readPump` unregisters it once. The model does not restrict streams to that shape.
- The HTTP layer, authentication, routing and configuration. Registration is kept only as the opening of a portfolio with 100000.

## Findings

| source | as written | input that shows it | evidently intended | confidence | as-written member | corrected member |
|---|---|---|---|---|---|---|
| paper-trader/internal/gateway/ws_hub.go:68-75 | The subscribe case adds the client to `subs[symbol]` without checking whether the hub has already unregistered it and closed its send channel. `Run`'s select may take a client's pending unregister before its pending subscribe. | Client 0 is accepted; the hub takes register(0), unregister(0), subscribe(0, "AAPL"); then an AAPL tick is fanned out. | A client whose channel is closed is not subscribed, so `fanOut` never sends on a closed channel. | medium; not executed | HubModel.SubscribeAfterUnregisterPanics | HubModel.RunLiveNeverPanics |

The correction is `HubModel.OnSubscribeLive`, which ignores a subscribe from a client whose channel is closed. `WsHub.Hub.Subscribe` implements it.
