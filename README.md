# Order-matching engine: a Dafny model

This project models the matching core of a small order-matching venue. A batch of orders
(market, limit, immediate-or-cancel, fill-or-kill) runs against two resting-order queues, one
for bids and one for asks. Every executed trade is booked on a per-account ledger. A ledger
record holds saldo, position, turnover and traded volume.

The repository implements the engine twice, and the two versions behave differently, so they
are separate modules:

- `Accounts` (accounts.dfy) holds what both engines share:
  - the `Account` record and the ledger (`Ledger`, the Go `map[int]*Account` and the Python
    dict, updated in place);
  - the price test and the trade an incoming market, IOC or FOK order makes;
  - `Settle`, the effect of one trade on the ledger;
  - `BatchStep`, which shows that creating accounts lazily, as the orders come, equals
    starting from a ledger that already holds every account of the batch.
- `GoEngine` (go_engine.dfy) models go/main.go:
  - `PriorityQueue` is a class over the slice, with `Len`, `Less`, `Swap`, `Push` and `Pop` as
    written.
  - `HeapPush` and `HeapPop` model `heap.Push` and `heap.Pop`. `HeapPop` may return any order
    with the largest stored price, because Go leaves ties unspecified.
  - The four policies are imperative methods on the queues and the ledger. Each loop is proved
    against a bundled invariant (`MarketInv`, `LimitInv`, `IocOutcome`, `FokOutcome`). These
    relate the new queues and ledger to the old ones through the sequence of trades made and
    the resting orders they hit. Each hit was a best order of its queue as the earlier hits
    left it, and each queue now holds what its start holds once every hit has left and its
    remainder has come back (`Drained`).
  - `ProcessOrders` is the batch driver. It returns the chain of books (both queues and the
    ledger) between orders, and each order takes the book one step as `Dispatched` says.
- `PyEngine` (py_engine.dfy) models python/market_order_executor.py:
  - A heapq list is an `OrderList` whose items are kept in their sorted arrangement. That
    arrangement has the same tuples and the same smallest tuple at index 0 as any heap holding
    them, and `SortedUnique` shows it is determined by the tuples alone.
  - Python is deterministic, so each policy has a specification function on values: `MarketRun`,
    `LimitRun`, `IocRun` and `FokRun`, then `Step` for one order and `Run` for a batch.
  - The imperative methods are proved to leave the lists and the ledger exactly as those
    functions say. The properties of the functions are proved as lemmas.

The quirks of the source are kept, not corrected:

- **Go queue order.** Bids rest with the price negated and the Go heap pops the largest stored
  price, so the Go bid queue yields the lowest bid first and the ask queue the highest ask
  (`LowestBidFirst`, `HighestAskFirst`).
- **Python queue order.** The Python min-heap yields the highest bid and the lowest ask first
  (`HighestBidFirst`, `LowestAskFirst`).
- **Limit crossing.** Limit matching compares stored prices. The own side is always booked long
  at the counter order's stored price, which is negative when that order is a bid.
- **FOK surplus.** A successful fill-or-kill removes the whole resting head, even when it held
  more than was traded.

## Worked examples

- **A limit buy, then a limit sell at the same price.** Account A places a limit buy of 100 at
  10; account B then places a limit sell of 100 at 10. The ask (10) crosses the stored bid
  (−10), and the seller is booked long at −10:
  - A ends with position −100 and saldo −1000;
  - B ends with position +100 and saldo +1000;
  - both turnovers are −1000.

  `PyEngine.LimitPairExample` proves this for the Python code. go/main.go:146-173 follows the
  same rules.
- **A limit buy at the price of a resting sell.** A limit buy crosses only when −bid ≥ ask,
  which never happens for positive prices. So a limit buy of 100 at 10 against a resting sell
  of 60 at 10 trades nothing, and both orders rest in full (`PyEngine.PartialFillExample`).
- **Bid order in the Go queue.** The Go heap pops the largest stored value, −bid, so the lowest
  bid comes first (go/main.go:36-38, 81; `GoEngine.LowestBidFirst`).

## Model

| member | source | states |
|---|---|---|
| Accounts.Abs | go/main.go:111-113 | `math.Abs`: the result is non-negative and is the argument or its negation |
| Accounts.Min | go/main.go:112 | `min`: the result is at most both arguments and equals one of them |
| Accounts.Matches | go/main.go:111 | the price test of a market, IOC or FOK order (go/main.go:186 and 225, python/market_order_executor.py:79, 167 and 217 alike): a sell against a bid stored negated passes exactly when its price is at most the bid's own price, and a sell priced at zero or below passes against every resting order |
| Accounts.MarketTrade | go/main.go:111-131 | a market, IOC or FOK trade moves `qty` at the magnitude of the resting order's stored price between the incoming and the resting account; the incoming account is long exactly when it buys (python/market_order_executor.py:79-97 alike) |
| Accounts.Settle | go/main.go:116-131 | booking a trade keeps the set of accounts |
| Accounts.SettleEffect | go/main.go:116-131 | one trade moves the two parties' position and saldo by equal and opposite amounts, adds the same volume and turnover to both, and leaves every other account unchanged; a self-trade cancels in position and saldo |
| Accounts.SettleAll | go/main.go:109-143 | booking a sequence of trades keeps the set of accounts |
| Accounts.SettleAllUntouched | go/main.go:116-131 | booking a sequence of trades leaves every account that is party to none of them as it was |
| Accounts.Opened | go/main.go:67-69 | an account is created zeroed on first reference; an existing one is kept; no other record changes (python/market_order_executor.py:31-32 alike) |
| Accounts.Zeroed | go/main.go:64-69 | the ledger with every account of the batch zeroed |
| Accounts.SettleAllOpen | go/main.go:67-69 | creating an account that no earlier trade touched commutes with booking those trades |
| Accounts.BatchStep | go/main.go:66-102 | opening each order's account as it arrives and booking its trades gives what booking all trades on the ledger of all accounts of the batch gives; the parties of every trade have accounts |
| Accounts.Ledger.constructor | go/main.go:64 | the ledger starts empty |
| Accounts.Ledger.Open | go/main.go:67-69 | the ledger becomes `Opened` of the old one |
| Accounts.Ledger.Record | go/main.go:116-131 | the ledger becomes the old one with the trade settled |
| GoEngine.Resting | go/main.go:81-84 | a limit order rests with its id, account and amount kept; a bid's price is stored negated, an ask's as given |
| GoEngine.PriorityQueue.constructor | go/main.go:59-62 | a queue starts empty |
| GoEngine.PriorityQueue.Len | go/main.go:34 | the number of queued orders |
| GoEngine.PriorityQueue.Less | go/main.go:36-38 | an order that another queued order outranks has a stored price below the queue's largest, so `heap.Pop` never returns it |
| GoEngine.PriorityQueue.LessIsStrictOrder | go/main.go:36-38 | `Less` (higher stored price first) is irreflexive, asymmetric and transitive |
| GoEngine.PriorityQueue.Swap | go/main.go:40-42 | exchanges two entries and keeps the multiset of orders |
| GoEngine.PriorityQueue.Push | go/main.go:44-47 | appends the order at the end |
| GoEngine.PriorityQueue.Pop | go/main.go:49-55 | removes and returns the last order |
| GoEngine.PriorityQueue.HeapPush | go/main.go:81-85 | `heap.Push` adds exactly the order: the new multiset is the old one plus the order, and size, total quantity, owners, positivity and top price change accordingly |
| GoEngine.PriorityQueue.HeapPop | go/main.go:110 | `heap.Pop` returns a queued order with the largest stored price and the new multiset is the old one minus that order; the total falls by its amount and no owner is added |
| GoEngine.PopIsBest | go/main.go:36-38 | no queued order comes before the popped one, and no queued order has a higher stored price |
| GoEngine.MatchesResting | go/main.go:111 | against the resting form of a limit order, a buy passes exactly when the ask is priced at most its price, and a sell exactly when its price is at most the magnitude of the bid's price |
| GoEngine.LowestBidFirst | go/main.go:81 | of two resting bids the lower one (larger −price) is popped first |
| GoEngine.HighestAskFirst | go/main.go:84 | of two resting asks the higher one is popped first |
| GoEngine.Leftover | go/main.go:135-138 | what goes back after a trade is at most one order: exactly when less than the resting amount traded, the resting order with only its amount lowered to the positive remainder |
| GoEngine.DrainStep | go/main.go:110-138 | a queue that held what the earlier hits left of the start, and loses its best order and gets back that order's remainder, holds what one more hit leaves |
| GoEngine.PushRemainder | go/main.go:135-138 | the queue's multiset grows by exactly `Leftover`: an order traded for less than its amount goes back with the rest, one traded in full does not; the total grows by exactly the remainder |
| GoEngine.MarketStep | go/main.go:111-138 | one market or IOC trade books `MarketTrade` on the ledger and re-pushes exactly the remainder |
| GoEngine.MarketInvStart | go/main.go:108-109 | before the first round the market invariant holds with no trades, the queue and ledger as they started |
| GoEngine.MarketInvTrade | go/main.go:111-138 | a trade at an order popped with the largest stored price keeps the market invariant: the order is recorded as a best order of the queue as it stood, the trade is min(left, its amount) at its stored price's magnitude, the queue's multiset loses it and gets its remainder back, and the ledger is all trades booked |
| GoEngine.MarketInvRestore | go/main.go:139-141 | a popped best order that fails the price test goes back unchanged, the invariant holds, and the queue's top price fails the test |
| GoEngine.MarketHitWasTop | go/main.go:110-138 | one more trade recorded in the market invariant was made while some of the amount was left to fill, against a best order of the queue as it stood, for min(left, its amount), the queue changed by exactly that order leaving and its remainder returning, and the ledger by exactly that trade |
| GoEngine.MarketTradeBest | go/main.go:112-138 | the trading branch of a round extends the invariant by one trade against the popped best order, changes the queue's multiset by exactly that order leaving and its remainder returning, and shrinks the queue or uses up the amount |
| GoEngine.MarketRound | go/main.go:110-142 | one pass of the market loop: on a trade, `best` was in the old queue with its largest stored price, the queue's multiset lost it and got its remainder back, the invariant extends by that trade, and the queue shrinks or the amount is used up; otherwise it stops with the invariant unchanged at a head that fails the price test |
| GoEngine.ExecuteMarketOrder | go/main.go:108-144 | the market policy: `fills[k]` was made while the remaining amount was positive, `hits[k]` was a best order of the queue left by the earlier hits and `fills[k]` its trade of min(remaining, its amount); the final queue's multiset is the start's drained by those hits; the ledger is all trades booked; amount never goes below 0; an early stop happens only at a head failing the price test |
| GoEngine.TradeCrossing | go/main.go:151-173 | a crossing trade of min of both amounts at the counter order's stored price with the own account long; each queue's multiset grows by exactly its popped order's remainder |
| GoEngine.LimitInvStart | go/main.go:146-147 | before the first round the limit invariant holds with no trades, both queues and the ledger as they started |
| GoEngine.LimitInvTrade | go/main.go:151-173 | a crossing trade between orders popped with each queue's largest stored price keeps the limit invariant: both are recorded as best orders of their queues as they stood, each queue's multiset loses its order and gets its remainder back, the ledger is all trades booked |
| GoEngine.LimitInvRestore | go/main.go:174-178 | on a failed comparison both popped orders go back and the own top price is below the counter top price |
| GoEngine.LimitHitsWereTop | go/main.go:148-173 | one more trade recorded in the limit invariant was made between best orders of both queues as they stood, crossed as `LimitFill` says, each queue changed by exactly its order leaving and its remainder returning, and the ledger by exactly that trade |
| GoEngine.LimitTradeBest | go/main.go:151-173 | the trading branch of a round extends the invariant by one crossing trade between the popped best orders, changes each queue's multiset by exactly its order leaving and its remainder returning, and shrinks the queues |
| GoEngine.LimitRound | go/main.go:148-179 | one pass of the limit loop: on a trade, `bestOwn` and `bestCounter` were in the old queues with their largest stored prices, each queue's multiset lost its order and got its remainder back, the invariant extends by that trade, and the queues shrink; otherwise it stops with the heads not crossing |
| GoEngine.ExecuteLimitOrder | go/main.go:146-181 | the limit policy: `ownHits[k]` and `counterHits[k]` were best orders of the queues left by the earlier hits and crossed in `fills[k]`; each final queue's multiset is its start drained by its hits; the ledger is all trades booked; at the end a queue is empty or the heads do not cross |
| GoEngine.IocTrade | go/main.go:186-211 | a matching IOC trades once with the popped best order, its remainder goes back, and the leftover of the IOC order enters no queue |
| GoEngine.IocRestore | go/main.go:212-214 | a non-matching popped best order goes back and neither the queue multiset nor the ledger changes |
| GoEngine.ExecuteIOCOrder | go/main.go:183-216 | at most one trade, against the popped best order, exactly when it matches; the queue's multiset loses that order and gets its remainder back; otherwise queue and ledger unchanged |
| GoEngine.FokTrade | go/main.go:225-247 | a fill trades exactly `amount` and the popped best order is not pushed back, whatever it held |
| GoEngine.FokRestore | go/main.go:248-251 | a failed FOK puts the popped order back and changes neither queue nor ledger |
| GoEngine.ExecuteFOKOrder | go/main.go:218-253 | a trade happens exactly when the best order matches and holds at least `amount`; it trades exactly `amount` and the whole order leaves the queue |
| GoEngine.ActedFacts | go/main.go:71-99 | whatever its kind, an order books exactly its own trades, between accounts already on the ledger, leaves every queued order's account on it, and keeps amounts positive |
| GoEngine.DispatchedFacts | go/main.go:66-101 | one order books exactly its trades on the ledger with its account opened, and leaves every account that is party to none of them unchanged |
| GoEngine.Act | go/main.go:71-99 | the kind dispatch: a market order satisfies the market invariant on the counter side with its own side unchanged; a limit order rests on its own side and then satisfies the limit invariant from there; IOC and FOK satisfy their outcomes on the counter side; any other kind changes nothing |
| GoEngine.ProcessOrder | go/main.go:66-101 | one order: its account is opened, then a buy acts with the buy queue as its own side and the sell queue as the counter side, and a sell the other way round, each as `Act` says |
| GoEngine.ProcessOrders | go/main.go:58-105 | the batch in input order: a chain of books from two empty queues and an empty ledger in which each order takes one step as `ProcessOrder` says; the ledger holds exactly the batch's accounts and equals all trades booked on zeroed accounts; positive orders make positive trades |
| PyEngine.Below | python/market_order_executor.py:44-47 | tuple comparison puts a lower price first and never a higher one |
| PyEngine.AtMost | python/market_order_executor.py:44-47 | `<=` on tuples is `<` or equality |
| PyEngine.TupleOrder | python/market_order_executor.py:44-47 | tuple comparison is a total order |
| PyEngine.Insert | python/market_order_executor.py:44-47 | `heappush` adds exactly the tuple |
| PyEngine.InsertSorted | python/market_order_executor.py:44-47 | `heappush` keeps the arrangement sorted |
| PyEngine.Sort | python/market_order_executor.py:103-105 | `sort` keeps the tuples and orders them |
| PyEngine.SortSorted | python/market_order_executor.py:103-105 | sorting a sorted list changes nothing |
| PyEngine.ResortHead | python/market_order_executor.py:103-105 | overwriting the head and re-sorting is inserting the new head into the rest |
| PyEngine.SortedUnique | python/market_order_executor.py:104-105 | two sorted lists with the same tuples are equal, so the arrangement is fixed by the heap's contents |
| PyEngine.HeadIsLeast | python/market_order_executor.py:78 | index 0 holds the smallest tuple |
| PyEngine.HighestBidFirst | python/market_order_executor.py:44 | the bid list yields the highest bid first |
| PyEngine.LowestAskFirst | python/market_order_executor.py:47 | the ask list yields the lowest ask first |
| PyEngine.InsertSummary | python/market_order_executor.py:44-47 | a push adds the tuple's amount to the total and its account to the owners |
| PyEngine.OrderList.constructor | python/market_order_executor.py:16-17 | a list starts empty |
| PyEngine.OrderList.Head | python/market_order_executor.py:78 | `[0]` is a queued tuple no greater than any other |
| PyEngine.OrderList.HeapPush | python/market_order_executor.py:44 | the list becomes the sorted insertion of the tuple |
| PyEngine.OrderList.HeapPop | python/market_order_executor.py:101 | removes exactly the head |
| PyEngine.OrderList.ReplaceHead | python/market_order_executor.py:103-105 | the new head goes where it belongs among the rest |
| PyEngine.Remaining | python/market_order_executor.py:100-105 | a full fill removes the head, a partial one keeps the list size |
| PyEngine.Consume | python/market_order_executor.py:100-105 | the list after a trade of `qty` at the head is `Remaining` of the old one |
| PyEngine.RemainingFacts | python/market_order_executor.py:100-105 | head consumption keeps the list sorted, takes exactly `qty` off the total, leaves the other tuples as they were and keeps amounts positive |
| PyEngine.MarketRun | python/market_order_executor.py:77-108 | the market run's trades are between the order's account and queued accounts |
| PyEngine.MarketRunFacts | python/market_order_executor.py:77-108 | the list stays sorted and loses exactly the traded volume; nothing trades for amount ≤ 0 or at a non-matching head; at most `amount` trades; it stops early only at a non-matching head |
| PyEngine.MarketProgressStart | python/market_order_executor.py:77 | before the loop the whole run is pending |
| PyEngine.MarketProgressTrade | python/market_order_executor.py:79-105 | one trade moves one trade of the run from pending to booked |
| PyEngine.MarketProgressEnd | python/market_order_executor.py:77-108 | at the loop's exit the list and the trades are the run's |
| PyEngine.MarketRound | python/market_order_executor.py:78-108 | one pass trades and shrinks the list or the amount, or finds the run complete |
| PyEngine.ExecuteMarketOrder | python/market_order_executor.py:69-108 | the list becomes `MarketRun`'s and the ledger is its trades booked |
| PyEngine.LimitRun | python/market_order_executor.py:117-152 | every crossing trade has an own-side account long and a counter-side account short |
| PyEngine.LimitRunFacts | python/market_order_executor.py:117-152 | both lists stay sorted and each loses exactly the traded volume; it stops only when a list is empty or the heads do not cross |
| PyEngine.LimitProgressStart | python/market_order_executor.py:117 | before the loop the whole crossing is pending |
| PyEngine.LimitProgressTrade | python/market_order_executor.py:121-148 | one crossing trade moves one trade from pending to booked |
| PyEngine.LimitProgressEnd | python/market_order_executor.py:117-152 | at the loop's exit the lists and trades are the crossing's |
| PyEngine.LimitRound | python/market_order_executor.py:118-152 | one pass trades and shrinks the lists, or finds the crossing complete |
| PyEngine.ExecuteLimitOrder | python/market_order_executor.py:112-152 | both lists become `LimitRun`'s and the ledger is its trades booked |
| PyEngine.IocRun | python/market_order_executor.py:164-198 | at most one trade, made exactly when the head matches, of min(amount, head amount); otherwise the list is unchanged |
| PyEngine.IocRunFacts | python/market_order_executor.py:164-198 | the list stays sorted and loses exactly the traded volume; the leftover is discarded |
| PyEngine.ExecuteIOCOrder | python/market_order_executor.py:156-198 | the list becomes `IocRun`'s and the ledger is its trade booked |
| PyEngine.FokRun | python/market_order_executor.py:210-244 | a trade of exactly `amount` happens exactly when the head matches and holds at least `amount`; otherwise the list is unchanged |
| PyEngine.FokRunFacts | python/market_order_executor.py:214-244 | on success the whole head leaves the list, surplus included |
| PyEngine.ExecuteFOKOrder | python/market_order_executor.py:202-244 | the list becomes `FokRun`'s and the ledger is its trade booked |
| PyEngine.Resting | python/market_order_executor.py:44-47 | a limit bid rests with its price negated, an ask as given |
| PyEngine.Step | python/market_order_executor.py:34-63 | one order trades only with queued accounts and its own; a non-limit order leaves its own side alone; an unknown type changes nothing |
| PyEngine.StepFacts | python/market_order_executor.py:34-63 | one order keeps both lists sorted and, with positive amounts, positive |
| PyEngine.Run | python/market_order_executor.py:14-65 | the batch's trades and resting orders involve only the batch's accounts |
| PyEngine.RunFacts | python/market_order_executor.py:14-65 | the batch leaves both lists sorted, and positive orders give positive resting amounts and trades |
| PyEngine.ProcessOrder | python/market_order_executor.py:23-63 | one pass opens the account and leaves lists and ledger as `Step` says |
| PyEngine.ProcessOrders | python/market_order_executor.py:14-65 | the result holds exactly the batch's accounts and equals `Run`'s trades booked on zeroed accounts |
| PyEngine.LimitPairExample | python/market_order_executor.py:42-48 | a limit buy then a limit sell at the same price: the seller ends long 100, the buyer short 100, both turnovers −1000 |
| PyEngine.PartialFillExample | python/market_order_executor.py:42-48 | a limit buy at the price of a resting sell does not cross |

## Left out

- Reading orders from CSV, writing the results, and the command line (go/main.go:255-342 and python/main.py). This is file I/O outside the matching core.
- The sift algorithms inside `container/heap` and `heapq`. These are standard-library code.
  - A Go queue is its slice, and `heap.Push`/`heap.Pop` are stated on its multiset of orders and their largest stored price.
  - A Python heap is its sorted arrangement.
- GoEngine.PriorityQueue.HeapPush: does not state the heap layout of the slice after the sift-up, only which orders it holds. Likewise `HeapPop` picks any order with the largest stored price, because the tie order of `container/heap` is not specified.
- The Go policies are stated relationally, through the trace of trades and the resting orders hit. Because of the unspecified ties there is no single function computing the Go outcome.
- IEEE floating-point rounding of saldo and turnover: prices and values are exact reals.
- Quantities are unbounded integers, so an overflow of Go's 64-bit `int` is not modelled.
- Go holds orders by pointer. The model holds them by value, since no `*Order` is ever in two queues at once.
- The eight `+=` updates of one trade are grouped into one `Settle` of a `Fill`. They commute, and `Settle` books the long side, then the short side, so a self-trade comes out as in the source.
- `breakpoint()` and the `print` calls of the Python code (python/market_order_executor.py:52, 59, 106, 149-150, 194, 216). These are debugging and logging side effects.
- The Python IOC's closing `if amount == initial_amount: return` (python/market_order_executor.py:196-198) returns in either case and changes nothing.
