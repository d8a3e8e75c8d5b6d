/** The Python matching engine of python/market_order_executor.py: two heapq lists of
    (price, order_id, amount, account_id) tuples, the four execution policies and the batch
    driver. A heapq list is modelled by its sorted arrangement: heappush, heappop and the
    `[0] = ...; heapify; sort` idiom are each stated on sorted lists, where the smallest tuple is
    at the front exactly as in any heap holding the same tuples. */
module PyEngine {
  import opened Accounts

  /** A queue tuple (price, order_id, amount, account_id). Bids are stored with the price
      negated and asks with the price as given (python/market_order_executor.py:44, 47). */
  datatype Entry = Entry(price: real, orderId: int, amount: int, accountId: int)

  /** Python's tuple comparison `a < b`: lexicographic over the four fields, so the price
      decides unless it ties. */
  predicate Below(a: Entry, b: Entry)
    ensures a.price < b.price ==> Below(a, b)
    ensures Below(a, b) ==> a.price <= b.price
  {
    || a.price < b.price
    || (a.price == b.price && a.orderId < b.orderId)
    || (a.price == b.price && a.orderId == b.orderId && a.amount < b.amount)
    || (a.price == b.price && a.orderId == b.orderId && a.amount == b.amount && a.accountId < b.accountId)
  }

  /** Python's `a <= b` on tuples: `a < b` or equal tuples. */
  predicate AtMost(a: Entry, b: Entry)
    ensures AtMost(a, b) <==> Below(a, b) || a == b
  {
    !Below(b, a)
  }

  /** Tuple comparison is a total order: `<=` is reflexive, antisymmetric, transitive and total. */
  lemma TupleOrder(a: Entry, b: Entry, c: Entry)
    ensures AtMost(a, a)
    ensures AtMost(a, b) || AtMost(b, a)
    ensures AtMost(a, b) && AtMost(b, a) ==> a == b
    ensures AtMost(a, b) && AtMost(b, c) ==> AtMost(a, c)
    ensures Below(a, b) <==> AtMost(a, b) && a != b
  {
  }

  /** The list is in ascending tuple order, as `list.sort()` leaves it. */
  predicate Sorted(s: seq<Entry>) {
    forall i, j :: 0 <= i < j < |s| ==> AtMost(s[i], s[j])
  }

  /** Sorted insertion: where a heappush'ed tuple ends up in the sorted arrangement. */
  function Insert(s: seq<Entry>, e: Entry): (r: seq<Entry>)
    ensures |r| == |s| + 1 && multiset(r) == multiset(s) + multiset{e}
  {
    if s == [] || AtMost(e, s[0]) then [e] + s
    else
      assert s == [s[0]] + s[1..];
      [s[0]] + Insert(s[1..], e)
  }

  /** Insertion keeps a list sorted. */
  lemma {:induction false} InsertSorted(s: seq<Entry>, e: Entry)
    requires Sorted(s)
    ensures Sorted(Insert(s, e))
    decreases |s|
  {
    if s != [] && !AtMost(e, s[0]) {
      InsertSorted(s[1..], e);
      var r := Insert(s, e);
      assert r == [s[0]] + Insert(s[1..], e);
      forall j | 0 < j < |r|
        ensures AtMost(r[0], r[j])
      {
        assert r[j] in multiset(Insert(s[1..], e));
        if r[j] == e {
          TupleOrder(e, s[0], s[0]);
        } else {
          assert r[j] in multiset(s[1..]);
          var k :| 0 <= k < |s[1..]| && s[1..][k] == r[j];
          assert s[k + 1] == r[j];
        }
      }
    }
  }

  /** What `list.sort()` makes of a list: its tuples in ascending order. */
  function Sort(s: seq<Entry>): (r: seq<Entry>)
    ensures multiset(r) == multiset(s) && Sorted(r)
  {
    if s == [] then []
    else
      assert s == [s[0]] + s[1..];
      InsertSorted(Sort(s[1..]), s[0]);
      Insert(Sort(s[1..]), s[0])
  }

  /** Sorting a sorted list changes nothing. */
  lemma {:induction false} SortSorted(s: seq<Entry>)
    requires Sorted(s)
    ensures Sort(s) == s
    decreases |s|
  {
    if s != [] {
      SortSorted(s[1..]);
      assert s == [s[0]] + s[1..];
    }
  }

  /** Re-sorting after the head of a sorted list was overwritten is inserting the new head into
      the rest. */
  lemma ResortHead(s: seq<Entry>, e: Entry)
    requires Sorted(s) && s != []
    ensures Sort(s[0 := e]) == Insert(s[1..], e)
  {
    assert s[0 := e][1..] == s[1..];
    SortSorted(s[1..]);
  }

  /** Sorted lists with the same tuples are equal: the sorted arrangement of a heap is determined
      by what it holds. */
  lemma {:induction false} SortedUnique(s: seq<Entry>, t: seq<Entry>)
    requires Sorted(s) && Sorted(t) && multiset(s) == multiset(t)
    ensures s == t
    decreases |s|
  {
    if s != [] {
      assert s[0] in multiset(t);
      assert t != [];
      assert t[0] in multiset(s);
      var i :| 0 <= i < |t| && t[i] == s[0];
      var j :| 0 <= j < |s| && s[j] == t[0];
      assert AtMost(t[0], s[0]) by {
        if i > 0 { assert AtMost(t[0], t[i]); } else { TupleOrder(s[0], s[0], s[0]); }
      }
      assert AtMost(s[0], t[0]) by {
        if j > 0 { assert AtMost(s[0], s[j]); } else { TupleOrder(t[0], t[0], t[0]); }
      }
      TupleOrder(s[0], t[0], t[0]);
      assert s[0] == t[0];
      MultisetCons(s);
      MultisetCons(t);
      assert Sorted(s[1..]) && Sorted(t[1..]);
      SortedUnique(s[1..], t[1..]);
    }
  }

  lemma MultisetCons(s: seq<Entry>)
    requires s != []
    ensures multiset(s) == multiset{s[0]} + multiset(s[1..])
    ensures multiset(s[1..]) == multiset(s) - multiset{s[0]}
  {
    assert s == [s[0]] + s[1..];
  }

  /** The head of a sorted list is its smallest tuple: what `counter_orders[0]` reads in a heap. */
  lemma HeadIsLeast(s: seq<Entry>)
    requires Sorted(s) && s != []
    ensures forall e <- s :: AtMost(s[0], e)
  {
    forall e | e in s
      ensures AtMost(s[0], e)
    {
      var k :| 0 <= k < |s| && s[k] == e;
      if k == 0 {
        TupleOrder(e, e, e);
      }
    }
  }

  /** The bid queue gives the highest bid first: bids are stored negated, so the larger bid has
      the smaller tuple. */
  lemma HighestBidFirst(s: seq<Entry>, bid: real)
    requires Sorted(s) && s != [] && exists e <- s :: e.price == -bid
    ensures -s[0].price >= bid
  {
    HeadIsLeast(s);
  }

  /** The ask queue gives the lowest ask first. */
  lemma LowestAskFirst(s: seq<Entry>, ask: real)
    requires Sorted(s) && s != [] && exists e <- s :: e.price == ask
    ensures s[0].price <= ask
  {
    HeadIsLeast(s);
  }

  /** Total quantity resting in a list. */
  function Total(s: seq<Entry>): int {
    if s == [] then 0 else s[0].amount + Total(s[1..])
  }

  /** The accounts that own a tuple of the list. */
  function Owners(s: seq<Entry>): set<int> {
    if s == [] then {} else {s[0].accountId} + Owners(s[1..])
  }

  /** Every tuple of the list has a positive amount. */
  predicate Positive(s: seq<Entry>) {
    s == [] || (s[0].amount > 0 && Positive(s[1..]))
  }

  /** Inserting a tuple adds it to every summary. */
  lemma {:induction false} InsertSummary(s: seq<Entry>, e: Entry)
    ensures Total(Insert(s, e)) == Total(s) + e.amount
    ensures Owners(Insert(s, e)) == Owners(s) + {e.accountId}
    ensures Positive(Insert(s, e)) <==> Positive(s) && e.amount > 0
    decreases |s|
  {
    if s != [] && !AtMost(e, s[0]) {
      InsertSummary(s[1..], e);
      assert Insert(s, e)[1..] == Insert(s[1..], e);
    } else {
      assert ([e] + s)[1..] == s;
    }
  }

  /** A Python list used as a heap through heapq (python/market_order_executor.py:16-17). */
  class OrderList {
    var items: seq<Entry>

    constructor ()
      ensures items == []
    {
      items := [];
    }

    /** `counter_orders[0]`: the smallest tuple. */
    function Head(): (e: Entry)
      reads this
      requires items != [] && Sorted(items)
      ensures e in items && forall x <- items :: AtMost(e, x)
    {
      HeadIsLeast(items);
      items[0]
    }

    /** heapq.heappush. */
    method HeapPush(e: Entry)
      requires Sorted(items)
      modifies this
      ensures items == Insert(old(items), e) && Sorted(items)
    {
      InsertSorted(items, e);
      items := Insert(items, e);
    }

    /** heapq.heappop, with the returned tuple discarded as in the source. */
    method HeapPop()
      requires items != [] && Sorted(items)
      modifies this
      ensures items == old(items)[1..] && Sorted(items)
      ensures multiset(items) + multiset{old(items)[0]} == old(multiset(items))
    {
      assert items == [items[0]] + items[1..];
      items := items[1..];
    }

    /** `counter_orders[0] = e; heapq.heapify(counter_orders); counter_orders.sort()`: the head
        is overwritten and the list re-sorted, which puts `e` where it belongs among the rest. */
    method ReplaceHead(e: Entry)
      requires items != [] && Sorted(items)
      modifies this
      ensures items == Insert(old(items)[1..], e) && Sorted(items)
    {
      ResortHead(items, e);
      items := items[0 := e];
      items := Sort(items);
    }
  }

  /** What a queue and the trades so far come to after a policy ran. */
  datatype Outcome = Outcome(book: seq<Entry>, fills: seq<Fill>)

  /** The list after `qty` of its head tuple traded (python/market_order_executor.py:100-105):
      the head is popped when exactly its amount traded, and otherwise replaced by the same tuple
      with `qty` taken off, after which the list is re-sorted. */
  function Remaining(s: seq<Entry>, qty: int): (r: seq<Entry>)
    requires s != []
    ensures |r| == if qty == s[0].amount then |s| - 1 else |s|
  {
    if qty == s[0].amount then s[1..] else Insert(s[1..], s[0].(amount := s[0].amount - qty))
  }

  /** The bookkeeping after `qty` of the head tuple traded (python/market_order_executor.py:100-105,
      136-148, 188-193): heappop when exactly the head's amount traded, otherwise overwrite the head
      with the reduced tuple, heapify and sort. */
  method Consume(q: OrderList, qty: int)
    requires q.items != [] && Sorted(q.items)
    modifies q
    ensures q.items == Remaining(old(q.items), qty) && Sorted(q.items)
  {
    var head := q.Head();
    if qty == head.amount {
      q.HeapPop();
    } else {
      q.ReplaceHead(head.(amount := head.amount - qty));
    }
  }

  /** Taking `qty` off the head keeps the list sorted, takes `qty` off its total, adds no owner,
      keeps every amount positive when no more than the head's amount traded, and leaves the
      other tuples as they were. */
  lemma RemainingFacts(s: seq<Entry>, qty: int)
    requires s != []
    ensures Sorted(s) ==> Sorted(Remaining(s, qty))
    ensures Total(Remaining(s, qty)) == Total(s) - qty
    ensures Owners(Remaining(s, qty)) <= Owners(s)
    ensures Positive(s) && qty <= s[0].amount ==> Positive(Remaining(s, qty))
    ensures multiset(Remaining(s, qty)) ==
      multiset(s[1..]) + if qty == s[0].amount then multiset{} else multiset{s[0].(amount := s[0].amount - qty)}
  {
    if qty != s[0].amount {
      InsertSummary(s[1..], s[0].(amount := s[0].amount - qty));
      if Sorted(s) {
        InsertSorted(s[1..], s[0].(amount := s[0].amount - qty));
      }
    }
  }

  /** Python `execute_market_order` on values (python/market_order_executor.py:69-108): while
      `amount` is left and the list is not empty, the head faces the price test; a passing head trades
      min(amount, its amount) at the magnitude of its price and keeps what it has left, and a
      failing head ends the run. */
  function MarketRun(book: seq<Entry>, accountId: int, price: real, amount: int, isBuy: bool): (r: Outcome)
    ensures Parties(r.fills) <= Owners(book) + {accountId}
    ensures Owners(r.book) <= Owners(book)
    decreases |book| + (if amount > 0 then 1 else 0)
  {
    if amount <= 0 || book == [] || !Matches(isBuy, price, book[0].price) then Outcome(book, [])
    else
      var qty := Min(amount, book[0].amount);
      var f := MarketTrade(accountId, book[0].accountId, book[0].price, qty, isBuy);
      var rest := MarketRun(Remaining(book, qty), accountId, price, amount - qty, isBuy);
      RemainingFacts(book, qty);
      Cons(map[], f, rest.fills);
      Outcome(rest.book, [f] + rest.fills)
  }

  /** What a market run promises: the list stays sorted and loses exactly the traded quantity,
      no more than `amount` trades, positive amounts give positive trades, and the run stops
      early only at a head that fails the price test. */
  lemma {:induction false} MarketRunFacts(book: seq<Entry>, accountId: int, price: real, amount: int, isBuy: bool)
    ensures var r := MarketRun(book, accountId, price, amount, isBuy);
      && (Sorted(book) ==> Sorted(r.book))
      && Total(r.book) == Total(book) - Volume(r.fills)
      && (amount <= 0 ==> r == Outcome(book, []))
      && (book != [] && !Matches(isBuy, price, book[0].price) ==> r == Outcome(book, []))
      && (amount > 0 ==> Volume(r.fills) <= amount)
      && (Positive(book) ==> Positive(r.book) && PositiveFills(r.fills))
      && (Volume(r.fills) < amount && r.book != [] ==> !Matches(isBuy, price, r.book[0].price))
    decreases |book| + (if amount > 0 then 1 else 0)
  {
    if !(amount <= 0 || book == [] || !Matches(isBuy, price, book[0].price)) {
      var qty := Min(amount, book[0].amount);
      var f := MarketTrade(accountId, book[0].accountId, book[0].price, qty, isBuy);
      MarketRunFacts(Remaining(book, qty), accountId, price, amount - qty, isBuy);
      RemainingFacts(book, qty);
      Cons(map[], f, MarketRun(Remaining(book, qty), accountId, price, amount - qty, isBuy).fills);
    }
  }

  /** Part of a market run is done: `fills` are booked on `accounts0` giving `accounts`, and
      running the rest of the order (`remaining`) on the current list `book` yields what the
      whole run `run` yields. */
  ghost predicate MarketProgress(accounts0: map<int, Account>, run: Outcome, book: seq<Entry>,
                                 accounts: map<int, Account>, fills: seq<Fill>, accountId: int, price: real,
                                 remaining: int, isBuy: bool) {
    match run
    case Outcome(finalBook, allFills) =>
      && Sorted(book) && Owners(book) <= accounts0.Keys && accountId in accounts0
      && Parties(fills) <= accounts0.Keys
      && accounts == SettleAll(accounts0, fills)
      && fills + MarketRun(book, accountId, price, remaining, isBuy).fills == allFills
      && MarketRun(book, accountId, price, remaining, isBuy).book == finalBook
  }

  /** A trade against the head moves one trade of the run from pending to booked. */
  lemma {:induction false} MarketProgressTrade(accounts0: map<int, Account>, run: Outcome, book: seq<Entry>,
                                               accounts: map<int, Account>, fills: seq<Fill>, accountId: int,
                                               price: real, remaining: int, isBuy: bool, f: Fill,
                                               book': seq<Entry>, accounts': map<int, Account>)
    requires MarketProgress(accounts0, run, book, accounts, fills, accountId, price, remaining, isBuy)
    requires remaining > 0 && book != [] && Matches(isBuy, price, book[0].price)
    requires f == MarketTrade(accountId, book[0].accountId, book[0].price, Min(remaining, book[0].amount), isBuy)
    requires book' == Remaining(book, f.qty) && accounts' == Settle(accounts, f)
    ensures MarketProgress(accounts0, run, book', accounts', fills + [f], accountId, price, remaining - f.qty, isBuy)
  {
    RemainingFacts(book, f.qty);
    Snoc(accounts0, fills, f);
    Shift(fills, f, MarketRun(book', accountId, price, remaining - f.qty, isBuy).fills);
  }

  /** When nothing is left to fill, the list is empty or its head fails the price test, the
      run is complete. */
  lemma {:induction false} MarketProgressEnd(accounts0: map<int, Account>, run: Outcome, book: seq<Entry>,
                                             accounts: map<int, Account>, fills: seq<Fill>, accountId: int,
                                             price: real, remaining: int, isBuy: bool)
    requires MarketProgress(accounts0, run, book, accounts, fills, accountId, price, remaining, isBuy)
    requires remaining <= 0 || book == [] || !Matches(isBuy, price, book[0].price)
    ensures book == run.book && fills == run.fills
  {
    assert fills + [] == fills;
  }

  /** Before the first pass the whole run is pending. */
  lemma MarketProgressStart(accounts0: map<int, Account>, book: seq<Entry>, accountId: int, price: real,
                            amount: int, isBuy: bool)
    requires Sorted(book) && Owners(book) <= accounts0.Keys && accountId in accounts0
    ensures MarketProgress(accounts0, MarketRun(book, accountId, price, amount, isBuy), book, accounts0, [],
                           accountId, price, amount, isBuy)
  {
    assert [] + MarketRun(book, accountId, price, amount, isBuy).fills == MarketRun(book, accountId, price, amount, isBuy).fills;
  }

  /** One pass of the market loop (python/market_order_executor.py:78-108) with `remaining`
      still to fill: when the head passes the price test it trades, `traded` is set and the
      fill joins `fills'`; otherwise nothing changes and the run is complete. */
  method MarketRound(counter: OrderList, ledger: Ledger, ghost accounts0: map<int, Account>, ghost run: Outcome,
                     ghost fills: seq<Fill>, accountId: int, price: real, remaining: int, isBuy: bool)
    returns (traded: bool, ghost fills': seq<Fill>, remaining': int)
    requires remaining > 0 && counter.items != []
    requires MarketProgress(accounts0, run, counter.items, ledger.accounts, fills, accountId, price, remaining, isBuy)
    modifies counter, ledger
    ensures MarketProgress(accounts0, run, counter.items, ledger.accounts, fills', accountId, price, remaining', isBuy)
    ensures traded ==> |counter.items| + (if remaining' > 0 then 1 else 0) <= old(|counter.items|)
    ensures !traded ==> counter.items == run.book && fills' == run.fills
  {
    var best := counter.Head();
    if (isBuy && price >= best.price) || (!isBuy && price <= Abs(best.price)) {
      var tradeAmount := Min(remaining, best.amount);
      var f := MarketTrade(accountId, best.accountId, best.price, tradeAmount, isBuy);
      ghost var book, accounts := counter.items, ledger.accounts;
      ledger.Record(f);
      Consume(counter, tradeAmount);
      MarketProgressTrade(accounts0, run, book, accounts, fills, accountId, price, remaining, isBuy,
                          f, counter.items, ledger.accounts);
      traded, fills', remaining' := true, fills + [f], remaining - tradeAmount;
    } else {
      MarketProgressEnd(accounts0, run, counter.items, ledger.accounts, fills, accountId, price, remaining, isBuy);
      traded, fills', remaining' := false, fills, remaining;
    }
  }

  /** Python `execute_market_order` (python/market_order_executor.py:69-108) on the counter
      list and the ledger: leaves the list and the ledger as the market run says. */
  method ExecuteMarketOrder(counter: OrderList, ledger: Ledger, accountId: int, price: real, amount: int,
                            isBuy: bool)
    requires Sorted(counter.items) && accountId in ledger.accounts
    requires Owners(counter.items) <= ledger.accounts.Keys
    modifies counter, ledger
    ensures counter.items == MarketRun(old(counter.items), accountId, price, amount, isBuy).book
    ensures ledger.accounts == SettleAll(old(ledger.accounts), MarketRun(old(counter.items), accountId, price, amount, isBuy).fills)
    ensures Sorted(counter.items)
  {
    ghost var run := MarketRun(counter.items, accountId, price, amount, isBuy);
    ghost var fills: seq<Fill> := [];
    var remaining := amount;
    MarketProgressStart(ledger.accounts, counter.items, accountId, price, amount, isBuy);
    while remaining > 0 && counter.items != []
      invariant MarketProgress(old(ledger.accounts), run, counter.items, ledger.accounts, fills, accountId, price,
                               remaining, isBuy)
      decreases |counter.items| + (if remaining > 0 then 1 else 0)
    {
      var traded;
      traded, fills, remaining := MarketRound(counter, ledger, old(ledger.accounts), run, fills, accountId, price,
                                              remaining, isBuy);
      if !traded {
        break;
      }
    }
    if remaining <= 0 || counter.items == [] {
      MarketProgressEnd(old(ledger.accounts), run, counter.items, ledger.accounts, fills, accountId, price,
                        remaining, isBuy);
    }
  }

  /** What the two lists and the trades come to after limit matching. */
  datatype Crossing = Crossing(own: seq<Entry>, counter: seq<Entry>, fills: seq<Fill>)

  /** Python `execute_limit_order` on values (python/market_order_executor.py:112-152): while
      both lists are non-empty and the own head's stored price is at least the counter head's,
      min of the two amounts trades at the counter head's stored price with the own side's
      account long, and both heads keep what they have left. */
  function LimitRun(own: seq<Entry>, counter: seq<Entry>): (r: Crossing)
    ensures Parties(r.fills) <= Owners(own) + Owners(counter)
    ensures forall f <- r.fills :: f.long in Owners(own) && f.short in Owners(counter)
    ensures Owners(r.own) <= Owners(own) && Owners(r.counter) <= Owners(counter)
    decreases |own| + |counter|
  {
    if own == [] || counter == [] || own[0].price < counter[0].price then Crossing(own, counter, [])
    else
      var qty := Min(own[0].amount, counter[0].amount);
      var f := Fill(own[0].accountId, counter[0].accountId, qty, counter[0].price);
      var rest := LimitRun(Remaining(own, qty), Remaining(counter, qty));
      RemainingFacts(own, qty);
      RemainingFacts(counter, qty);
      Cons(map[], f, rest.fills);
      Crossing(rest.own, rest.counter, [f] + rest.fills)
  }

  /** What limit matching promises: both lists stay sorted and each loses exactly the traded
      quantity, positive amounts give positive trades, and matching stops only when a list is
      empty or the heads no longer cross. */
  lemma {:induction false} LimitRunFacts(own: seq<Entry>, counter: seq<Entry>)
    ensures var r := LimitRun(own, counter);
      && (Sorted(own) ==> Sorted(r.own))
      && (Sorted(counter) ==> Sorted(r.counter))
      && Total(r.own) == Total(own) - Volume(r.fills)
      && Total(r.counter) == Total(counter) - Volume(r.fills)
      && (Positive(own) && Positive(counter) ==> Positive(r.own) && Positive(r.counter) && PositiveFills(r.fills))
      && (r.own != [] && r.counter != [] ==> r.own[0].price < r.counter[0].price)
    decreases |own| + |counter|
  {
    if !(own == [] || counter == [] || own[0].price < counter[0].price) {
      var qty := Min(own[0].amount, counter[0].amount);
      var f := Fill(own[0].accountId, counter[0].accountId, qty, counter[0].price);
      LimitRunFacts(Remaining(own, qty), Remaining(counter, qty));
      RemainingFacts(own, qty);
      RemainingFacts(counter, qty);
      Cons(map[], f, LimitRun(Remaining(own, qty), Remaining(counter, qty)).fills);
    }
  }

  /** Part of limit matching is done: `fills` are booked on `accounts0` giving `accounts`, and
      matching the current lists yields what the whole crossing `run` yields. */
  ghost predicate LimitProgress(accounts0: map<int, Account>, run: Crossing, own: seq<Entry>, counter: seq<Entry>,
                                accounts: map<int, Account>, fills: seq<Fill>) {
    match run
    case Crossing(finalOwn, finalCounter, allFills) =>
      && Sorted(own) && Sorted(counter)
      && Owners(own) <= accounts0.Keys && Owners(counter) <= accounts0.Keys
      && Parties(fills) <= accounts0.Keys
      && accounts == SettleAll(accounts0, fills)
      && fills + LimitRun(own, counter).fills == allFills
      && LimitRun(own, counter).own == finalOwn
      && LimitRun(own, counter).counter == finalCounter
  }

  /** Before the first pass the whole crossing is pending. */
  lemma LimitProgressStart(accounts0: map<int, Account>, own: seq<Entry>, counter: seq<Entry>)
    requires Sorted(own) && Sorted(counter) && Owners(own) <= accounts0.Keys && Owners(counter) <= accounts0.Keys
    ensures LimitProgress(accounts0, LimitRun(own, counter), own, counter, accounts0, [])
  {
    assert [] + LimitRun(own, counter).fills == LimitRun(own, counter).fills;
  }

  /** A crossing trade moves one trade of the run from pending to booked. */
  lemma {:induction false} LimitProgressTrade(accounts0: map<int, Account>, run: Crossing, own: seq<Entry>,
                                              counter: seq<Entry>, accounts: map<int, Account>, fills: seq<Fill>,
                                              f: Fill, own': seq<Entry>, counter': seq<Entry>,
                                              accounts': map<int, Account>)
    requires LimitProgress(accounts0, run, own, counter, accounts, fills)
    requires own != [] && counter != [] && own[0].price >= counter[0].price
    requires f == Fill(own[0].accountId, counter[0].accountId, Min(own[0].amount, counter[0].amount), counter[0].price)
    requires own' == Remaining(own, f.qty) && counter' == Remaining(counter, f.qty)
    requires accounts' == Settle(accounts, f)
    ensures LimitProgress(accounts0, run, own', counter', accounts', fills + [f])
  {
    RemainingFacts(own, f.qty);
    RemainingFacts(counter, f.qty);
    Snoc(accounts0, fills, f);
    Shift(fills, f, LimitRun(own', counter').fills);
  }

  /** When a list is empty or the heads do not cross, the crossing is complete. */
  lemma {:induction false} LimitProgressEnd(accounts0: map<int, Account>, run: Crossing, own: seq<Entry>,
                                            counter: seq<Entry>, accounts: map<int, Account>, fills: seq<Fill>)
    requires LimitProgress(accounts0, run, own, counter, accounts, fills)
    requires own == [] || counter == [] || own[0].price < counter[0].price
    ensures own == run.own && counter == run.counter && fills == run.fills
  {
    assert fills + [] == fills;
  }

  /** One pass of the limit loop (python/market_order_executor.py:117-152): when the heads cross
      they trade, `traded` is set and the fill joins `fills'`; otherwise nothing changes and the
      crossing is complete. */
  method LimitRound(own: OrderList, counter: OrderList, ledger: Ledger, ghost accounts0: map<int, Account>,
                    ghost run: Crossing, ghost fills: seq<Fill>)
    returns (traded: bool, ghost fills': seq<Fill>)
    requires own != counter && own.items != [] && counter.items != []
    requires LimitProgress(accounts0, run, own.items, counter.items, ledger.accounts, fills)
    modifies own, counter, ledger
    ensures LimitProgress(accounts0, run, own.items, counter.items, ledger.accounts, fills')
    ensures traded ==> |own.items| + |counter.items| < old(|own.items| + |counter.items|)
    ensures !traded ==> own.items == run.own && counter.items == run.counter && fills' == run.fills
  {
    var bestOwn := own.Head();
    var bestCounter := counter.Head();
    if bestOwn.price >= bestCounter.price {
      var tradeAmount := Min(bestOwn.amount, bestCounter.amount);
      var f := Fill(bestOwn.accountId, bestCounter.accountId, tradeAmount, bestCounter.price);
      ghost var ownBook, counterBook, accounts := own.items, counter.items, ledger.accounts;
      ledger.Record(f);
      Consume(own, tradeAmount);
      Consume(counter, tradeAmount);
      LimitProgressTrade(accounts0, run, ownBook, counterBook, accounts, fills, f, own.items, counter.items,
                         ledger.accounts);
      traded, fills' := true, fills + [f];
    } else {
      LimitProgressEnd(accounts0, run, own.items, counter.items, ledger.accounts, fills);
      traded, fills' := false, fills;
    }
  }

  /** Python `execute_limit_order` (python/market_order_executor.py:112-152) on the two lists and
      the ledger: leaves both lists and the ledger as limit matching says. */
  method ExecuteLimitOrder(own: OrderList, counter: OrderList, ledger: Ledger)
    requires own != counter && Sorted(own.items) && Sorted(counter.items)
    requires Owners(own.items) <= ledger.accounts.Keys && Owners(counter.items) <= ledger.accounts.Keys
    modifies own, counter, ledger
    ensures own.items == LimitRun(old(own.items), old(counter.items)).own
    ensures counter.items == LimitRun(old(own.items), old(counter.items)).counter
    ensures ledger.accounts == SettleAll(old(ledger.accounts), LimitRun(old(own.items), old(counter.items)).fills)
    ensures Sorted(own.items) && Sorted(counter.items)
  {
    ghost var run := LimitRun(own.items, counter.items);
    ghost var fills: seq<Fill> := [];
    LimitProgressStart(ledger.accounts, own.items, counter.items);
    while own.items != [] && counter.items != []
      invariant LimitProgress(old(ledger.accounts), run, own.items, counter.items, ledger.accounts, fills)
      decreases |own.items| + |counter.items|
    {
      var traded;
      traded, fills := LimitRound(own, counter, ledger, old(ledger.accounts), run, fills);
      if !traded {
        break;
      }
    }
    if own.items == [] || counter.items == [] {
      LimitProgressEnd(old(ledger.accounts), run, own.items, counter.items, ledger.accounts, fills);
    }
  }

  /** Python `execute_ioc_order` on values (python/market_order_executor.py:156-198): one look at
      the head; if it passes the price test, min(amount, its amount) trades at the magnitude of
      its price and the head keeps what it has left. Nothing checks that `amount` is positive, and
      the closing `amount == initial_amount` test returns either way, so the unfilled part is
      simply dropped. */
  function IocRun(book: seq<Entry>, accountId: int, price: real, amount: int, isBuy: bool): (r: Outcome)
    ensures |r.fills| <= 1
    ensures r.fills != [] <==> book != [] && Matches(isBuy, price, book[0].price)
    ensures r.fills != [] ==> r.fills[0] == MarketTrade(accountId, book[0].accountId, book[0].price,
                                                         Min(amount, book[0].amount), isBuy)
    ensures r.fills == [] ==> r.book == book
  {
    if book == [] || !Matches(isBuy, price, book[0].price) then Outcome(book, [])
    else
      var qty := Min(amount, book[0].amount);
      Outcome(Remaining(book, qty), [MarketTrade(accountId, book[0].accountId, book[0].price, qty, isBuy)])
  }

  /** What an IOC order promises: the list stays sorted and loses exactly the traded quantity,
      the trade is between the order's account and the head's, the smaller of `amount` and the
      head's amount trades, and positive amounts give a positive trade. */
  lemma IocRunFacts(book: seq<Entry>, accountId: int, price: real, amount: int, isBuy: bool)
    ensures var r := IocRun(book, accountId, price, amount, isBuy);
      && (Sorted(book) ==> Sorted(r.book))
      && Total(r.book) == Total(book) - Volume(r.fills)
      && Parties(r.fills) <= Owners(book) + {accountId}
      && Owners(r.book) <= Owners(book)
      && (r.fills != [] ==> Volume(r.fills) == Min(amount, book[0].amount))
      && (Positive(book) && amount > 0 ==> Positive(r.book) && PositiveFills(r.fills))
  {
    if book != [] && Matches(isBuy, price, book[0].price) {
      var f := MarketTrade(accountId, book[0].accountId, book[0].price, Min(amount, book[0].amount), isBuy);
      RemainingFacts(book, f.qty);
      assert [f][..0] == [];
      assert Volume([f]) == Volume([]) + f.qty;
      assert Parties([f]) == Parties([]) + {f.long, f.short};
    }
  }

  /** Python `execute_ioc_order` (python/market_order_executor.py:156-198) on the counter list
      and the ledger. */
  method ExecuteIOCOrder(counter: OrderList, ledger: Ledger, accountId: int, price: real, amount: int,
                         isBuy: bool)
    requires Sorted(counter.items) && accountId in ledger.accounts
    requires Owners(counter.items) <= ledger.accounts.Keys
    modifies counter, ledger
    ensures counter.items == IocRun(old(counter.items), accountId, price, amount, isBuy).book
    ensures ledger.accounts == SettleAll(old(ledger.accounts), IocRun(old(counter.items), accountId, price, amount, isBuy).fills)
    ensures Sorted(counter.items)
  {
    if counter.items != [] {
      var best := counter.Head();
      if (isBuy && price >= best.price) || (!isBuy && price <= Abs(best.price)) {
        var tradeAmount := Min(amount, best.amount);
        var f := MarketTrade(accountId, best.accountId, best.price, tradeAmount, isBuy);
        ledger.Record(f);
        Consume(counter, tradeAmount);
        Snoc(old(ledger.accounts), [], f);
      }
    }
  }

  /** Python `execute_fok_order` on values (python/market_order_executor.py:202-244): one look at
      the head; only if it passes the price test and holds at least `amount` does exactly
      `amount` trade at the magnitude of its price, and then the whole head is popped, so
      whatever it held beyond `amount` leaves the book untraded. */
  function FokRun(book: seq<Entry>, accountId: int, price: real, amount: int, isBuy: bool): (r: Outcome)
    ensures |r.fills| <= 1
    ensures r.fills != [] <==> book != [] && Matches(isBuy, price, book[0].price) && book[0].amount >= amount
    ensures r.fills != [] ==> r.fills[0] == MarketTrade(accountId, book[0].accountId, book[0].price, amount, isBuy)
    ensures r.fills == [] ==> r.book == book
  {
    if book != [] && Matches(isBuy, price, book[0].price) && book[0].amount >= amount then
      Outcome(book[1..], [MarketTrade(accountId, book[0].accountId, book[0].price, amount, isBuy)])
    else Outcome(book, [])
  }

  /** What a FOK order promises: the list stays sorted; a filled order trades exactly `amount`
      and removes the head's whole amount from the list, which is more than was traded whenever
      the head held more. */
  lemma FokRunFacts(book: seq<Entry>, accountId: int, price: real, amount: int, isBuy: bool)
    ensures var r := FokRun(book, accountId, price, amount, isBuy);
      && (Sorted(book) ==> Sorted(r.book))
      && Parties(r.fills) <= Owners(book) + {accountId}
      && Owners(r.book) <= Owners(book)
      && (r.fills != [] ==> Volume(r.fills) == amount && Total(r.book) == Total(book) - book[0].amount)
      && (r.fills == [] ==> Total(r.book) == Total(book))
      && (Positive(book) ==> Positive(r.book))
      && (amount > 0 ==> PositiveFills(r.fills))
  {
    if book != [] && Matches(isBuy, price, book[0].price) && book[0].amount >= amount {
      var f := MarketTrade(accountId, book[0].accountId, book[0].price, amount, isBuy);
      assert Volume([f]) == Volume([]) + f.qty;
      assert Parties([f]) == Parties([]) + {f.long, f.short};
    }
  }

  /** Python `execute_fok_order` (python/market_order_executor.py:202-244) on the counter list and
      the ledger. */
  method ExecuteFOKOrder(counter: OrderList, ledger: Ledger, accountId: int, price: real, amount: int,
                         isBuy: bool)
    requires Sorted(counter.items) && accountId in ledger.accounts
    requires Owners(counter.items) <= ledger.accounts.Keys
    modifies counter, ledger
    ensures counter.items == FokRun(old(counter.items), accountId, price, amount, isBuy).book
    ensures ledger.accounts == SettleAll(old(ledger.accounts), FokRun(old(counter.items), accountId, price, amount, isBuy).fills)
    ensures Sorted(counter.items)
  {
    var canFulfill := false;
    var totalTradeAmount := 0;
    var bestPrice, bestAccountId := 0.0, 0;
    if counter.items != [] {
      var best := counter.Head();
      bestPrice, bestAccountId := best.price, best.accountId;
      if (isBuy && price >= best.price) || (!isBuy && price <= Abs(best.price)) {
        if best.amount >= amount {
          canFulfill := true;
          totalTradeAmount := amount;
        }
      }
    }
    if canFulfill {
      var f := MarketTrade(accountId, bestAccountId, bestPrice, totalTradeAmount, isBuy);
      ledger.Record(f);
      counter.HeapPop();
      Snoc(old(ledger.accounts), [], f);
    }
  }

  /** Both lists and the trades of one order or of a batch. */
  datatype Books = Books(buy: seq<Entry>, sell: seq<Entry>, fills: seq<Fill>)

  /** The tuple a limit order rests as (python/market_order_executor.py:44, 47): a bid with its
      price negated, an ask with its price as given. */
  function Resting(o: Order): (e: Entry)
    ensures e.accountId == o.accountId && e.amount == o.amount && e.orderId == o.orderId
    ensures e.price == if o.dir == 0 then -o.price else o.price
  {
    Entry(if o.dir == 0 then -o.price else o.price, o.orderId, o.amount, o.accountId)
  }

  /** One order of the Python loop on values (python/market_order_executor.py:34-63): direction 0
      buys against the sell list, any other direction sells against the buy list; a limit order
      is pushed onto its own list and then matched; an order of any other type is ignored. */
  function Step(buy: seq<Entry>, sell: seq<Entry>, o: Order): (r: Books)
    ensures Parties(r.fills) <= Owners(buy) + Owners(sell) + {o.accountId}
    ensures Owners(r.buy) <= Owners(buy) + {o.accountId} && Owners(r.sell) <= Owners(sell) + {o.accountId}
    ensures o.kind !in {"market", "limit", "ioc", "fok"} ==> r == Books(buy, sell, [])
    ensures o.kind != "limit" && o.dir == 0 ==> r.buy == buy
    ensures o.kind != "limit" && o.dir != 0 ==> r.sell == sell
  {
    var isBuy := o.dir == 0;
    if o.kind == "market" then
      if isBuy then var m := MarketRun(sell, o.accountId, o.price, o.amount, true); Books(buy, m.book, m.fills)
      else var m := MarketRun(buy, o.accountId, o.price, o.amount, false); Books(m.book, sell, m.fills)
    else if o.kind == "limit" then
      if isBuy then
        InsertSummary(buy, Resting(o));
        var c := LimitRun(Insert(buy, Resting(o)), sell); Books(c.own, c.counter, c.fills)
      else
        InsertSummary(sell, Resting(o));
        var c := LimitRun(Insert(sell, Resting(o)), buy); Books(c.counter, c.own, c.fills)
    else if o.kind == "ioc" then
      IocRunFacts(if isBuy then sell else buy, o.accountId, o.price, o.amount, isBuy);
      if isBuy then var m := IocRun(sell, o.accountId, o.price, o.amount, true); Books(buy, m.book, m.fills)
      else var m := IocRun(buy, o.accountId, o.price, o.amount, false); Books(m.book, sell, m.fills)
    else if o.kind == "fok" then
      FokRunFacts(if isBuy then sell else buy, o.accountId, o.price, o.amount, isBuy);
      if isBuy then var m := FokRun(sell, o.accountId, o.price, o.amount, true); Books(buy, m.book, m.fills)
      else var m := FokRun(buy, o.accountId, o.price, o.amount, false); Books(m.book, sell, m.fills)
    else Books(buy, sell, [])
  }

  /** One order keeps both lists sorted, and with positive amounts everywhere it keeps every
      resting amount positive and trades positive quantities. */
  lemma StepFacts(buy: seq<Entry>, sell: seq<Entry>, o: Order)
    requires Sorted(buy) && Sorted(sell)
    ensures Sorted(Step(buy, sell, o).buy) && Sorted(Step(buy, sell, o).sell)
    ensures Positive(buy) && Positive(sell) && o.amount > 0 ==>
      Positive(Step(buy, sell, o).buy) && Positive(Step(buy, sell, o).sell) && PositiveFills(Step(buy, sell, o).fills)
  {
    var isBuy := o.dir == 0;
    var counter := if isBuy then sell else buy;
    if o.kind == "market" {
      MarketRunFacts(counter, o.accountId, o.price, o.amount, isBuy);
    } else if o.kind == "limit" {
      var own := if isBuy then buy else sell;
      InsertSorted(own, Resting(o));
      InsertSummary(own, Resting(o));
      LimitRunFacts(Insert(own, Resting(o)), counter);
    } else if o.kind == "ioc" {
      IocRunFacts(counter, o.accountId, o.price, o.amount, isBuy);
    } else if o.kind == "fok" {
      FokRunFacts(counter, o.accountId, o.price, o.amount, isBuy);
    }
  }

  /** Python `process_orders` on values (python/market_order_executor.py:14-65): the orders run
      one after another from two empty lists, and the trades of the batch are those of each
      order in turn. */
  function Run(orders: seq<Order>): (r: Books)
    ensures Parties(r.fills) <= Ids(orders)
    ensures Owners(r.buy) <= Ids(orders) && Owners(r.sell) <= Ids(orders)
  {
    if orders == [] then Books([], [], [])
    else
      var n := |orders| - 1;
      var prev := Run(orders[..n]);
      var s := Step(prev.buy, prev.sell, orders[n]);
      BatchStep(orders[..n], orders[n], prev.fills, s.fills);
      SplitLast(orders);
      Books(s.buy, s.sell, prev.fills + s.fills)
  }

  /** A batch leaves both lists sorted, and with positive amounts in every order, every resting
      amount and every trade is positive. */
  lemma {:induction false} RunFacts(orders: seq<Order>)
    ensures Sorted(Run(orders).buy) && Sorted(Run(orders).sell)
    ensures PositiveOrders(orders) ==>
      Positive(Run(orders).buy) && Positive(Run(orders).sell) && PositiveFills(Run(orders).fills)
  {
    if orders != [] {
      var n := |orders| - 1;
      RunFacts(orders[..n]);
      var prev := Run(orders[..n]);
      StepFacts(prev.buy, prev.sell, orders[n]);
      BatchStep(orders[..n], orders[n], prev.fills, Step(prev.buy, prev.sell, orders[n]).fills);
      SplitLast(orders);
    }
  }

  /** One pass of the Python loop (python/market_order_executor.py:23-63): opens the account if
      it is new, then runs the order on the two lists. */
  method ProcessOrder(buy: OrderList, sell: OrderList, ledger: Ledger, order: Order)
    requires buy != sell && Sorted(buy.items) && Sorted(sell.items)
    requires Owners(buy.items) <= ledger.accounts.Keys && Owners(sell.items) <= ledger.accounts.Keys
    modifies buy, sell, ledger
    ensures buy.items == Step(old(buy.items), old(sell.items), order).buy
    ensures sell.items == Step(old(buy.items), old(sell.items), order).sell
    ensures ledger.accounts == SettleAll(Opened(old(ledger.accounts), order.accountId),
                                         Step(old(buy.items), old(sell.items), order).fills)
    ensures Sorted(buy.items) && Sorted(sell.items)
  {
    ledger.Open(order.accountId);
    var isBuy := order.dir == 0;
    var own, counter := if isBuy then buy else sell, if isBuy then sell else buy;
    if order.kind == "market" {
      ExecuteMarketOrder(counter, ledger, order.accountId, order.price, order.amount, isBuy);
    } else if order.kind == "limit" {
      own.HeapPush(Resting(order));
      InsertSummary(old(own.items), Resting(order));
      ExecuteLimitOrder(own, counter, ledger);
    } else if order.kind == "ioc" {
      ExecuteIOCOrder(counter, ledger, order.accountId, order.price, order.amount, isBuy);
    } else if order.kind == "fok" {
      ExecuteFOKOrder(counter, ledger, order.accountId, order.price, order.amount, isBuy);
    }
  }

  /** Python `process_orders` (python/market_order_executor.py:14-65): runs the batch in order
      against two empty lists and an empty account dictionary. Every account that places an
      order ends with a record, and the records are what booking all the trades of the batch, in
      the order they happened, on zeroed accounts gives. */
  method ProcessOrders(orders: seq<Order>) returns (accounts: map<int, Account>)
    ensures accounts.Keys == Ids(orders)
    ensures accounts == SettleAll(Zeroed(Ids(orders)), Run(orders).fills)
  {
    var buy := new OrderList();
    var sell := new OrderList();
    var ledger := new Ledger();
    for i := 0 to |orders|
      invariant buy != sell
      invariant buy.items == Run(orders[..i]).buy && sell.items == Run(orders[..i]).sell
      invariant Sorted(buy.items) && Sorted(sell.items)
      invariant ledger.accounts == SettleAll(Zeroed(Ids(orders[..i])), Run(orders[..i]).fills)
    {
      ghost var prev := Run(orders[..i]);
      ProcessOrder(buy, sell, ledger, orders[i]);
      ghost var next := Step(prev.buy, prev.sell, orders[i]).fills;
      BatchStep(orders[..i], orders[i], prev.fills, next);
      TakeOneMore(orders, i);
      RunFacts(orders[..i + 1]);
    }
    assert orders[..|orders|] == orders;
    accounts := ledger.accounts;
  }

  /** A limit buy of 100 at 10 by account 1 followed by a limit sell of 100 at 10 by account 2.
      The bid rests as -10; the ask then crosses it (10 >= -10), and the seller's side, being
      the own side, is booked long at the bid's stored price -10: account 1 ends short 100 and
      account 2 long 100, both saldos are 1000 in size, and both turnovers are -1000. */
  lemma LimitPairExample()
    ensures var orders := [Order(1, "limit", 1, 0, 10.0, 100), Order(2, "limit", 2, 1, 10.0, 100)];
      && Run(orders) == Books([], [], [Fill(2, 1, 100, -10.0)])
      && SettleAll(Zeroed(Ids(orders)), Run(orders).fills)
         == map[1 := Account(-1000.0, -100, -1000.0, 100), 2 := Account(1000.0, 100, -1000.0, 100)]
  {
    var orders := [Order(1, "limit", 1, 0, 10.0, 100), Order(2, "limit", 2, 1, 10.0, 100)];
    assert orders[..1] == [orders[0]];
    assert orders[..1][..0] == [];
    var bid := Entry(-10.0, 1, 100, 1);
    var ask := Entry(10.0, 2, 100, 2);
    assert Run(orders[..1]) == Books([bid], [], []);
    assert LimitRun([ask], [bid]) == Crossing([], [], [Fill(2, 1, 100, -10.0)]);
    assert Run(orders) == Books([], [], [Fill(2, 1, 100, -10.0)]);
    assert Ids(orders) == {1, 2};
    var fills := [Fill(2, 1, 100, -10.0)];
    assert fills[..0] == [];
  }

  /** A limit sell of 60 at 10 by account 2 followed by a limit buy of 100 at 10 by account 1:
      the bid rests as -10, which is below the ask's 10, so nothing trades and both orders rest
      in full. */
  lemma PartialFillExample()
    ensures var orders := [Order(1, "limit", 2, 1, 10.0, 60), Order(2, "limit", 1, 0, 10.0, 100)];
      Run(orders) == Books([Entry(-10.0, 2, 100, 1)], [Entry(10.0, 1, 60, 2)], [])
  {
    var orders := [Order(1, "limit", 2, 1, 10.0, 60), Order(2, "limit", 1, 0, 10.0, 100)];
    assert orders[..1] == [orders[0]];
    assert orders[..1][..0] == [];
    var ask := Entry(10.0, 1, 60, 2);
    assert Run(orders[..1]) == Books([], [ask], []);
  }
}
