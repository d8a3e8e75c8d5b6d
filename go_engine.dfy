/** The Go matching engine of go/main.go: a max-heap of orders per side, the four execution
    policies and the batch driver. The heap's internal sift is not modelled: a queue is its
    slice of orders, and removing the top returns SOME order with the largest stored price,
    which one among equal prices being left open. */
module GoEngine {
  import opened Accounts

  function Max(a: real, b: real): (r: real)
    ensures r >= a && r >= b && (r == a || r == b)
  {
    if a >= b then a else b
  }

  /** The heap order: `a` leaves the queue before `b` when its stored price is higher. */
  predicate Before(a: Order, b: Order) {
    a.price > b.price
  }

  /** Total quantity resting in a queue. */
  function Total(s: seq<Order>): int {
    if s == [] then 0 else Total(s[..|s| - 1]) + s[|s| - 1].amount
  }

  /** The accounts that own an order in the queue. */
  function Owners(s: seq<Order>): set<int> {
    if s == [] then {} else Owners(s[..|s| - 1]) + {s[|s| - 1].accountId}
  }

  /** Every order in the queue has a positive amount. */
  predicate Positive(s: seq<Order>) {
    s == [] || (Positive(s[..|s| - 1]) && s[|s| - 1].amount > 0)
  }

  /** The largest stored price in a non-empty queue: the price of the order heap.Pop returns. */
  function MaxPrice(s: seq<Order>): real
    requires s != []
  {
    if |s| == 1 then s[0].price else Max(MaxPrice(s[..|s| - 1]), s[|s| - 1].price)
  }

  /** The order a limit order rests as (go/main.go:81, 84): it keeps its id, account and
      amount; a bid rests with its price negated, an ask with its price unchanged. */
  function Resting(o: Order): (r: Order)
    ensures r.orderId == o.orderId && r.accountId == o.accountId && r.amount == o.amount
    ensures r.price == if o.dir == 0 then -o.price else o.price
  {
    Order(o.orderId, "", o.accountId, 0, if o.dir == 0 then -o.price else o.price, o.amount)
  }

  /** Appending one order to a queue adds it to every summary. */
  lemma QueueSnoc(s: seq<Order>, o: Order)
    ensures Total(s + [o]) == Total(s) + o.amount
    ensures Owners(s + [o]) == Owners(s) + {o.accountId}
    ensures Positive(s + [o]) <==> Positive(s) && o.amount > 0
    ensures MaxPrice(s + [o]) == if s == [] then o.price else Max(MaxPrice(s), o.price)
  {
    assert (s + [o])[..|s|] == s;
  }

  /** Every queued order's account is among the owners, its price is at most the largest
      price, and its amount is positive when the queue is. */
  lemma {:induction false} Members(s: seq<Order>)
    ensures forall o <- s :: o.accountId in Owners(s) && o.price <= MaxPrice(s) && (Positive(s) ==> o.amount > 0)
    decreases |s|
  {
    if s != [] {
      var n := |s| - 1;
      assert s == s[..n] + [s[n]];
      Members(s[..n]);
      QueueSnoc(s[..n], s[n]);
      forall o | o in s
        ensures o.accountId in Owners(s) && o.price <= MaxPrice(s) && (Positive(s) ==> o.amount > 0)
      {
        if o != s[n] {
          assert o in s[..n];
        }
      }
    }
  }

  /** A queue whose orders all come from `s` has no other owners, no larger price, and is
      positive when `s` is. */
  lemma {:induction false} SubQueue(t: seq<Order>, s: seq<Order>)
    requires forall o <- t :: o in s
    ensures Owners(t) <= Owners(s)
    ensures Positive(s) ==> Positive(t)
    ensures t != [] && s != [] ==> MaxPrice(t) <= MaxPrice(s)
    decreases |t|
  {
    if t != [] {
      var n := |t| - 1;
      assert t == t[..n] + [t[n]];
      assert t[n] in s;
      SubQueue(t[..n], s);
      QueueSnoc(t[..n], t[n]);
      Members(s);
    }
  }

  /** The largest price belongs to some queued order. */
  lemma {:induction false} MaxAttained(s: seq<Order>)
    requires s != []
    ensures exists i :: 0 <= i < |s| && s[i].price == MaxPrice(s)
    decreases |s|
  {
    if |s| > 1 {
      var n := |s| - 1;
      MaxAttained(s[..n]);
      var i :| 0 <= i < n && s[..n][i].price == MaxPrice(s[..n]);
      if MaxPrice(s) != s[n].price {
        assert s[i].price == MaxPrice(s);
      }
    } else {
      assert s[0].price == MaxPrice(s);
    }
  }

  lemma {:induction false} TotalUpdate(s: seq<Order>, i: int, o: Order)
    requires 0 <= i < |s|
    ensures Total(s[i := o]) == Total(s) - s[i].amount + o.amount
    decreases |s|
  {
    var n := |s| - 1;
    if i < n {
      assert s[i := o][..n] == s[..n][i := o];
      TotalUpdate(s[..n], i, o);
    } else {
      assert s[i := o][..n] == s[..n];
    }
  }

  /** Moving the last order into slot `i` and dropping the last slot removes exactly `s[i]`. */
  lemma RemoveAtMultiset(s: seq<Order>, i: int)
    requires 0 <= i < |s|
    ensures multiset(s[i := s[|s| - 1]][..|s| - 1]) + multiset{s[i]} == multiset(s)
  {
    var n := |s| - 1;
    assert s == s[..n] + [s[n]];
    if i < n {
      assert s[i := s[n]][..n] == s[..n][i := s[n]];
    }
  }

  /** Removing `s[i]` that way leaves only orders of `s`. */
  lemma RemoveAtMembers(s: seq<Order>, i: int)
    requires 0 <= i < |s|
    ensures forall o <- s[i := s[|s| - 1]][..|s| - 1] :: o in s
  {
    var n := |s| - 1;
    var t := s[i := s[n]][..n];
    forall o | o in t
      ensures o in s
    {
      var k :| 0 <= k < n && t[k] == o;
      assert o == (if k == i then s[n] else s[k]);
    }
  }

  /** Removing `s[i]` that way takes its amount off the total. */
  lemma RemoveAtTotal(s: seq<Order>, i: int)
    requires 0 <= i < |s|
    ensures Total(s[i := s[|s| - 1]][..|s| - 1]) == Total(s) - s[i].amount
  {
    var n := |s| - 1;
    var u := s[i := s[n]];
    TotalUpdate(s, i, s[n]);
    assert Total(u) == Total(u[..n]) + u[n].amount;
  }

  /** What removing an order with the largest price does to the queue's summaries. */
  lemma RemoveBest(s: seq<Order>, i: int)
    requires 0 <= i < |s| && s[i].price == MaxPrice(s)
    ensures var t := s[i := s[|s| - 1]][..|s| - 1];
      && multiset(t) + multiset{s[i]} == multiset(s)
      && Total(t) == Total(s) - s[i].amount
      && Owners(t) <= Owners(s) && s[i].accountId in Owners(s)
      && (Positive(s) ==> Positive(t) && s[i].amount > 0)
      && (t != [] ==> MaxPrice(t) <= s[i].price)
  {
    var t := s[i := s[|s| - 1]][..|s| - 1];
    RemoveAtMultiset(s, i);
    RemoveAtMembers(s, i);
    RemoveAtTotal(s, i);
    Members(s);
    assert s[i] in s;
    SubQueue(t, s);
  }

  /** After the swap of slot `i` with the last slot, the popped last element is `s[i]` and the
      rest is `s` with `s[i]` replaced by the last order. */
  lemma SwapPopped(s: seq<Order>, i: int, rest: seq<Order>, x: Order)
    requires 0 <= i < |s| && rest + [x] == s[i := s[|s| - 1]][|s| - 1 := s[i]]
    ensures rest == s[i := s[|s| - 1]][..|s| - 1] && x == s[i]
  {
    var n := |s| - 1;
    assert (rest + [x])[..n] == rest && (rest + [x])[n] == x;
  }

  /** `rest` is what is left of the queue `s` once heap.Pop returned `x`: an order of `s` with
      the largest stored price, taken out once, so its amount leaves the total and no new owner
      or higher price appears. */
  ghost predicate PoppedFrom(s: seq<Order>, x: Order, rest: seq<Order>) {
    && s != [] && x in s && x.price == MaxPrice(s)
    && multiset(rest) + multiset{x} == multiset(s)
    && Total(rest) == Total(s) - x.amount
    && Owners(rest) <= Owners(s) && x.accountId in Owners(s)
    && (Positive(s) ==> Positive(rest) && x.amount > 0)
    && (rest != [] ==> MaxPrice(rest) <= x.price)
  }

  /** `t` is the queue `s` once heap.Push added `x`. */
  ghost predicate PushedOnto(s: seq<Order>, x: Order, t: seq<Order>) {
    && multiset(t) == multiset(s) + multiset{x}
    && Total(t) == Total(s) + x.amount
    && Owners(t) == Owners(s) + {x.accountId}
    && (Positive(t) <==> Positive(s) && x.amount > 0)
    && t != [] && MaxPrice(t) == (if s == [] then x.price else Max(MaxPrice(s), x.price))
  }

  /** `t` is the queue `s` once what is left of the popped order `hit` after `qty` of it traded
      went back (go/main.go:135-138). */
  ghost predicate Refilled(s: seq<Order>, hit: Order, qty: int, t: seq<Order>) {
    && multiset(t) == multiset(s) + Leftover(hit, qty)
    && Owners(t) <= Owners(s) + {hit.accountId}
    && Total(t) == Total(s) + (if qty < hit.amount then hit.amount - qty else 0)
    && (Positive(s) ==> Positive(t))
  }

  /** Go `PriorityQueue`: the slice behind container/heap. */
  class PriorityQueue {
    var items: seq<Order>

    constructor ()
      ensures items == []
    {
      items := [];
    }

    /** The number of queued orders. */
    function Len(): (n: int)
      reads this
      ensures n == |multiset(items)|
    {
      |items|
    }

    /** heap.Interface Less: the order at `i` has the higher priority. An order that another
        queued order outranks is never one heap.Pop returns: its price is below the largest. */
    predicate Less(i: int, j: int)
      reads this
      requires 0 <= i < |items| && 0 <= j < |items|
      ensures Less(i, j) ==> items[j].price < MaxPrice(items)
    {
      Members(items);
      Before(items[i], items[j])
    }

    /** Less is a strict order, as container/heap requires of it. */
    lemma LessIsStrictOrder(i: int, j: int, k: int)
      requires 0 <= i < |items| && 0 <= j < |items| && 0 <= k < |items|
      ensures !Less(i, i)
      ensures Less(i, j) ==> !Less(j, i)
      ensures Less(i, j) && Less(j, k) ==> Less(i, k)
    {
    }

    method Swap(i: int, j: int)
      requires 0 <= i < |items| && 0 <= j < |items|
      modifies this
      ensures items == old(items)[i := old(items)[j]][j := old(items)[i]]
      ensures multiset(items) == old(multiset(items))
    {
      items := items[i := items[j]][j := items[i]];
    }

    /** The slice-level Push that heap.Push calls: append at the end. */
    method Push(x: Order)
      modifies this
      ensures items == old(items) + [x]
    {
      items := items + [x];
    }

    /** The slice-level Pop that heap.Pop calls: remove the last element. */
    method Pop() returns (x: Order)
      requires items != []
      modifies this
      ensures old(items) == items + [x]
    {
      x := items[|items| - 1];
      items := items[..|items| - 1];
    }

    /** heap.Push: adds `x` to the queue (the sift-up that restores heap order is not modelled). */
    method HeapPush(x: Order)
      modifies this
      ensures PushedOnto(old(items), x, items)
      ensures |items| == old(|items|) + 1
    {
      QueueSnoc(items, x);
      Push(x);
    }

    /** heap.Pop: removes and returns an order with the largest stored price. container/heap
        swaps the top to the end and calls Pop; here the top is whichever order with the
        largest price the abstraction picks. */
    method HeapPop() returns (x: Order)
      requires items != []
      modifies this
      ensures PoppedFrom(old(items), x, items)
      ensures |items| == old(|items|) - 1
    {
      MaxAttained(items);
      var i :| 0 <= i < |items| && items[i].price == MaxPrice(items);
      var n := |items| - 1;
      ghost var s := items;
      RemoveBest(s, i);
      Swap(i, n);
      x := Pop();
      SwapPopped(s, i, items, x);
    }
  }

  /** `hit` is an order heap.Pop may return from a queue holding `bag`: it is queued and no
      queued order has a higher stored price (go/main.go:36-38). */
  ghost predicate Top(hit: Order, bag: multiset<Order>) {
    hit in bag && forall o <- bag :: o.price <= hit.price
  }

  /** Popping from a queue returns an order no queued order outranks (go/main.go:36-38). */
  lemma PopIsBest(s: seq<Order>, x: Order)
    requires x in s && x.price == MaxPrice(s)
    ensures forall o <- s :: !Before(o, x)
    ensures Top(x, multiset(s))
  {
    Members(s);
  }

  /** The price test of a market, IOC or FOK order against a resting limit order
      (go/main.go:111): a buy takes a resting ask priced at most its own price; a sell takes a
      resting bid whose price has magnitude at least its own, which for a bid of non-negative
      price means priced at least the sell's. */
  lemma MatchesResting(price: real, o: Order)
    ensures o.dir != 0 ==> (Matches(true, price, Resting(o).price) <==> o.price <= price)
    ensures o.dir == 0 ==> (Matches(false, price, Resting(o).price) <==> price <= Abs(o.price))
    ensures o.dir == 0 && o.price >= 0.0 ==> (Matches(false, price, Resting(o).price) <==> price <= o.price)
  {
  }

  /** Of two resting bids the lower one leaves the bid queue first, because bids rest with
      their price negated (go/main.go:81). */
  lemma LowestBidFirst(a: Order, b: Order)
    requires a.dir == 0 && b.dir == 0 && a.price < b.price
    ensures MaxPrice([Resting(a), Resting(b)]) == Resting(a).price == -a.price
    ensures Before(Resting(a), Resting(b))
  {
    assert [Resting(a), Resting(b)][..1] == [Resting(a)];
  }

  /** Of two resting asks the higher one leaves the ask queue first (go/main.go:84). */
  lemma HighestAskFirst(a: Order, b: Order)
    requires a.dir == 1 && b.dir == 1 && a.price > b.price
    ensures MaxPrice([Resting(b), Resting(a)]) == Resting(a).price == a.price
    ensures Before(Resting(a), Resting(b))
  {
    assert [Resting(b), Resting(a)][..1] == [Resting(b)];
  }

  /** One market/IOC step against `hit` with `remaining` still to fill: `hit` passes the price
      test and min(remaining, hit.Amount) trades (go/main.go:111-113). */
  ghost predicate MarketFill(f: Fill, hit: Order, accountId: int, price: real, isBuy: bool, remaining: int) {
    Matches(isBuy, price, hit.price) && f == MarketTrade(accountId, hit.accountId, hit.price, Min(remaining, hit.amount), isBuy)
  }

  /** What goes back on the queue after `qty` of the resting order `hit` traded: the remainder
      with the traded quantity taken off, or nothing once it is used up (go/main.go:135-138).
      At most one order goes back; it is `hit` with only its amount changed, and that amount is
      what was left and positive. */
  ghost function Leftover(hit: Order, qty: int): (r: multiset<Order>)
    ensures |r| <= 1 && (|r| == 1 <==> qty < hit.amount)
    ensures forall o <- r :: o.amount == hit.amount - qty > 0 && o.(amount := hit.amount) == hit
  {
    if qty < hit.amount then multiset{hit.(amount := hit.amount - qty)} else multiset{}
  }

  /** The orders of a queue that held `bag`, once each `hits[k]` has been popped and what was
      left of it after `fills[k]` went back. */
  ghost function Drained(bag: multiset<Order>, hits: seq<Order>, fills: seq<Fill>): multiset<Order>
    requires |hits| == |fills|
    decreases |hits|
  {
    if hits == [] then bag
    else
      var n := |hits| - 1;
      Drained(bag, hits[..n], fills[..n]) - multiset{hits[n]} + Leftover(hits[n], fills[n].qty)
  }

  lemma DrainedSnoc(bag: multiset<Order>, hits: seq<Order>, fills: seq<Fill>, hit: Order, f: Fill)
    requires |hits| == |fills|
    ensures Drained(bag, hits + [hit], fills + [f]) == Drained(bag, hits, fills) - multiset{hit} + Leftover(hit, f.qty)
  {
    assert (hits + [hit])[..|hits|] == hits;
    assert (fills + [f])[..|fills|] == fills;
  }

  /** A queue holding what is left of `bag` after `hits` and `fills`, which then loses its best
      order `hit` and gets back what is left of it after `f`, holds what is left of `bag` after
      one more hit and fill. */
  lemma DrainStep(bag: multiset<Order>, hits: seq<Order>, fills: seq<Fill>, q: seq<Order>, hit: Order,
                  popped: seq<Order>, f: Fill, q': seq<Order>)
    requires |hits| == |fills| && multiset(q) == Drained(bag, hits, fills)
    requires multiset(popped) + multiset{hit} == multiset(q)
    requires multiset(q') == multiset(popped) + Leftover(hit, f.qty)
    ensures multiset(q') == Drained(bag, hits + [hit], fills + [f])
    ensures multiset(q') + multiset{hit} == multiset(q) + Leftover(hit, f.qty)
  {
    DrainedSnoc(bag, hits, fills, hit, f);
    assert multiset(popped) == multiset(q) - multiset{hit};
  }

  /** `fills[k]` is a market trade against `hits[k]`, made while `amount` minus the quantity
      of the earlier trades was still positive (go/main.go:109), and `hits[k]` was the best
      order of the queue that started as `bag` and had lost the earlier hits. */
  ghost predicate MarketTrace(bag: multiset<Order>, fills: seq<Fill>, hits: seq<Order>, accountId: int,
                              price: real, isBuy: bool, amount: int)
    decreases |fills|
  {
    && |hits| == |fills|
    && (fills != [] ==>
         var n := |fills| - 1;
         && MarketTrace(bag, fills[..n], hits[..n], accountId, price, isBuy, amount)
         && amount - Volume(fills[..n]) > 0
         && Top(hits[n], Drained(bag, hits[..n], fills[..n]))
         && MarketFill(fills[n], hits[n], accountId, price, isBuy, amount - Volume(fills[..n])))
  }

  lemma MarketTraceSnoc(bag: multiset<Order>, fills: seq<Fill>, hits: seq<Order>, f: Fill, hit: Order,
                        accountId: int, price: real, isBuy: bool, amount: int)
    requires MarketTrace(bag, fills, hits, accountId, price, isBuy, amount)
    requires amount - Volume(fills) > 0 && Top(hit, Drained(bag, hits, fills))
    requires MarketFill(f, hit, accountId, price, isBuy, amount - Volume(fills))
    ensures MarketTrace(bag, fills + [f], hits + [hit], accountId, price, isBuy, amount)
  {
    assert (fills + [f])[..|fills|] == fills;
    assert (hits + [hit])[..|hits|] == hits;
  }

  /** Pushing back what is left of the popped order `best` after `qty` of it traded
      (go/main.go:135-138, 166-173, 208-211): the remainder goes back with the traded quantity
      taken off; an order used up stays out of the queue. */
  method PushRemainder(q: PriorityQueue, best: Order, qty: int)
    modifies q
    ensures Refilled(old(q.items), best, qty, q.items)
    ensures qty < best.amount ==> |q.items| == old(|q.items|) + 1
    ensures qty >= best.amount ==> q.items == old(q.items)
  {
    if qty < best.amount {
      q.HeapPush(best.(amount := best.amount - qty));
    }
  }

  /** One market/IOC trade against the popped order `best` (go/main.go:112-138): books `qty`
      at the magnitude of the stored price and pushes back the unfilled remainder of `best`. */
  method MarketStep(counter: PriorityQueue, ledger: Ledger, accountId: int, best: Order, qty: int,
                    isBuy: bool) returns (f: Fill)
    requires accountId in ledger.accounts && best.accountId in ledger.accounts
    modifies counter, ledger
    ensures f == MarketTrade(accountId, best.accountId, best.price, qty, isBuy)
    ensures ledger.accounts == Settle(old(ledger.accounts), f)
    ensures Refilled(old(counter.items), best, qty, counter.items)
    ensures qty < best.amount ==> |counter.items| == old(|counter.items|) + 1
    ensures qty >= best.amount ==> counter.items == old(counter.items)
  {
    f := MarketTrade(accountId, best.accountId, best.price, qty, isBuy);
    ledger.Record(f);
    PushRemainder(counter, best, qty);
  }

  /** A queue and the ledger as they stood when an order started to trade against the queue. */
  datatype Snapshot = Snapshot(queue: seq<Order>, accounts: map<int, Account>)

  /** What holds after every round of the market loop, relating the queue and ledger at the
      start to the current ones (`q`, `accounts`), with `left` still to fill. */
  ghost predicate MarketInv(start: Snapshot, q: seq<Order>, accounts: map<int, Account>, fills: seq<Fill>,
                            hits: seq<Order>, accountId: int, price: real, isBuy: bool, amount: int, left: int) {
    match start
    case Snapshot(q0, accounts0) =>
    && Parties(fills) <= accounts0.Keys
    && accounts == SettleAll(accounts0, fills)
    && Owners(q) <= accounts.Keys
    && MarketTrace(multiset(q0), fills, hits, accountId, price, isBuy, amount)
    && multiset(q) == Drained(multiset(q0), hits, fills)
    && left == amount - Volume(fills)
    && Total(q) == Total(q0) - Volume(fills)
    && (amount <= 0 ==> fills == [] && q == q0)
    && (amount > 0 ==> left >= 0)
    && (Positive(q0) ==> Positive(q) && PositiveFills(fills))
  }

  /** A trading round keeps the market invariant: `best` was popped from `q` leaving `popped`,
      passed the price test, and traded `f`; what was left of it went back, leaving the queue
      `q'` and the ledger `accounts'`. */
  lemma {:induction false} MarketInvTrade(q0: seq<Order>, accounts0: map<int, Account>, q: seq<Order>,
                                          accounts: map<int, Account>, fills: seq<Fill>, hits: seq<Order>,
                                          accountId: int, price: real, isBuy: bool, amount: int, left: int,
                                          best: Order, popped: seq<Order>, f: Fill, q': seq<Order>,
                                          accounts': map<int, Account>)
    requires MarketInv(Snapshot(q0, accounts0), q, accounts, fills, hits, accountId, price, isBuy, amount, left)
    requires left > 0 && accountId in accounts && Matches(isBuy, price, best.price)
    requires PoppedFrom(q, best, popped)
    requires f == MarketTrade(accountId, best.accountId, best.price, Min(left, best.amount), isBuy)
    requires accounts' == Settle(accounts, f)
    requires Refilled(popped, best, f.qty, q')
    ensures MarketInv(Snapshot(q0, accounts0), q', accounts', fills + [f], hits + [best], accountId, price, isBuy,
                      amount, left - f.qty)
    ensures multiset(q') + multiset{best} == multiset(q) + Leftover(best, f.qty)
  {
    Snoc(accounts0, fills, f);
    PopIsBest(q, best);
    MarketTraceSnoc(multiset(q0), fills, hits, f, best, accountId, price, isBuy, amount);
    DrainStep(multiset(q0), hits, fills, q, best, popped, f, q');
  }

  /** A round whose popped order fails the price test keeps the market invariant once the order
      is back, and leaves a queue whose best order fails the test. */
  lemma {:induction false} MarketInvRestore(q0: seq<Order>, accounts0: map<int, Account>, q: seq<Order>,
                                            accounts: map<int, Account>, fills: seq<Fill>, hits: seq<Order>,
                                            accountId: int, price: real, isBuy: bool, amount: int, left: int,
                                            best: Order, popped: seq<Order>, q': seq<Order>)
    requires MarketInv(Snapshot(q0, accounts0), q, accounts, fills, hits, accountId, price, isBuy, amount, left)
    requires left > 0 && !Matches(isBuy, price, best.price)
    requires PoppedFrom(q, best, popped) && PushedOnto(popped, best, q')
    ensures MarketInv(Snapshot(q0, accounts0), q', accounts, fills, hits, accountId, price, isBuy, amount, left)
    ensures q' != [] && !Matches(isBuy, price, MaxPrice(q'))
  {
  }

  /** Before the first round nothing has traded and the queue and ledger are as they started. */
  lemma MarketInvStart(q: seq<Order>, accounts: map<int, Account>, accountId: int, price: real, isBuy: bool,
                       amount: int)
    requires Owners(q) <= accounts.Keys
    ensures MarketInv(Snapshot(q, accounts), q, accounts, [], [], accountId, price, isBuy, amount, amount)
  {
  }

  /** What one more trade recorded in the market invariant says about that round: it was made
      while some of the amount was left to fill (go/main.go:109), the order it hit was a best
      order of the queue as it stood (go/main.go:110), traded min(left, its
      amount) at the magnitude of its stored price (go/main.go:112-131), and the queue changed
      by exactly that order leaving and its remainder coming back (go/main.go:135-138). */
  lemma {:induction false} MarketHitWasTop(q0: seq<Order>, accounts0: map<int, Account>, q: seq<Order>,
                                           accounts: map<int, Account>, fills: seq<Fill>, hits: seq<Order>,
                                           accountId: int, price: real, isBuy: bool, amount: int, left: int,
                                           f: Fill, best: Order, q': seq<Order>, accounts': map<int, Account>)
    requires MarketInv(Snapshot(q0, accounts0), q, accounts, fills, hits, accountId, price, isBuy, amount, left)
    requires MarketInv(Snapshot(q0, accounts0), q', accounts', fills + [f], hits + [best], accountId, price, isBuy,
                       amount, left - f.qty)
    ensures left > 0 && Top(best, multiset(q))
    ensures MarketFill(f, best, accountId, price, isBuy, left)
    ensures multiset(q') + multiset{best} == multiset(q) + Leftover(best, f.qty)
    ensures accounts' == Settle(accounts, f)
  {
    MarketTraceLast(multiset(q0), fills, hits, f, best, accountId, price, isBuy, amount);
    DrainedLast(multiset(q0), hits, fills, q, best, f, q');
    SettledLast(accounts0, fills, f, accounts, accounts');
  }

  /** A queue that held what was left of `bag` after `hits` and `fills`, and then what was left
      after one more hit and fill, lost exactly that hit and got back its remainder; the hit was
      a best order of the queue. */
  lemma DrainedLast(bag: multiset<Order>, hits: seq<Order>, fills: seq<Fill>, q: seq<Order>, hit: Order, f: Fill,
                    q': seq<Order>)
    requires |hits| == |fills| && multiset(q) == Drained(bag, hits, fills)
    requires multiset(q') == Drained(bag, hits + [hit], fills + [f])
    requires Top(hit, Drained(bag, hits, fills))
    ensures Top(hit, multiset(q))
    ensures multiset(q') + multiset{hit} == multiset(q) + Leftover(hit, f.qty)
  {
    DrainedSnoc(bag, hits, fills, hit, f);
  }

  /** A ledger that was `fills` booked, and then one more trade `f` booked, changed by `f`. */
  lemma SettledLast(accounts0: map<int, Account>, fills: seq<Fill>, f: Fill, accounts: map<int, Account>,
                    accounts': map<int, Account>)
    requires Parties(fills + [f]) <= accounts0.Keys
    requires Parties(fills) <= accounts0.Keys && accounts == SettleAll(accounts0, fills)
    requires accounts' == SettleAll(accounts0, fills + [f])
    ensures accounts' == Settle(accounts, f)
  {
    Snoc(accounts0, fills, f);
  }

  /** The last entry of a market trace: its trade and the best order it hit. */
  lemma MarketTraceLast(bag: multiset<Order>, fills: seq<Fill>, hits: seq<Order>, f: Fill, hit: Order,
                        accountId: int, price: real, isBuy: bool, amount: int)
    requires MarketTrace(bag, fills + [f], hits + [hit], accountId, price, isBuy, amount)
    ensures MarketTrace(bag, fills, hits, accountId, price, isBuy, amount)
    ensures amount - Volume(fills) > 0 && Top(hit, Drained(bag, hits, fills))
    ensures MarketFill(f, hit, accountId, price, isBuy, amount - Volume(fills))
  {
    assert (fills + [f])[..|fills|] == fills;
    assert (hits + [hit])[..|hits|] == hits;
  }

  /** The trading branch of a market round (go/main.go:112-138): `best`, popped from `q`, passed
      the price test; min(left, its amount) trades and what is left of it goes back. */
  method MarketTradeBest(counter: PriorityQueue, ledger: Ledger, ghost q0: seq<Order>,
                         ghost accounts0: map<int, Account>, ghost fills: seq<Fill>, ghost hits: seq<Order>,
                         ghost q: seq<Order>, accountId: int, price: real, isBuy: bool, amount: int, left: int,
                         best: Order)
    returns (f: Fill)
    requires MarketInv(Snapshot(q0, accounts0), q, ledger.accounts, fills, hits, accountId, price, isBuy, amount, left)
    requires left > 0 && accountId in ledger.accounts && Matches(isBuy, price, best.price)
    requires PoppedFrom(q, best, counter.items)
    modifies counter, ledger
    ensures MarketInv(Snapshot(q0, accounts0), counter.items, ledger.accounts, fills + [f], hits + [best], accountId, price,
                      isBuy, amount, left - f.qty)
    ensures |counter.items| < |q| || (|counter.items| == |q| && left - f.qty <= 0)
    ensures multiset(counter.items) + multiset{best} == multiset(q) + Leftover(best, f.qty)
  {
    ghost var popped, accounts := counter.items, ledger.accounts;
    var tradeAmount := Min(left, best.amount);
    f := MarketStep(counter, ledger, accountId, best, tradeAmount, isBuy);
    MarketInvTrade(q0, accounts0, q, accounts, fills, hits, accountId, price, isBuy, amount, left, best,
                   popped, f, counter.items, ledger.accounts);
  }

  /** One round of the market loop (go/main.go:110-142): pops the best counter order; when it
      passes the price test, trades min(left, its amount) against it and pushes back the rest of
      it; otherwise pushes it back unchanged and reports that the loop stops. */
  method MarketRound(counter: PriorityQueue, ledger: Ledger, ghost q0: seq<Order>,
                     ghost accounts0: map<int, Account>, ghost fills: seq<Fill>, ghost hits: seq<Order>,
                     accountId: int, price: real, isBuy: bool, amount: int, left: int)
    returns (traded: bool, f: Fill, best: Order)
    requires MarketInv(Snapshot(q0, accounts0), counter.items, ledger.accounts, fills, hits, accountId, price, isBuy,
                       amount, left)
    requires left > 0 && counter.items != [] && accountId in ledger.accounts
    modifies counter, ledger
    ensures traded ==> MarketInv(Snapshot(q0, accounts0), counter.items, ledger.accounts, fills + [f], hits + [best],
                                 accountId, price, isBuy, amount, left - f.qty)
    ensures traded ==> |counter.items| < old(|counter.items|) || (|counter.items| == old(|counter.items|) && left - f.qty <= 0)
    ensures traded ==> best in old(counter.items) && best.price == old(MaxPrice(counter.items))
    ensures traded ==> multiset(counter.items) + multiset{best} == old(multiset(counter.items)) + Leftover(best, f.qty)
    ensures !traded ==> MarketInv(Snapshot(q0, accounts0), counter.items, ledger.accounts, fills, hits, accountId,
                                  price, isBuy, amount, left)
    ensures !traded ==> counter.items != [] && !Matches(isBuy, price, MaxPrice(counter.items))
  {
    ghost var q := counter.items;
    best := counter.HeapPop();
    if (isBuy && price >= best.price) || (!isBuy && price <= Abs(best.price)) {
      f := MarketTradeBest(counter, ledger, q0, accounts0, fills, hits, q, accountId, price, isBuy, amount, left,
                           best);
      traded := true;
    } else {
      ghost var popped := counter.items;
      counter.HeapPush(best);
      MarketInvRestore(q0, accounts0, q, ledger.accounts, fills, hits, accountId, price, isBuy, amount, left, best,
                       popped, counter.items);
      traded, f := false, Fill(0, 0, 0, 0.0);
    }
  }

  /** Market order (go/main.go:108-144). Trades against the best counter orders until the
      amount is filled, the queue is empty, or the best order fails the price test, which then
      goes back unchanged; a partly filled resting order goes back with the traded quantity
      taken off. `fills[k]` is the k-th trade and `hits[k]` the resting order it was made
      against. */
  method ExecuteMarketOrder(counter: PriorityQueue, ledger: Ledger, accountId: int, price: real,
                            amount: int, isBuy: bool)
    returns (ghost fills: seq<Fill>, ghost hits: seq<Order>)
    requires accountId in ledger.accounts && Owners(counter.items) <= ledger.accounts.Keys
    modifies counter, ledger
    ensures MarketInv(Snapshot(old(counter.items), old(ledger.accounts)), counter.items, ledger.accounts,
                      fills, hits, accountId, price, isBuy, amount, amount - Volume(fills))
    ensures amount > 0 && Volume(fills) < amount && counter.items != [] ==>
      !Matches(isBuy, price, MaxPrice(counter.items))
  {
    fills, hits := [], [];
    var left := amount;
    MarketInvStart(counter.items, ledger.accounts, accountId, price, isBuy, amount);
    while left > 0 && counter.Len() > 0
      invariant MarketInv(Snapshot(old(counter.items), old(ledger.accounts)), counter.items, ledger.accounts,
                          fills, hits, accountId, price, isBuy, amount, left)
      decreases |counter.items| + (if left > 0 then 1 else 0)
    {
      var traded, f, best := MarketRound(counter, ledger, old(counter.items), old(ledger.accounts), fills, hits,
                                         accountId, price, isBuy, amount, left);
      if !traded {
        break;
      }
      fills, hits := fills + [f], hits + [best];
      left := left - f.qty;
    }
  }

  /** What one limit trade books (go/main.go:151-164): the two best orders cross when the own
      stored price is at least the counter stored price; min of the two amounts trades at the
      counter's stored price, without abs, and the own side is always the long party. */
  ghost predicate LimitFill(f: Fill, own: Order, counter: Order) {
    && own.price >= counter.price
    && f == Fill(own.accountId, counter.accountId, Min(own.amount, counter.amount), counter.price)
  }

  /** `fills[k]` is a limit trade between `ownHits[k]` and `counterHits[k]`, each the best order
      of its queue, which started as `ownBag` and `counterBag` and had lost the earlier hits. */
  ghost predicate LimitTrace(ownBag: multiset<Order>, counterBag: multiset<Order>, fills: seq<Fill>,
                             ownHits: seq<Order>, counterHits: seq<Order>)
    decreases |fills|
  {
    && |ownHits| == |fills| && |counterHits| == |fills|
    && (fills != [] ==>
         var n := |fills| - 1;
         && LimitTrace(ownBag, counterBag, fills[..n], ownHits[..n], counterHits[..n])
         && Top(ownHits[n], Drained(ownBag, ownHits[..n], fills[..n]))
         && Top(counterHits[n], Drained(counterBag, counterHits[..n], fills[..n]))
         && LimitFill(fills[n], ownHits[n], counterHits[n]))
  }

  lemma LimitTraceSnoc(ownBag: multiset<Order>, counterBag: multiset<Order>, fills: seq<Fill>,
                       ownHits: seq<Order>, counterHits: seq<Order>, f: Fill, own: Order, counter: Order)
    requires LimitTrace(ownBag, counterBag, fills, ownHits, counterHits)
    requires Top(own, Drained(ownBag, ownHits, fills)) && Top(counter, Drained(counterBag, counterHits, fills))
    requires LimitFill(f, own, counter)
    ensures LimitTrace(ownBag, counterBag, fills + [f], ownHits + [own], counterHits + [counter])
  {
    assert (fills + [f])[..|fills|] == fills;
    assert (ownHits + [own])[..|ownHits|] == ownHits;
    assert (counterHits + [counter])[..|counterHits|] == counterHits;
  }

  /** The trade of one crossing pair in the limit loop (go/main.go:152-173): both best orders
      have been popped; books min of the two amounts at the counter's stored price and pushes
      back each side that was only partly filled, with the traded quantity taken off. */
  method TradeCrossing(own: PriorityQueue, counter: PriorityQueue, ledger: Ledger,
                       bestOwn: Order, bestCounter: Order) returns (f: Fill)
    requires own != counter && bestOwn.price >= bestCounter.price
    requires bestOwn.accountId in ledger.accounts && bestCounter.accountId in ledger.accounts
    modifies own, counter, ledger
    ensures LimitFill(f, bestOwn, bestCounter)
    ensures ledger.accounts == Settle(old(ledger.accounts), f)
    ensures Refilled(old(own.items), bestOwn, f.qty, own.items)
    ensures Refilled(old(counter.items), bestCounter, f.qty, counter.items)
    ensures |own.items| + |counter.items| <= old(|own.items| + |counter.items|) + 1
  {
    var tradeAmount := Min(bestOwn.amount, bestCounter.amount);
    f := Fill(bestOwn.accountId, bestCounter.accountId, tradeAmount, bestCounter.price);
    ledger.Record(f);
    PushRemainder(own, bestOwn, tradeAmount);
    PushRemainder(counter, bestCounter, tradeAmount);
  }

  /** The two queues and the ledger as they stood when limit matching started. */
  datatype Sides = Sides(own: seq<Order>, counter: seq<Order>, accounts: map<int, Account>)

  /** What holds after every round of the limit loop, relating the two queues and the ledger at
      the start to the current ones. */
  ghost predicate LimitInv(start: Sides, own: seq<Order>, counter: seq<Order>, accounts: map<int, Account>,
                           fills: seq<Fill>, ownHits: seq<Order>, counterHits: seq<Order>) {
    match start
    case Sides(own0, counter0, accounts0) =>
      && Parties(fills) <= accounts0.Keys
      && accounts == SettleAll(accounts0, fills)
      && Owners(own) <= accounts.Keys && Owners(counter) <= accounts.Keys
      && LimitTrace(multiset(own0), multiset(counter0), fills, ownHits, counterHits)
      && multiset(own) == Drained(multiset(own0), ownHits, fills)
      && multiset(counter) == Drained(multiset(counter0), counterHits, fills)
      && Total(own) == Total(own0) - Volume(fills)
      && Total(counter) == Total(counter0) - Volume(fills)
      && (Positive(own0) && Positive(counter0) ==> Positive(own) && Positive(counter) && PositiveFills(fills))
  }

  /** Before the first round nothing has traded and both queues and the ledger are as they
      started. */
  lemma LimitInvStart(own: seq<Order>, counter: seq<Order>, accounts: map<int, Account>)
    requires Owners(own) <= accounts.Keys && Owners(counter) <= accounts.Keys
    ensures LimitInv(Sides(own, counter, accounts), own, counter, accounts, [], [], [])
  {
  }

  /** A crossing round keeps the limit invariant: `bestOwn` and `bestCounter` were popped from
      `own` and `counter`, leaving `ownPopped` and `counterPopped`, and traded `f`; what was left
      of each went back, leaving the queues `own'`, `counter'` and the ledger `accounts'`. */
  lemma {:induction false} LimitInvTrade(start: Sides, own: seq<Order>, counter: seq<Order>,
                                         accounts: map<int, Account>, fills: seq<Fill>, ownHits: seq<Order>,
                                         counterHits: seq<Order>, bestOwn: Order, ownPopped: seq<Order>,
                                         bestCounter: Order, counterPopped: seq<Order>, f: Fill,
                                         own': seq<Order>, counter': seq<Order>, accounts': map<int, Account>)
    requires LimitInv(start, own, counter, accounts, fills, ownHits, counterHits)
    requires PoppedFrom(own, bestOwn, ownPopped) && PoppedFrom(counter, bestCounter, counterPopped)
    requires LimitFill(f, bestOwn, bestCounter) && accounts' == Settle(accounts, f)
    requires Refilled(ownPopped, bestOwn, f.qty, own') && Refilled(counterPopped, bestCounter, f.qty, counter')
    ensures LimitInv(start, own', counter', accounts', fills + [f], ownHits + [bestOwn], counterHits + [bestCounter])
    ensures multiset(own') + multiset{bestOwn} == multiset(own) + Leftover(bestOwn, f.qty)
    ensures multiset(counter') + multiset{bestCounter} == multiset(counter) + Leftover(bestCounter, f.qty)
  {
    var own0, counter0, accounts0 := start.own, start.counter, start.accounts;
    Snoc(accounts0, fills, f);
    PopIsBest(own, bestOwn);
    PopIsBest(counter, bestCounter);
    LimitTraceSnoc(multiset(own0), multiset(counter0), fills, ownHits, counterHits, f, bestOwn, bestCounter);
    DrainStep(multiset(own0), ownHits, fills, own, bestOwn, ownPopped, f, own');
    DrainStep(multiset(counter0), counterHits, fills, counter, bestCounter, counterPopped, f, counter');
  }

  /** A round whose two popped orders do not cross keeps the limit invariant once both are back,
      and leaves the own side's best stored price below the counter side's. */
  lemma {:induction false} LimitInvRestore(start: Sides, own: seq<Order>, counter: seq<Order>,
                                           accounts: map<int, Account>, fills: seq<Fill>, ownHits: seq<Order>,
                                           counterHits: seq<Order>, bestOwn: Order, ownPopped: seq<Order>,
                                           bestCounter: Order, counterPopped: seq<Order>, own': seq<Order>,
                                           counter': seq<Order>)
    requires LimitInv(start, own, counter, accounts, fills, ownHits, counterHits)
    requires bestOwn.price < bestCounter.price
    requires PoppedFrom(own, bestOwn, ownPopped) && PoppedFrom(counter, bestCounter, counterPopped)
    requires PushedOnto(ownPopped, bestOwn, own') && PushedOnto(counterPopped, bestCounter, counter')
    ensures LimitInv(start, own', counter', accounts, fills, ownHits, counterHits)
    ensures own' != [] && counter' != [] && MaxPrice(own') < MaxPrice(counter')
  {
  }

  /** What one more trade recorded in the limit invariant says about that round: the two
      orders it was made between were best orders of their queues as they stood
      (go/main.go:148-149), crossed and traded as `LimitFill` says (go/main.go:151-164), and each
      queue changed by exactly that order leaving and its remainder coming back
      (go/main.go:166-173). */
  lemma {:induction false} LimitHitsWereTop(start: Sides, own: seq<Order>, counter: seq<Order>,
                                            accounts: map<int, Account>, fills: seq<Fill>, ownHits: seq<Order>,
                                            counterHits: seq<Order>, f: Fill, bestOwn: Order, bestCounter: Order,
                                            own': seq<Order>, counter': seq<Order>, accounts': map<int, Account>)
    requires LimitInv(start, own, counter, accounts, fills, ownHits, counterHits)
    requires LimitInv(start, own', counter', accounts', fills + [f], ownHits + [bestOwn], counterHits + [bestCounter])
    ensures Top(bestOwn, multiset(own)) && Top(bestCounter, multiset(counter))
    ensures LimitFill(f, bestOwn, bestCounter)
    ensures multiset(own') + multiset{bestOwn} == multiset(own) + Leftover(bestOwn, f.qty)
    ensures multiset(counter') + multiset{bestCounter} == multiset(counter) + Leftover(bestCounter, f.qty)
    ensures accounts' == Settle(accounts, f)
  {
    match start
    case Sides(own0, counter0, accounts0) =>
      LimitTraceLast(multiset(own0), multiset(counter0), fills, ownHits, counterHits, f, bestOwn, bestCounter);
      DrainedLast(multiset(own0), ownHits, fills, own, bestOwn, f, own');
      DrainedLast(multiset(counter0), counterHits, fills, counter, bestCounter, f, counter');
      SettledLast(accounts0, fills, f, accounts, accounts');
  }

  /** The last entry of a limit trace: its trade and the two best orders it was made between. */
  lemma LimitTraceLast(ownBag: multiset<Order>, counterBag: multiset<Order>, fills: seq<Fill>,
                       ownHits: seq<Order>, counterHits: seq<Order>, f: Fill, own: Order, counter: Order)
    requires LimitTrace(ownBag, counterBag, fills + [f], ownHits + [own], counterHits + [counter])
    ensures LimitTrace(ownBag, counterBag, fills, ownHits, counterHits)
    ensures Top(own, Drained(ownBag, ownHits, fills)) && Top(counter, Drained(counterBag, counterHits, fills))
    ensures LimitFill(f, own, counter)
  {
    assert (fills + [f])[..|fills|] == fills;
    assert (ownHits + [own])[..|ownHits|] == ownHits;
    assert (counterHits + [counter])[..|counterHits|] == counterHits;
  }

  /** The trading branch of a limit round (go/main.go:151-173): `bestOwn` and `bestCounter`,
      popped from `ownQ` and `counterQ`, cross; they trade and what is left of each goes back. */
  method LimitTradeBest(own: PriorityQueue, counter: PriorityQueue, ledger: Ledger, ghost start: Sides,
                        ghost fills: seq<Fill>, ghost ownHits: seq<Order>, ghost counterHits: seq<Order>,
                        ghost ownQ: seq<Order>, ghost counterQ: seq<Order>, bestOwn: Order, bestCounter: Order)
    returns (f: Fill)
    requires own != counter && bestOwn.price >= bestCounter.price
    requires LimitInv(start, ownQ, counterQ, ledger.accounts, fills, ownHits, counterHits)
    requires PoppedFrom(ownQ, bestOwn, own.items) && PoppedFrom(counterQ, bestCounter, counter.items)
    modifies own, counter, ledger
    ensures LimitInv(start, own.items, counter.items, ledger.accounts, fills + [f], ownHits + [bestOwn],
                     counterHits + [bestCounter])
    ensures |own.items| + |counter.items| < |ownQ| + |counterQ|
    ensures multiset(own.items) + multiset{bestOwn} == multiset(ownQ) + Leftover(bestOwn, f.qty)
    ensures multiset(counter.items) + multiset{bestCounter} == multiset(counterQ) + Leftover(bestCounter, f.qty)
  {
    ghost var ownPopped, counterPopped, accounts := own.items, counter.items, ledger.accounts;
    f := TradeCrossing(own, counter, ledger, bestOwn, bestCounter);
    LimitInvTrade(start, ownQ, counterQ, accounts, fills, ownHits, counterHits, bestOwn, ownPopped, bestCounter,
                  counterPopped, f, own.items, counter.items, ledger.accounts);
  }

  /** One round of the limit loop (go/main.go:150-178): pops the best order of each side; when
      they cross, trades them and pushes back what is left of each; otherwise pushes both back
      unchanged and reports that the loop stops. */
  method LimitRound(own: PriorityQueue, counter: PriorityQueue, ledger: Ledger, ghost start: Sides,
                    ghost fills: seq<Fill>, ghost ownHits: seq<Order>, ghost counterHits: seq<Order>)
    returns (traded: bool, f: Fill, bestOwn: Order, bestCounter: Order)
    requires own != counter && own.items != [] && counter.items != []
    requires LimitInv(start, own.items, counter.items, ledger.accounts, fills, ownHits, counterHits)
    modifies own, counter, ledger
    ensures traded ==> LimitInv(start, own.items, counter.items, ledger.accounts, fills + [f],
                                ownHits + [bestOwn], counterHits + [bestCounter])
    ensures traded ==> |own.items| + |counter.items| < old(|own.items| + |counter.items|)
    ensures traded ==> bestOwn in old(own.items) && bestOwn.price == old(MaxPrice(own.items))
    ensures traded ==> bestCounter in old(counter.items) && bestCounter.price == old(MaxPrice(counter.items))
    ensures traded ==> multiset(own.items) + multiset{bestOwn} == old(multiset(own.items)) + Leftover(bestOwn, f.qty)
    ensures traded ==>
      multiset(counter.items) + multiset{bestCounter} == old(multiset(counter.items)) + Leftover(bestCounter, f.qty)
    ensures !traded ==> LimitInv(start, own.items, counter.items, ledger.accounts, fills, ownHits, counterHits)
    ensures !traded ==> own.items != [] && counter.items != [] && MaxPrice(own.items) < MaxPrice(counter.items)
  {
    ghost var ownQ, counterQ := own.items, counter.items;
    bestOwn := own.HeapPop();
    bestCounter := counter.HeapPop();
    if bestOwn.price >= bestCounter.price {
      f := LimitTradeBest(own, counter, ledger, start, fills, ownHits, counterHits, ownQ, counterQ, bestOwn,
                          bestCounter);
      traded := true;
    } else {
      ghost var ownPopped, counterPopped := own.items, counter.items;
      own.HeapPush(bestOwn);
      counter.HeapPush(bestCounter);
      LimitInvRestore(start, ownQ, counterQ, ledger.accounts, fills, ownHits, counterHits, bestOwn, ownPopped,
                      bestCounter, counterPopped, own.items, counter.items);
      traded, f := false, Fill(0, 0, 0, 0.0);
    }
  }

  /** Limit matching (go/main.go:146-181), run after the incoming order was pushed onto its own
      side. Pops the best of both sides while both are non-empty; while they cross it trades and
      pushes back whichever side was only partly filled; at the first pair that does not cross
      both go back unchanged and the loop ends. `fills[k]` is the k-th trade, made between the
      resting orders `ownHits[k]` and `counterHits[k]`. */
  method ExecuteLimitOrder(own: PriorityQueue, counter: PriorityQueue, ledger: Ledger)
    returns (ghost fills: seq<Fill>, ghost ownHits: seq<Order>, ghost counterHits: seq<Order>)
    requires own != counter
    requires Owners(own.items) <= ledger.accounts.Keys && Owners(counter.items) <= ledger.accounts.Keys
    modifies own, counter, ledger
    ensures LimitInv(Sides(old(own.items), old(counter.items), old(ledger.accounts)), own.items, counter.items,
                     ledger.accounts, fills, ownHits, counterHits)
    ensures own.items != [] && counter.items != [] ==> MaxPrice(own.items) < MaxPrice(counter.items)
  {
    fills, ownHits, counterHits := [], [], [];
    ghost var start := Sides(own.items, counter.items, ledger.accounts);
    LimitInvStart(own.items, counter.items, ledger.accounts);
    while own.Len() > 0 && counter.Len() > 0
      invariant LimitInv(start, own.items, counter.items, ledger.accounts, fills, ownHits, counterHits)
      decreases |own.items| + |counter.items|
    {
      var traded, f, bestOwn, bestCounter := LimitRound(own, counter, ledger, start, fills, ownHits, counterHits);
      if !traded {
        break;
      }
      fills, ownHits, counterHits := fills + [f], ownHits + [bestOwn], counterHits + [bestCounter];
    }
  }

  /** What an immediate-or-cancel order leaves behind, relating the queue and ledger before
      (`q0`, `accounts0`) and after (`q`, `accounts`); `hit` is the order popped, if any. At most
      one trade; it happens exactly when the best counter order passes the price test, and then
      it is one market step for the whole `amount`. */
  ghost predicate IocOutcome(q0: seq<Order>, accounts0: map<int, Account>, q: seq<Order>,
                             accounts: map<int, Account>, fills: seq<Fill>, hit: Order, accountId: int,
                             price: real, isBuy: bool, amount: int) {
    && Parties(fills) <= accounts0.Keys
    && accounts == SettleAll(accounts0, fills)
    && Owners(q) <= accounts.Keys
    && |fills| <= 1
    && (q0 == [] ==> fills == [] && q == q0)
    && (q0 != [] ==> hit in q0 && hit.price == MaxPrice(q0) && (fills != [] <==> Matches(isBuy, price, hit.price)))
    && (fills == [] ==> multiset(q) == multiset(q0) && accounts == accounts0)
    && (fills != [] ==>
         && MarketFill(fills[0], hit, accountId, price, isBuy, amount)
         && multiset(q) + multiset{hit} == multiset(q0) + Leftover(hit, fills[0].qty))
    && Total(q) == Total(q0) - Volume(fills)
    && (Positive(q0) ==> Positive(q))
    && (Positive(q0) && amount > 0 ==> PositiveFills(fills))
  }

  /** The trading branch of an IOC order: `hit` was popped from `q0` leaving `popped`, passed
      the price test, and traded `f`, leaving the queue `q` and the ledger `accounts`. */
  lemma {:induction false} IocTrade(q0: seq<Order>, accounts0: map<int, Account>, accountId: int, price: real,
                                    isBuy: bool, amount: int, hit: Order, popped: seq<Order>, f: Fill,
                                    q: seq<Order>, accounts: map<int, Account>)
    requires accountId in accounts0 && Owners(q0) <= accounts0.Keys
    requires PoppedFrom(q0, hit, popped) && Matches(isBuy, price, hit.price)
    requires f == MarketTrade(accountId, hit.accountId, hit.price, Min(amount, hit.amount), isBuy)
    requires accounts == Settle(accounts0, f)
    requires Refilled(popped, hit, f.qty, q)
    ensures IocOutcome(q0, accounts0, q, accounts, [f], hit, accountId, price, isBuy, amount)
  {
    Snoc(accounts0, [], f);
    assert [] + [f] == [f];
  }

  /** The non-trading branch of an IOC order: the popped order fails the price test and goes
      back, so the queue holds what it held and the ledger is unchanged. */
  lemma {:induction false} IocRestore(q0: seq<Order>, accounts0: map<int, Account>, accountId: int, price: real,
                                      isBuy: bool, amount: int, hit: Order, popped: seq<Order>, q: seq<Order>)
    requires Owners(q0) <= accounts0.Keys
    requires PoppedFrom(q0, hit, popped) && !Matches(isBuy, price, hit.price)
    requires PushedOnto(popped, hit, q)
    ensures IocOutcome(q0, accounts0, q, accounts0, [], hit, accountId, price, isBuy, amount)
  {
  }

  /** Immediate-or-cancel order (go/main.go:183-216): at most one pop-and-test against the best
      counter order. On a match it trades like one market step and pushes back any resting
      remainder; on a non-match the popped order goes back. The unfilled part of the IOC order
      is dropped: it never enters a queue. `hit` is the order popped, when there was one. */
  method ExecuteIOCOrder(counter: PriorityQueue, ledger: Ledger, accountId: int, price: real,
                         amount: int, isBuy: bool)
    returns (ghost fills: seq<Fill>, ghost hit: Order)
    requires accountId in ledger.accounts && Owners(counter.items) <= ledger.accounts.Keys
    modifies counter, ledger
    ensures IocOutcome(old(counter.items), old(ledger.accounts), counter.items, ledger.accounts, fills, hit,
                       accountId, price, isBuy, amount)
  {
    fills, hit := [], Order(0, "", 0, 0, 0.0, 0);
    ghost var q0, accounts0 := counter.items, ledger.accounts;
    if counter.Len() > 0 {
      var bestOrder := counter.HeapPop();
      hit := bestOrder;
      ghost var popped := counter.items;
      if (isBuy && price >= bestOrder.price) || (!isBuy && price <= Abs(bestOrder.price)) {
        var tradeAmount := Min(amount, bestOrder.amount);
        var f := MarketStep(counter, ledger, accountId, bestOrder, tradeAmount, isBuy);
        IocTrade(q0, accounts0, accountId, price, isBuy, amount, hit, popped, f, counter.items, ledger.accounts);
        fills := [f];
      } else {
        counter.HeapPush(bestOrder);
        IocRestore(q0, accounts0, accountId, price, isBuy, amount, hit, popped, counter.items);
      }
    }
  }

  /** What a fill-or-kill order leaves behind, relating the queue and ledger before (`q0`,
      `accounts0`) and after (`q`, `accounts`); `hit` is the order popped, if any. At most one
      trade; it happens exactly when the best counter order passes the price test and holds at
      least `amount`, and then exactly `amount` trades while the whole resting order leaves the
      queue. */
  ghost predicate FokOutcome(q0: seq<Order>, accounts0: map<int, Account>, q: seq<Order>,
                             accounts: map<int, Account>, fills: seq<Fill>, hit: Order, accountId: int,
                             price: real, isBuy: bool, amount: int) {
    && Parties(fills) <= accounts0.Keys
    && accounts == SettleAll(accounts0, fills)
    && Owners(q) <= accounts.Keys
    && |fills| <= 1
    && (q0 == [] ==> fills == [] && q == q0)
    && (q0 != [] ==>
         && hit in q0 && hit.price == MaxPrice(q0)
         && (fills != [] <==> Matches(isBuy, price, hit.price) && hit.amount >= amount))
    && (fills == [] ==> multiset(q) == multiset(q0) && accounts == accounts0)
    && (fills != [] ==>
         && fills[0] == MarketTrade(accountId, hit.accountId, hit.price, amount, isBuy)
         && multiset(q) + multiset{hit} == multiset(q0)
         && Total(q) == Total(q0) - hit.amount)
    && (Positive(q0) ==> Positive(q))
    && (amount > 0 ==> PositiveFills(fills))
  }

  /** The trading branch of a FOK order: `hit` was popped from `q0` leaving `q`, passed the
      price test with at least `amount` on it, and traded `f`, leaving the ledger `accounts`. */
  lemma {:induction false} FokTrade(q0: seq<Order>, accounts0: map<int, Account>, accountId: int, price: real,
                                    isBuy: bool, amount: int, hit: Order, q: seq<Order>, f: Fill,
                                    accounts: map<int, Account>)
    requires accountId in accounts0 && Owners(q0) <= accounts0.Keys
    requires PoppedFrom(q0, hit, q) && Matches(isBuy, price, hit.price) && hit.amount >= amount
    requires f == MarketTrade(accountId, hit.accountId, hit.price, amount, isBuy) && accounts == Settle(accounts0, f)
    ensures FokOutcome(q0, accounts0, q, accounts, [f], hit, accountId, price, isBuy, amount)
  {
    Snoc(accounts0, [], f);
    assert [] + [f] == [f];
  }

  /** The non-trading branch of a FOK order: the popped order goes back, so the queue holds
      what it held and the ledger is unchanged. */
  lemma {:induction false} FokRestore(q0: seq<Order>, accounts0: map<int, Account>, accountId: int, price: real,
                                      isBuy: bool, amount: int, hit: Order, popped: seq<Order>, q: seq<Order>)
    requires Owners(q0) <= accounts0.Keys
    requires PoppedFrom(q0, hit, popped) && !(Matches(isBuy, price, hit.price) && hit.amount >= amount)
    requires PushedOnto(popped, hit, q)
    ensures FokOutcome(q0, accounts0, q, accounts0, [], hit, accountId, price, isBuy, amount)
  {
  }

  /** Fill-or-kill order (go/main.go:218-253): at most one pop-and-test. It trades only when the
      best counter order passes the price test AND holds at least `amount`, and then trades
      exactly `amount`; that resting order is not pushed back, whatever it had left over, so the
      queue loses its whole amount. Otherwise the popped order goes back and nothing changes. */
  method ExecuteFOKOrder(counter: PriorityQueue, ledger: Ledger, accountId: int, price: real,
                         amount: int, isBuy: bool)
    returns (ghost fills: seq<Fill>, ghost hit: Order)
    requires accountId in ledger.accounts && Owners(counter.items) <= ledger.accounts.Keys
    modifies counter, ledger
    ensures FokOutcome(old(counter.items), old(ledger.accounts), counter.items, ledger.accounts, fills, hit,
                       accountId, price, isBuy, amount)
  {
    fills, hit := [], Order(0, "", 0, 0, 0.0, 0);
    ghost var q0, accounts0 := counter.items, ledger.accounts;
    var canFulfill := false;
    var totalTradeAmount := 0;
    if counter.Len() > 0 {
      var bestOrder := counter.HeapPop();
      hit := bestOrder;
      ghost var popped := counter.items;
      if (isBuy && price >= bestOrder.price && bestOrder.amount >= amount)
         || (!isBuy && price <= Abs(bestOrder.price) && bestOrder.amount >= amount) {
        canFulfill := true;
        totalTradeAmount := amount;
      }
      if canFulfill {
        var f := MarketTrade(accountId, bestOrder.accountId, bestOrder.price, totalTradeAmount, isBuy);
        ledger.Record(f);
        FokTrade(q0, accounts0, accountId, price, isBuy, amount, hit, counter.items, f, ledger.accounts);
        fills := [f];
      } else {
        counter.HeapPush(bestOrder);
        FokRestore(q0, accounts0, accountId, price, isBuy, amount, hit, popped, counter.items);
      }
    }
  }

  /** The buy queue, the sell queue and the ledger between two orders of a batch. */
  datatype Book = Book(buy: seq<Order>, sell: seq<Order>, accounts: map<int, Account>)

  /** The record of what one order did: its trades, the resting orders of its own side and of
      the counter side they were made against (for an IOC or FOK order, the one counter order it
      popped), and for a limit order its own queue once the order rested on it. */
  datatype Pass = Pass(fills: seq<Fill>, ownHits: seq<Order>, counterHits: seq<Order>, pushed: seq<Order>)

  /** What an order of the given kind did, on its own side (`own0` to `own`), the counter side
      (`counter0` to `counter`) and the ledger (`accounts0`, its account already opened, to
      `accounts`) (go/main.go:71-99): a market, IOC or FOK order works against the counter side
      only; a limit order first rests on its own side, then crosses the two; an order of any
      other kind changes nothing. */
  ghost predicate Acted(order: Order, own0: seq<Order>, counter0: seq<Order>, accounts0: map<int, Account>,
                        own: seq<Order>, counter: seq<Order>, accounts: map<int, Account>, p: Pass) {
    match p
    case Pass(fills, ownHits, counterHits, pushed) =>
      var isBuy := order.dir == 0;
      if order.kind == "market" then
        && own == own0
        && MarketInv(Snapshot(counter0, accounts0), counter, accounts, fills, counterHits, order.accountId,
                     order.price, isBuy, order.amount, order.amount - Volume(fills))
        && (order.amount > 0 && Volume(fills) < order.amount && counter != [] ==>
              !Matches(isBuy, order.price, MaxPrice(counter)))
      else if order.kind == "limit" then
        && PushedOnto(own0, Resting(order), pushed)
        && LimitInv(Sides(pushed, counter0, accounts0), own, counter, accounts, fills, ownHits, counterHits)
        && (own != [] && counter != [] ==> MaxPrice(own) < MaxPrice(counter))
      else if order.kind == "ioc" then
        && own == own0 && |counterHits| == 1
        && IocOutcome(counter0, accounts0, counter, accounts, fills, counterHits[0], order.accountId, order.price,
                      isBuy, order.amount)
      else if order.kind == "fok" then
        && own == own0 && |counterHits| == 1
        && FokOutcome(counter0, accounts0, counter, accounts, fills, counterHits[0], order.accountId, order.price,
                      isBuy, order.amount)
      else
        own == own0 && counter == counter0 && accounts == accounts0 && fills == []
  }

  /** One order took the book from `before` to `after` (go/main.go:66-101): its account is
      opened on first reference, then a buy (dir 0) acts with the buy queue as its own side and
      the sell queue as the counter side, and a sell the other way round. */
  ghost predicate Dispatched(order: Order, before: Book, after: Book, p: Pass) {
    match before
    case Book(buy0, sell0, accounts) =>
      var accounts0 := Opened(accounts, order.accountId);
      if order.dir == 0 then Acted(order, buy0, sell0, accounts0, after.buy, after.sell, after.accounts, p)
      else Acted(order, sell0, buy0, accounts0, after.sell, after.buy, after.accounts, p)
  }

  /** Whatever its kind, an order books exactly its own trades on the ledger, trades only
      between accounts on it, leaves every queued order's account on it, and keeps amounts
      positive when they were. */
  lemma ActedFacts(order: Order, own0: seq<Order>, counter0: seq<Order>, accounts0: map<int, Account>,
                   own: seq<Order>, counter: seq<Order>, accounts: map<int, Account>, p: Pass)
    requires Acted(order, own0, counter0, accounts0, own, counter, accounts, p)
    requires order.accountId in accounts0 && Owners(own0) <= accounts0.Keys && Owners(counter0) <= accounts0.Keys
    ensures Parties(p.fills) <= accounts0.Keys
    ensures accounts == SettleAll(accounts0, p.fills)
    ensures Owners(own) <= accounts.Keys && Owners(counter) <= accounts.Keys
    ensures Positive(own0) && Positive(counter0) && order.amount > 0 ==>
      Positive(own) && Positive(counter) && PositiveFills(p.fills)
  {
  }

  /** Whatever its kind, one order books exactly its own trades on the ledger with its account
      opened, trades only between accounts that exist by then, leaves every queued order's
      account on the ledger, and keeps amounts positive when they were. */
  lemma DispatchedFacts(order: Order, before: Book, after: Book, p: Pass)
    requires Dispatched(order, before, after, p)
    requires Owners(before.buy) <= before.accounts.Keys && Owners(before.sell) <= before.accounts.Keys
    ensures Parties(p.fills) <= before.accounts.Keys + {order.accountId}
    ensures after.accounts == SettleAll(Opened(before.accounts, order.accountId), p.fills)
    ensures Owners(after.buy) <= after.accounts.Keys && Owners(after.sell) <= after.accounts.Keys
    ensures Positive(before.buy) && Positive(before.sell) && order.amount > 0 ==>
      Positive(after.buy) && Positive(after.sell) && PositiveFills(p.fills)
    ensures forall k <- before.accounts :: k !in Parties(p.fills) ==> after.accounts[k] == before.accounts[k]
  {
    var accounts0 := Opened(before.accounts, order.accountId);
    if order.dir == 0 {
      ActedFacts(order, before.buy, before.sell, accounts0, after.buy, after.sell, after.accounts, p);
    } else {
      ActedFacts(order, before.sell, before.buy, accounts0, after.sell, after.buy, after.accounts, p);
    }
    forall k | k in before.accounts && k !in Parties(p.fills)
      ensures after.accounts[k] == before.accounts[k]
    {
      SettleAllUntouched(accounts0, p.fills, k);
    }
  }

  /** The dispatch on the kind of an order (go/main.go:71-99), with `own` its own side and
      `counter` the other; its account is already open. `p` records what it did. */
  method Act(own: PriorityQueue, counter: PriorityQueue, ledger: Ledger, order: Order) returns (ghost p: Pass)
    requires own != counter && order.accountId in ledger.accounts
    requires Owners(own.items) <= ledger.accounts.Keys && Owners(counter.items) <= ledger.accounts.Keys
    modifies own, counter, ledger
    ensures Acted(order, old(own.items), old(counter.items), old(ledger.accounts), own.items, counter.items,
                  ledger.accounts, p)
  {
    p := Pass([], [], [], []);
    var isBuy := order.dir == 0;
    if order.kind == "market" {
      ghost var fills, hits := ExecuteMarketOrder(counter, ledger, order.accountId, order.price, order.amount, isBuy);
      p := Pass(fills, [], hits, []);
    } else if order.kind == "limit" {
      own.HeapPush(Resting(order));
      ghost var pushed := own.items;
      ghost var fills, ownHits, counterHits := ExecuteLimitOrder(own, counter, ledger);
      p := Pass(fills, ownHits, counterHits, pushed);
    } else if order.kind == "ioc" {
      ghost var fills, hit := ExecuteIOCOrder(counter, ledger, order.accountId, order.price, order.amount, isBuy);
      p := Pass(fills, [], [hit], []);
    } else if order.kind == "fok" {
      ghost var fills, hit := ExecuteFOKOrder(counter, ledger, order.accountId, order.price, order.amount, isBuy);
      p := Pass(fills, [], [hit], []);
    }
  }

  /** One pass of the loop of ProcessOrders (go/main.go:66-101): opens the account of `order`
      on first reference and dispatches on its direction and kind, as `Dispatched` says; `p`
      records what the order did. */
  method ProcessOrder(buy: PriorityQueue, sell: PriorityQueue, ledger: Ledger, order: Order)
    returns (ghost p: Pass)
    requires buy != sell
    requires Owners(buy.items) <= ledger.accounts.Keys && Owners(sell.items) <= ledger.accounts.Keys
    modifies buy, sell, ledger
    ensures Dispatched(order, Book(old(buy.items), old(sell.items), old(ledger.accounts)),
                       Book(buy.items, sell.items, ledger.accounts), p)
  {
    ledger.Open(order.accountId);
    if order.dir == 0 {
      p := Act(buy, sell, ledger, order);
    } else {
      p := Act(sell, buy, ledger, order);
    }
  }

  /** The trades of a sequence of orders, in the order they happened. */
  ghost function AllFills(passes: seq<Pass>): seq<Fill> {
    if passes == [] then [] else AllFills(passes[..|passes| - 1]) + passes[|passes| - 1].fills
  }

  lemma AllFillsSnoc(passes: seq<Pass>, p: Pass)
    ensures AllFills(passes + [p]) == AllFills(passes) + p.fills
  {
    assert (passes + [p])[..|passes|] == passes;
  }

  /** Recording one more order's step keeps the record of every earlier one. */
  lemma DispatchedSnoc(orders: seq<Order>, i: int, books: seq<Book>, passes: seq<Pass>, b: Book, p: Pass)
    requires 0 <= i < |orders| && |books| == i + 1 && |passes| == i
    requires forall k | 0 <= k < i :: Dispatched(orders[k], books[k], books[k + 1], passes[k])
    requires Dispatched(orders[i], books[i], b, p)
    ensures forall k | 0 <= k < i + 1 ::
      Dispatched(orders[k], (books + [b])[k], (books + [b])[k + 1], (passes + [p])[k])
  {
  }

  /** Go `ProcessOrders` (go/main.go:58-105): runs the batch in order against two empty queues
      and an empty ledger. `books[i]` is the book before the i-th order and `passes[i]` what that
      order did, so each order took the book one step as `Dispatched` says. Every account that
      places an order ends with a record, and the records are what booking all the trades, in
      the order they happened, on zeroed accounts gives. `fills` are those trades. */
  method ProcessOrders(orders: seq<Order>)
    returns (accounts: map<int, Account>, ghost fills: seq<Fill>, ghost books: seq<Book>, ghost passes: seq<Pass>)
    ensures |books| == |orders| + 1 && |passes| == |orders|
    ensures books[0] == Book([], [], map[]) && books[|orders|].accounts == accounts
    ensures forall i | 0 <= i < |orders| :: Dispatched(orders[i], books[i], books[i + 1], passes[i])
    ensures fills == AllFills(passes)
    ensures accounts.Keys == Ids(orders) && Parties(fills) <= Ids(orders)
    ensures accounts == SettleAll(Zeroed(Ids(orders)), fills)
    ensures PositiveOrders(orders) ==> PositiveFills(fills)
  {
    var buy := new PriorityQueue();
    var sell := new PriorityQueue();
    var ledger := new Ledger();
    fills, books, passes := [], [Book([], [], map[])], [];
    for i := 0 to |orders|
      invariant |books| == i + 1 && |passes| == i
      invariant books[0] == Book([], [], map[]) && books[i] == Book(buy.items, sell.items, ledger.accounts)
      invariant forall k | 0 <= k < i :: Dispatched(orders[k], books[k], books[k + 1], passes[k])
      invariant fills == AllFills(passes)
      invariant Parties(fills) <= Ids(orders[..i])
      invariant ledger.accounts == SettleAll(Zeroed(Ids(orders[..i])), fills)
      invariant Owners(buy.items) <= ledger.accounts.Keys && Owners(sell.items) <= ledger.accounts.Keys
      invariant PositiveOrders(orders[..i]) ==> Positive(buy.items) && Positive(sell.items) && PositiveFills(fills)
    {
      ghost var before := Book(buy.items, sell.items, ledger.accounts);
      var p := ProcessOrder(buy, sell, ledger, orders[i]);
      DispatchedFacts(orders[i], before, Book(buy.items, sell.items, ledger.accounts), p);
      BatchStep(orders[..i], orders[i], fills, p.fills);
      TakeOneMore(orders, i);
      AllFillsSnoc(passes, p);
      DispatchedSnoc(orders, i, books, passes, Book(buy.items, sell.items, ledger.accounts), p);
      fills, books, passes := fills + p.fills, books + [Book(buy.items, sell.items, ledger.accounts)], passes + [p];
    }
    assert orders[..|orders|] == orders;
    accounts := ledger.accounts;
  }
}
