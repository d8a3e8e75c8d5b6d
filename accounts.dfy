/** What the Go and the Python engine share: the `Account` record of go/main.go and
    python/market_order_executor.py, the price test and the trade an incoming market order
    makes, the effect of one executed trade on the ledger, and the ledger object that the
    matching policies update in place. */
module Accounts {

  /** Settlement figures of one account (Go `Account`, Python `Account`). Saldo and
      turnover are exact reals; the floating-point rounding of the source is not modelled. */
  datatype Account = Account(saldo: real, position: int, turnover: real, tradeAmount: int)

  /** The state a lazily created account starts in. */
  const ZERO: Account := Account(0.0, 0, 0.0, 0)

  /** One executed trade. The `long` party's position rises by `qty` and its saldo falls by
      `qty * price`; the `short` party's position falls and its saldo rises by the same
      amounts; both parties' turnover and traded volume rise. `price` is whatever unit value
      the policy used, which may be negative (limit sells against negated bids). */
  datatype Fill = Fill(long: int, short: int, qty: int, price: real) {
    function Value(): real {
      qty as real * price
    }
  }

  /** One order of the input batch: the Go `Order` struct and the Python order dict, with the
      same six fields. `dir` 0 is a buy, anything else a sell. In the Go queues an order also
      rests as an `Order`, built with only the id, account, price and amount set, so its kind
      is "" and its dir 0. */
  datatype Order = Order(orderId: int, kind: string, accountId: int, dir: int, price: real, amount: int)

  /** The accounts that place an order of the batch. */
  function Ids(orders: seq<Order>): set<int> {
    if orders == [] then {} else Ids(orders[..|orders| - 1]) + {orders[|orders| - 1].accountId}
  }

  /** Every order of the batch has a positive amount. */
  predicate PositiveOrders(orders: seq<Order>) {
    orders == [] || (PositiveOrders(orders[..|orders| - 1]) && orders[|orders| - 1].amount > 0)
  }

  /** Absolute value (Go math.Abs, Python abs) on exact reals. */
  function Abs(x: real): (r: real)
    ensures r >= 0.0 && (r == x || r == -x)
  {
    if x < 0.0 then -x else x
  }

  /** The smaller of two quantities (Go and Python built-in `min`). */
  function Min(a: int, b: int): (r: int)
    ensures r <= a && r <= b && (r == a || r == b)
  {
    if a <= b then a else b
  }

  /** The price test of the market, IOC and FOK policies (go/main.go:111, 186, 225;
      python/market_order_executor.py:79, 167, 217): a buy accepts a stored price up to its own,
      a sell accepts any resting order whose stored price has magnitude at least its own. So a
      sell compares a bid stored negated with the bid's own price, and a sell at a price of zero
      or below accepts every resting order. */
  predicate Matches(isBuy: bool, price: real, stored: real)
    ensures !isBuy && stored <= 0.0 ==> (Matches(isBuy, price, stored) <==> price <= -stored)
    ensures !isBuy && price <= 0.0 ==> Matches(isBuy, price, stored)
  {
    (isBuy && price >= stored) || (!isBuy && price <= Abs(stored))
  }

  /** The trade an incoming market, IOC or FOK order of `accountId` makes against a resting
      order of `restingAccount` stored at `stored` (go/main.go:116-131,
      python/market_order_executor.py:81-97): the incoming account is long when it buys and
      short when it sells, and the unit price is the magnitude of the stored price. */
  function MarketTrade(accountId: int, restingAccount: int, stored: real, qty: int, isBuy: bool): (f: Fill)
    ensures f.qty == qty && f.price == Abs(stored)
    ensures {f.long, f.short} == {accountId, restingAccount}
    ensures isBuy ==> f.long == accountId
    ensures !isBuy ==> f.short == accountId
  {
    if isBuy then Fill(accountId, restingAccount, qty, Abs(stored))
    else Fill(restingAccount, accountId, qty, Abs(stored))
  }

  /** The accounts that take part in a sequence of fills. */
  function Parties(fills: seq<Fill>): set<int> {
    if fills == [] then {} else Parties(fills[..|fills| - 1]) + {fills[|fills| - 1].long, fills[|fills| - 1].short}
  }

  /** Total quantity traded by a sequence of fills. */
  function Volume(fills: seq<Fill>): int {
    if fills == [] then 0 else Volume(fills[..|fills| - 1]) + fills[|fills| - 1].qty
  }

  /** Every fill of the sequence moved a positive quantity. */
  predicate PositiveFills(fills: seq<Fill>) {
    fills == [] || (PositiveFills(fills[..|fills| - 1]) && fills[|fills| - 1].qty > 0)
  }

  /** `after` is `before` with one account's share of a trade booked: position up by `dq`,
      saldo down by `dv`, turnover up by `tv` and traded volume up by `tq`. */
  ghost predicate Booked(before: Account, after: Account, dq: int, dv: real, tq: int, tv: real) {
    && after.position == before.position + dq
    && after.saldo == before.saldo - dv
    && after.turnover == before.turnover + tv
    && after.tradeAmount == before.tradeAmount + tq
  }

  /** The ledger after one trade (go/main.go:116-131, python/market_order_executor.py:81-97):
      the long side is booked first, then the short side, each on the record as it stands. */
  function Settle(accounts: map<int, Account>, f: Fill): (r: map<int, Account>)
    requires f.long in accounts && f.short in accounts
    ensures r.Keys == accounts.Keys
  {
    var a := accounts[f.long];
    var m := accounts[f.long := Account(a.saldo - f.Value(), a.position + f.qty,
                                        a.turnover + f.Value(), a.tradeAmount + f.qty)];
    var b := m[f.short];
    m[f.short := Account(b.saldo + f.Value(), b.position - f.qty,
                         b.turnover + f.Value(), b.tradeAmount + f.qty)]
  }

  /** What one trade does to the ledger. Between two different accounts it moves position and
      saldo by equal and opposite amounts and adds the same volume and turnover to both; when
      both sides belong to one account the two bookings cancel in position and saldo and add
      twice to volume and turnover; every other account is untouched. */
  lemma SettleEffect(accounts: map<int, Account>, f: Fill)
    requires f.long in accounts && f.short in accounts
    ensures forall k :: k in accounts && k != f.long && k != f.short ==>
      Settle(accounts, f)[k] == accounts[k]
    ensures f.long != f.short ==>
      && Booked(accounts[f.long], Settle(accounts, f)[f.long], f.qty, f.Value(), f.qty, f.Value())
      && Booked(accounts[f.short], Settle(accounts, f)[f.short], -f.qty, -f.Value(), f.qty, f.Value())
    ensures f.long == f.short ==>
      Booked(accounts[f.long], Settle(accounts, f)[f.long], 0, 0.0, 2 * f.qty, 2.0 * f.Value())
  {
  }

  /** The ledger after a sequence of trades, booked in order. */
  function SettleAll(accounts: map<int, Account>, fills: seq<Fill>): (r: map<int, Account>)
    requires Parties(fills) <= accounts.Keys
    ensures r.Keys == accounts.Keys
    decreases |fills|
  {
    if fills == [] then accounts
    else Settle(SettleAll(accounts, fills[..|fills| - 1]), fills[|fills| - 1])
  }

  /** Appending one trade: its parties join the others, its quantity adds to the volume, and it is
      settled on the ledger the earlier trades left. */
  lemma Snoc(accounts: map<int, Account>, fills: seq<Fill>, g: Fill)
    ensures Parties(fills + [g]) == Parties(fills) + {g.long, g.short}
    ensures Volume(fills + [g]) == Volume(fills) + g.qty
    ensures PositiveFills(fills + [g]) <==> PositiveFills(fills) && g.qty > 0
    ensures Parties(fills + [g]) <= accounts.Keys ==>
      SettleAll(accounts, fills + [g]) == Settle(SettleAll(accounts, fills), g)
  {
    assert (fills + [g])[..|fills|] == fills;
  }

  /** Prepending one trade: it is settled first, on the ledger as it stands. */
  lemma Cons(accounts: map<int, Account>, f: Fill, fills: seq<Fill>)
    ensures Parties([f] + fills) == {f.long, f.short} + Parties(fills)
    ensures Volume([f] + fills) == f.qty + Volume(fills)
    ensures PositiveFills([f] + fills) <==> f.qty > 0 && PositiveFills(fills)
    ensures Parties([f] + fills) <= accounts.Keys ==>
      SettleAll(accounts, [f] + fills) == SettleAll(Settle(accounts, f), fills)
  {
    Snoc(accounts, [], f);
    assert [] + [f] == [f];
    SettleAllAppend(accounts, [f], fills);
    VolumeAppend([f], fills);
  }

  /** Moving a trade from the pending part of a run to the part already booked. */
  lemma Shift(done: seq<Fill>, f: Fill, pending: seq<Fill>)
    ensures (done + [f]) + pending == done + ([f] + pending)
  {
  }

  lemma {:induction false} VolumeAppend(fills: seq<Fill>, gills: seq<Fill>)
    ensures Volume(fills + gills) == Volume(fills) + Volume(gills)
    decreases |gills|
  {
    if gills == [] {
      assert fills + gills == fills;
    } else {
      var n := |gills| - 1;
      assert fills + gills == (fills + gills[..n]) + [gills[n]];
      assert gills == gills[..n] + [gills[n]];
      Snoc(map[], fills + gills[..n], gills[n]);
      Snoc(map[], gills[..n], gills[n]);
      VolumeAppend(fills, gills[..n]);
    }
  }

  /** Booking two trade sequences one after the other is booking their concatenation. */
  lemma {:induction false} SettleAllAppend(accounts: map<int, Account>, fills: seq<Fill>, gills: seq<Fill>)
    ensures Parties(fills + gills) == Parties(fills) + Parties(gills)
    ensures PositiveFills(fills + gills) <==> PositiveFills(fills) && PositiveFills(gills)
    ensures Parties(fills + gills) <= accounts.Keys ==>
      SettleAll(accounts, fills + gills) == SettleAll(SettleAll(accounts, fills), gills)
    decreases |gills|
  {
    if gills == [] {
      assert fills + gills == fills;
    } else {
      var n := |gills| - 1;
      var g := gills[n];
      assert gills == gills[..n] + [g];
      assert fills + gills == (fills + gills[..n]) + [g];
      SettleAllAppend(accounts, fills, gills[..n]);
      Snoc(accounts, fills + gills[..n], g);
      if Parties(fills + gills) <= accounts.Keys {
        Snoc(SettleAll(accounts, fills), gills[..n], g);
      } else {
        Snoc(map[], gills[..n], g);
      }
    }
  }

  /** Opening an account that no trade mentions commutes with booking the trades: the new
      account keeps the state it was opened with. */
  lemma {:induction false} SettleAllOpen(accounts: map<int, Account>, fills: seq<Fill>, id: int, a: Account)
    requires id !in accounts && Parties(fills) <= accounts.Keys
    ensures SettleAll(accounts[id := a], fills) == SettleAll(accounts, fills)[id := a]
    decreases |fills|
  {
    if fills != [] {
      var n := |fills| - 1;
      assert fills == fills[..n] + [fills[n]];
      Snoc(accounts, fills[..n], fills[n]);
      Snoc(accounts[id := a], fills[..n], fills[n]);
      SettleAllOpen(accounts, fills[..n], id, a);
      SettleOpen(SettleAll(accounts, fills[..n]), fills[n], id, a);
    }
  }

  lemma SettleOpen(accounts: map<int, Account>, f: Fill, id: int, a: Account)
    requires id !in accounts && f.long in accounts && f.short in accounts
    ensures Settle(accounts[id := a], f) == Settle(accounts, f)[id := a]
  {
    var l := Settle(accounts[id := a], f);
    var r := Settle(accounts, f)[id := a];
    assert l.Keys == r.Keys;
    forall k | k in l.Keys
      ensures l[k] == r[k]
    {
    }
  }

  /** An account that no trade of the sequence mentions ends as it started. */
  lemma {:induction false} SettleAllUntouched(accounts: map<int, Account>, fills: seq<Fill>, id: int)
    requires id in accounts && Parties(fills) <= accounts.Keys && id !in Parties(fills)
    ensures SettleAll(accounts, fills)[id] == accounts[id]
    decreases |fills|
  {
    if fills != [] {
      var n := |fills| - 1;
      SettleAllUntouched(accounts, fills[..n], id);
      SettleEffect(SettleAll(accounts, fills[..n]), fills[n]);
    }
  }

  /** The ledger once `id` has an account: a zeroed one is created on first reference. */
  function Opened(accounts: map<int, Account>, id: int): (r: map<int, Account>)
    ensures r.Keys == accounts.Keys + {id}
    ensures id in accounts ==> r == accounts
    ensures id !in accounts ==> r[id] == ZERO && forall k <- accounts :: r[k] == accounts[k]
  {
    if id in accounts then accounts else accounts[id := ZERO]
  }

  /** A ledger holding a zeroed account for each id. */
  function Zeroed(ids: set<int>): (r: map<int, Account>)
    ensures r.Keys == ids && forall k <- ids :: r[k] == ZERO
  {
    map k | k in ids :: ZERO
  }

  /** One order of a batch: opening its account and then booking its trades, on a ledger built
      by opening zeroed accounts for the earlier orders and booking their trades, is opening all
      accounts up front and booking all the trades in order. */
  lemma BatchStep(done: seq<Order>, o: Order, fills: seq<Fill>, next: seq<Fill>)
    requires Parties(fills) <= Ids(done) && Parties(next) <= Ids(done) + {o.accountId}
    ensures Ids(done + [o]) == Ids(done) + {o.accountId}
    ensures Parties(fills + next) <= Ids(done + [o])
    ensures SettleAll(Opened(SettleAll(Zeroed(Ids(done)), fills), o.accountId), next)
         == SettleAll(Zeroed(Ids(done + [o])), fills + next)
    ensures PositiveOrders(done + [o]) <==> PositiveOrders(done) && o.amount > 0
    ensures PositiveFills(fills + next) <==> PositiveFills(fills) && PositiveFills(next)
  {
    assert (done + [o])[..|done|] == done;
    var ids := Ids(done);
    SettleAllAppend(Zeroed(ids + {o.accountId}), fills, next);
    if o.accountId in ids {
      assert ids + {o.accountId} == ids;
    } else {
      ZeroedAdd(ids, o.accountId);
      SettleAllOpen(Zeroed(ids), fills, o.accountId, ZERO);
    }
  }

  lemma TakeOneMore(orders: seq<Order>, i: int)
    requires 0 <= i < |orders|
    ensures orders[..i + 1] == orders[..i] + [orders[i]]
  {
  }

  /** A non-empty batch is its prefix followed by its last order. */
  lemma SplitLast(orders: seq<Order>)
    requires orders != []
    ensures orders[..|orders| - 1] + [orders[|orders| - 1]] == orders
  {
  }

  lemma ZeroedAdd(ids: set<int>, id: int)
    ensures Zeroed(ids)[id := ZERO] == Zeroed(ids + {id})
  {
  }

  /** The ledger: Go's `map[int]*Account` and Python's `accounts` dict, updated in place. */
  class Ledger {
    var accounts: map<int, Account>

    constructor ()
      ensures accounts == map[]
    {
      accounts := map[];
    }

    /** Creates a zeroed account on first reference (go/main.go:67-69,
        python/market_order_executor.py:31-32). */
    method Open(id: int)
      modifies this
      ensures accounts == Opened(old(accounts), id)
    {
      if id !in accounts {
        accounts := accounts[id := ZERO];
      }
    }

    /** Books one trade on both parties' records. */
    method Record(f: Fill)
      requires f.long in accounts && f.short in accounts
      modifies this
      ensures accounts == Settle(old(accounts), f)
    {
      accounts := Settle(accounts, f);
    }
  }
}
