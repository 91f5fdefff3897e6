/** The paper-trading domain: accounts, positions, orders and the broker that mutates them.
    Each class has a `Row()` value; the functions on rows say what the broker computes. */
module TradingModels {
  import opened Basics
  import opened Money

  type Id = nat
  type Symbol = string

  datatype Side = Buy | Sell
  datatype OrderType = Market | Limit
  datatype Status = New | Pending | PartiallyFilled | Filled | Cancelled | Rejected

  datatype Quote = Quote(symbol: Symbol, bid: real, ask: real) {
    /** What the quote's own constructor accepts. */
    predicate Valid() {
      symbol != "" && 0.0 < bid <= ask
    }
  }

  datatype AccountRow = AccountRow(initialCash: real, cash: real)
  datatype PositionRow = PositionRow(symbol: Symbol, quantity: int, averageCost: real, realizedPnl: real)
  datatype OrderRow = OrderRow(
    accountId: Id, symbol: Symbol, side: Side, quantity: int, orderType: OrderType,
    status: Status, filled: int, limitPrice: Option<real>)
  datatype Execution = Execution(
    orderId: Id, accountId: Id, symbol: Symbol, side: Side, quantity: int, price: real)

  /** What each constructor accepts; a row outside it cannot be loaded. */
  predicate AccountLoads(a: AccountRow) {
    a.initialCash > 0.0 && a.cash >= 0.0
  }

  predicate PositionLoads(p: PositionRow) {
    p.symbol != "" && p.quantity >= 0 && p.averageCost >= 0.0
  }

  predicate OrderLoads(o: OrderRow) {
    && o.symbol != ""
    && o.quantity > 0
    && 0 <= o.filled <= o.quantity
    && (o.orderType == Limit ==> o.limitPrice.Some? && o.limitPrice.value > 0.0)
    && (o.orderType == Market ==> o.limitPrice.None?)
  }

  // ---------------------------------------------------------------- rows

  /** Weighted-average cost after buying n shares. */
  function Bought(p: PositionRow, n: int, price: real): PositionRow
    requires p.quantity + n > 0
  {
    p.(quantity := p.quantity + n,
       averageCost := (Times(p.averageCost, p.quantity) + Times(price, n)) / (p.quantity + n) as real)
  }

  function Sold(p: PositionRow, n: int, price: real): PositionRow {
    p.(quantity := p.quantity - n,
       realizedPnl := p.realizedPnl + Times(price - p.averageCost, n),
       averageCost := if p.quantity == n then 0.0 else p.averageCost)
  }

  function CostBasis(p: PositionRow): real {
    Times(p.averageCost, p.quantity)
  }

  function AsFilled(o: OrderRow, n: int): OrderRow {
    o.(filled := o.filled + n,
       status := if o.filled + n == o.quantity then Filled else PartiallyFilled)
  }

  predicate Triggered(o: OrderRow, quote: Quote) {
    o.limitPrice.Some? &&
    match o.side
    case Buy => quote.ask <= o.limitPrice.value
    case Sell => quote.bid >= o.limitPrice.value
  }

  /** The three objects after one fill, and what was traded. */
  datatype Fill = Fill(account: AccountRow, position: PositionRow, order: OrderRow, quantity: int, price: real)

  function Filling(a: AccountRow, p: PositionRow, o: OrderRow, quote: Quote): Result<Fill>
    requires p.quantity >= 0
  {
    var n := o.quantity - o.filled;
    match o.side
    case Buy =>
      if n <= 0 || quote.ask <= 0.0 then Err(InvalidValue)
      else if Times(quote.ask, n) > a.cash then Err(InsufficientCash)
      else Ok(Fill(a.(cash := a.cash - Times(quote.ask, n)), Bought(p, n, quote.ask), AsFilled(o, n), n, quote.ask))
    case Sell =>
      if n <= 0 then Err(InvalidValue)
      else if n > p.quantity then Err(InsufficientShares)
      else if quote.bid <= 0.0 then Err(InvalidValue)
      else Ok(Fill(a.(cash := a.cash + Times(quote.bid, n)), Sold(p, n, quote.bid), AsFilled(o, n), n, quote.bid))
  }

  function CommonChecks(o: OrderRow, p: PositionRow, quote: Quote): Outcome {
    if o.status != New then Fail(WrongState)
    else if o.symbol != quote.symbol || o.symbol != p.symbol then Fail(Mismatch)
    else Pass
  }

  /** execute_market_order on rows. */
  function MarketFilling(a: AccountRow, p: PositionRow, o: OrderRow, quote: Quote): Result<Fill>
    requires p.quantity >= 0
  {
    var checks := CommonChecks(o, p, quote);
    if checks.Fail? then Err(checks.error)
    else if o.orderType != Market then Err(InvalidValue)
    else Filling(a, p, o.(status := Pending), quote)
  }

  /** process_quote on rows: nothing happens unless the order is pending and triggered. */
  function LimitFilling(a: AccountRow, p: PositionRow, o: OrderRow, quote: Quote): Result<Option<Fill>>
    requires p.quantity >= 0
  {
    if o.orderType != Limit then Err(InvalidValue)
    else if o.status != Pending then Ok(None)
    else if o.symbol != quote.symbol || o.symbol != p.symbol then Err(Mismatch)
    else if o.limitPrice.None? then Err(InvalidValue)
    else if !Triggered(o, quote) then Ok(None)
    else match Filling(a, p, o, quote)
         case Ok(f) => Ok(Some(f))
         case Err(e) => Err(e)
  }

  /** A limit order never fills at a price worse than its limit, fills completely when it
      does, and once its price is met fails to fill only for want of cash or shares. */
  lemma LimitFillIsWithinLimit(a: AccountRow, p: PositionRow, o: OrderRow, quote: Quote)
    requires p.quantity >= 0 && OrderLoads(o) && o.orderType == Limit && o.filled < o.quantity && quote.Valid()
    ensures match LimitFilling(a, p, o, quote)
            case Ok(Some(f)) =>
              && o.status == Pending && f.order == o.(status := Filled, filled := o.quantity)
              && f.price == (if o.side == Buy then quote.ask else quote.bid)
              && (if o.side == Buy then f.price <= o.limitPrice.value else f.price >= o.limitPrice.value)
            case Ok(None) =>
              o.status == Pending ==>
                if o.side == Buy then quote.ask > o.limitPrice.value else quote.bid < o.limitPrice.value
            case Err(e) =>
              o.symbol == quote.symbol == p.symbol ==>
                e == if o.side == Buy then InsufficientCash else InsufficientShares
  {
    hide Times, Bought;
  }

  function Cancellable(o: OrderRow): bool {
    o.status !in {Filled, Cancelled, Rejected}
  }

  // ---------------------------------------------------------------- laws of one fill

  /** Cash, minus realized gains, plus what the shares cost: unchanged by any fill. */
  function Books(a: AccountRow, p: PositionRow): real {
    a.cash + CostBasis(p) - p.realizedPnl
  }

  lemma BuyKeepsCost(p: PositionRow, n: int, price: real)
    requires p.quantity + n > 0
    ensures CostBasis(Bought(p, n, price)) == CostBasis(p) + Times(price, n)
  {
    TimesOfShare(Times(p.averageCost, p.quantity) + Times(price, n), p.quantity + n);
  }

  lemma SellMovesCostToPnl(p: PositionRow, n: int, price: real)
    ensures CostBasis(Sold(p, n, price)) - Sold(p, n, price).realizedPnl
         == CostBasis(p) - p.realizedPnl - Times(price, n)
  {
    hide Times, CostBasis;
    SaleIdentity(p.averageCost, p.quantity, n, price);
    CostLeft(p, n, price);
    CostIs(p);
  }

  lemma CostIs(p: PositionRow)
    ensures CostBasis(p) == Times(p.averageCost, p.quantity)
  {}

  lemma CostLeft(p: PositionRow, n: int, price: real)
    ensures CostBasis(Sold(p, n, price)) == Times(p.averageCost, p.quantity - n)
  {
  }

  lemma SaleIdentity(cost: real, held: int, n: int, price: real)
    ensures Times(cost, held - n) - Times(price - cost, n) == Times(cost, held) - Times(price, n)
  {
    TimesSplit(cost, held - n, n);
    TimesSum(price, cost, n);
    assert held - n + n == held;
  }

  /** No fill creates or destroys value at the traded price, and no fill overdraws. */
  lemma FillKeepsBooks(a: AccountRow, p: PositionRow, o: OrderRow, quote: Quote)
    requires p.quantity >= 0 && Filling(a, p, o, quote).Ok?
    ensures var f := Filling(a, p, o, quote).value;
            && Books(f.account, f.position) == Books(a, p)
            && f.account.initialCash == a.initialCash
            && (o.side == Buy ==> 0.0 <= f.account.cash < a.cash && f.position.quantity > p.quantity)
            && (o.side == Sell ==> f.account.cash > a.cash && 0 <= f.position.quantity < p.quantity)
  {
    var f := Filling(a, p, o, quote).value;
    TimesPositive(f.price, f.quantity);
    if o.side == Buy {
      BuyKeepsCost(p, f.quantity, f.price);
    } else {
      SellMovesCostToPnl(p, f.quantity, f.price);
    }
  }

  // ---------------------------------------------------------------- objects

  class PaperAccount {
    const accountId: Id
    const initialCash: real
    var cash: real

    ghost function Row(): AccountRow reads this {
      AccountRow(initialCash, cash)
    }

    constructor (accountId: Id, row: AccountRow)
      requires AccountLoads(row)
      ensures this.accountId == accountId && Row() == row
    {
      this.accountId, initialCash, cash := accountId, row.initialCash, row.cash;
    }

    method EnsureCanBuy(quantity: int, price: real) returns (r: Outcome)
      ensures r.Pass? <==> quantity > 0 && price > 0.0 && price * quantity as real <= cash
      ensures r.Fail? ==> r.error == if quantity <= 0 || price <= 0.0 then InvalidValue else InsufficientCash
    {
      if quantity <= 0 { return Fail(InvalidValue); }
      if price <= 0.0 { return Fail(InvalidValue); }
      TimesIsProduct(price, quantity);
      if Times(price, quantity) > cash { return Fail(InsufficientCash); }
      return Pass;
    }

    method Debit(amount: real) returns (r: Outcome)
      modifies this`cash
      ensures r.Pass? <==> 0.0 < amount <= old(cash)
      ensures cash == if r.Pass? then old(cash) - amount else old(cash)
      ensures r.Fail? ==> r.error == if amount <= 0.0 then InvalidValue else InsufficientCash
    {
      if amount <= 0.0 { return Fail(InvalidValue); }
      if amount > cash { return Fail(InsufficientCash); }
      cash := cash - amount;
      return Pass;
    }

    method Credit(amount: real) returns (r: Outcome)
      modifies this`cash
      ensures r == if amount <= 0.0 then Fail(InvalidValue) else Pass
      ensures cash == if r.Pass? then old(cash) + amount else old(cash)
    {
      if amount <= 0.0 { return Fail(InvalidValue); }
      cash := cash + amount;
      return Pass;
    }
  }

  class Position {
    const symbol: Symbol
    var quantity: int
    var averageCost: real
    var realizedPnl: real

    ghost function Row(): PositionRow reads this {
      PositionRow(symbol, quantity, averageCost, realizedPnl)
    }

    constructor (row: PositionRow)
      requires PositionLoads(row)
      ensures Row() == row
    {
      symbol, quantity, averageCost, realizedPnl := row.symbol, row.quantity, row.averageCost, row.realizedPnl;
    }

    method BuyShares(n: int, price: real) returns (r: Outcome)
      requires quantity >= 0
      modifies this`quantity, this`averageCost
      ensures r == if n <= 0 || price <= 0.0 then Fail(InvalidValue) else Pass
      ensures r.Fail? ==> Row() == old(Row())
      ensures r.Pass? ==>
                && Row() == Bought(old(Row()), n, price)
                && quantity == old(quantity) + n
                && averageCost * quantity as real == old(averageCost * quantity as real) + price * n as real
    {
      if n <= 0 { return Fail(InvalidValue); }
      if price <= 0.0 { return Fail(InvalidValue); }
      var existingCost := Times(averageCost, quantity);
      var newCost := Times(price, n);
      var newQuantity := quantity + n;
      averageCost := (existingCost + newCost) / newQuantity as real;
      quantity := newQuantity;
      TimesIsProduct(old(averageCost), old(quantity));
      TimesIsProduct(price, n);
      return Pass;
    }

    /** Without a price the shares leave and no gain is booked. */
    method SellShares(n: int, price: Option<real>) returns (r: Outcome)
      modifies this
      ensures r == if n <= 0 then Fail(InvalidValue)
                   else if n > old(quantity) then Fail(InsufficientShares)
                   else if price.Some? && price.value <= 0.0 then Fail(InvalidValue) else Pass
      ensures r.Fail? ==> Row() == old(Row())
      ensures r.Pass? ==>
                && quantity == old(quantity) - n && averageCost == (if quantity == 0 then 0.0 else old(averageCost))
                && realizedPnl == old(realizedPnl) +
                     (if price.Some? then (price.value - old(averageCost)) * n as real else 0.0)
                && (price.Some? ==> Row() == Sold(old(Row()), n, price.value))
    {
      if n <= 0 { return Fail(InvalidValue); }
      if n > quantity { return Fail(InsufficientShares); }
      if price.Some? {
        if price.value <= 0.0 { return Fail(InvalidValue); }
        TimesIsProduct(price.value - averageCost, n);
        realizedPnl := realizedPnl + Times(price.value - averageCost, n);
      }
      quantity := quantity - n;
      if quantity == 0 {
        averageCost := 0.0;
      }
      return Pass;
    }
  }

  class PaperOrder {
    const orderId: Id
    const accountId: Id
    const symbol: Symbol
    const side: Side
    const quantity: int
    const orderType: OrderType
    const limitPrice: Option<real>
    var status: Status
    var filled: int

    ghost function Row(): OrderRow reads this {
      OrderRow(accountId, symbol, side, quantity, orderType, status, filled, limitPrice)
    }

    constructor (orderId: Id, row: OrderRow)
      requires OrderLoads(row)
      ensures this.orderId == orderId && Row() == row
    {
      this.orderId := orderId;
      accountId, symbol, side, quantity := row.accountId, row.symbol, row.side, row.quantity;
      orderType, limitPrice, status, filled := row.orderType, row.limitPrice, row.status, row.filled;
    }

    method MarkPending() returns (r: Outcome)
      modifies this`status
      ensures r == if old(status) == New then Pass else Fail(WrongState)
      ensures status == if r.Pass? then Pending else old(status)
    {
      if status != New { return Fail(WrongState); }
      status := Pending;
      return Pass;
    }

    method RecordFill(n: int) returns (r: Outcome)
      modifies this`status, this`filled
      ensures r == if 0 < n <= quantity - old(filled) then Pass else Fail(InvalidValue)
      ensures filled == old(filled) + if r.Pass? then n else 0
      ensures status == if r.Fail? then old(status) else if filled == quantity then Filled else PartiallyFilled
    {
      if n <= 0 { return Fail(InvalidValue); }
      if n > quantity - filled { return Fail(InvalidValue); }
      filled := filled + n;
      status := if filled == quantity then Filled else PartiallyFilled;
      return Pass;
    }

    method Cancel() returns (r: Outcome)
      modifies this`status
      ensures r == if old(status) in {New, Pending, PartiallyFilled} then Pass else Fail(WrongState)
      ensures status == if r.Pass? then Cancelled else old(status)
    {
      if status == Filled || status == Cancelled || status == Rejected {
        return Fail(WrongState);
      }
      status := Cancelled;
      return Pass;
    }
  }

  class PaperBroker {
    constructor () {}

    /** A market order that is refused once it was accepted for filling stays PENDING;
        account and position are untouched whenever an error is raised. */
    method ExecuteMarketOrder(account: PaperAccount, order: PaperOrder, position: Position, quote: Quote)
      returns (r: Result<Execution>)
      requires position.quantity >= 0
      modifies account`cash, order`status, order`filled, position
      ensures match MarketFilling(old(account.Row()), old(position.Row()), old(order.Row()), quote)
              case Ok(f) => r == Ok(ExecutionOf(order, f.quantity, f.price)) && Holds(account, position, order, f)
              case Err(e) =>
                && r == Err(e) && account.Row() == old(account.Row()) && position.Row() == old(position.Row())
                && order.filled == old(order.filled)
                && order.status ==
                   (if old(CommonChecks(order.Row(), position.Row(), quote)).Pass? && order.orderType == Market
                    then Pending else old(order.status))
    {
      var checks := ValidateCommon(order, position, quote);
      if checks.Fail? { return Err(checks.error); }
      if order.orderType != Market { return Err(InvalidValue); }
      var marked := order.MarkPending();
      if marked.Fail? { return Err(WrongState); }
      r := FillOrder(account, order, position, quote);
    }

    method SubmitLimitOrder(order: PaperOrder, position: Position, quote: Quote) returns (r: Outcome)
      modifies order`status
      ensures r.Pass? <==> CommonChecks(old(order.Row()), position.Row(), quote).Pass? && order.orderType == Limit
      ensures order.Row() == if r.Pass? then old(order.Row()).(status := Pending) else old(order.Row())
    {
      var checks := ValidateCommon(order, position, quote);
      if checks.Fail? { return checks; }
      if order.orderType != Limit { return Fail(InvalidValue); }
      r := order.MarkPending();
    }

    method ProcessQuote(account: PaperAccount, order: PaperOrder, position: Position, quote: Quote)
      returns (r: Result<Option<Execution>>)
      requires position.quantity >= 0
      modifies account`cash, order`status, order`filled, position
      ensures match LimitFilling(old(account.Row()), old(position.Row()), old(order.Row()), quote)
              case Ok(Some(f)) =>
                r == Ok(Some(ExecutionOf(order, f.quantity, f.price))) && Holds(account, position, order, f)
              case Ok(None) => r == Ok(None) && Untouched(account, position, order)
              case Err(e) => r == Err(e) && Untouched(account, position, order)
    {
      if order.orderType != Limit { return Err(InvalidValue); }
      if order.status != Pending { return Ok(None); }
      if order.symbol != quote.symbol { return Err(Mismatch); }
      if order.symbol != position.symbol { return Err(Mismatch); }
      var triggered := LimitIsTriggered(order, quote);
      if triggered.Err? { return Err(triggered.error); }
      if !triggered.value { return Ok(None); }
      var filled := FillOrder(account, order, position, quote);
      if filled.Err? { return Err(filled.error); }
      return Ok(Some(filled.value));
    }

    method CancelOrder(order: PaperOrder) returns (r: Outcome)
      modifies order`status
      ensures r == if Cancellable(old(order.Row())) then Pass else Fail(WrongState)
      ensures order.Row() == if r.Pass? then old(order.Row()).(status := Cancelled) else old(order.Row())
    {
      r := order.Cancel();
    }

    method ValidateCommon(order: PaperOrder, position: Position, quote: Quote) returns (r: Outcome)
      ensures r == CommonChecks(order.Row(), position.Row(), quote)
      ensures r.Pass? <==> order.status == New && order.symbol == quote.symbol == position.symbol
    {
      if order.status != New { return Fail(WrongState); }
      if order.symbol != quote.symbol { return Fail(Mismatch); }
      if order.symbol != position.symbol { return Fail(Mismatch); }
      return Pass;
    }

    method LimitIsTriggered(order: PaperOrder, quote: Quote) returns (r: Result<bool>)
      ensures r == if order.limitPrice.None? then Err(InvalidValue) else Ok(Triggered(order.Row(), quote))
      ensures r.Ok? ==> (r.value <==> if order.side == Buy then quote.ask <= order.limitPrice.value
                                      else quote.bid >= order.limitPrice.value)
    {
      if order.limitPrice.None? { return Err(InvalidValue); }
      if order.side == Buy { return Ok(quote.ask <= order.limitPrice.value); }
      return Ok(quote.bid >= order.limitPrice.value);
    }

    method FillOrder(account: PaperAccount, order: PaperOrder, position: Position, quote: Quote)
      returns (r: Result<Execution>)
      requires position.quantity >= 0
      modifies account`cash, order`status, order`filled, position
      ensures match Filling(old(account.Row()), old(position.Row()), old(order.Row()), quote)
              case Ok(f) => r == Ok(ExecutionOf(order, f.quantity, f.price)) && Holds(account, position, order, f)
              case Err(e) => r == Err(e) && Untouched(account, position, order)
    {
      if order.side == Buy {
        r := ExecuteBuy(account, order, position, quote);
      } else {
        r := ExecuteSell(account, order, position, quote);
      }
    }

    method ExecuteBuy(account: PaperAccount, order: PaperOrder, position: Position, quote: Quote)
      returns (r: Result<Execution>)
      requires order.side == Buy && position.quantity >= 0
      modifies account`cash, order`status, order`filled, position
      ensures match Filling(old(account.Row()), old(position.Row()), old(order.Row()), quote)
              case Ok(f) => r == Ok(ExecutionOf(order, f.quantity, f.price)) && Holds(account, position, order, f)
              case Err(e) => r == Err(e) && Untouched(account, position, order)
    {
      var price := quote.ask;
      var n := order.quantity - order.filled;
      TimesIsProduct(price, n);
      var allowed := account.EnsureCanBuy(n, price);
      if allowed.Fail? { return Err(allowed.error); }
      TimesPositive(price, n);
      var debited := account.Debit(Times(price, n));
      var bought := position.BuyShares(n, price);
      var recorded := order.RecordFill(n);
      return Ok(ExecutionOf(order, n, price));
    }

    method ExecuteSell(account: PaperAccount, order: PaperOrder, position: Position, quote: Quote)
      returns (r: Result<Execution>)
      requires order.side == Sell && position.quantity >= 0
      modifies account`cash, order`status, order`filled, position
      ensures match Filling(old(account.Row()), old(position.Row()), old(order.Row()), quote)
              case Ok(f) => r == Ok(ExecutionOf(order, f.quantity, f.price)) && Holds(account, position, order, f)
              case Err(e) => r == Err(e) && Untouched(account, position, order)
    {
      var price := quote.bid;
      var n := order.quantity - order.filled;
      var sold := position.SellShares(n, Some(price));
      if sold.Fail? { return Err(sold.error); }
      TimesPositive(price, n);
      var credited := account.Credit(Times(price, n));
      var recorded := order.RecordFill(n);
      return Ok(ExecutionOf(order, n, price));
    }
  }

  function ExecutionOf(order: PaperOrder, n: int, price: real): Execution {
    Execution(order.orderId, order.accountId, order.symbol, order.side, n, price)
  }

  ghost predicate Holds(account: PaperAccount, position: Position, order: PaperOrder, f: Fill)
    reads account, position, order
  {
    account.Row() == f.account && position.Row() == f.position && order.Row() == f.order
  }

  twostate predicate Untouched(account: PaperAccount, position: Position, order: PaperOrder)
    reads account, position, order
  {
    account.Row() == old(account.Row()) && position.Row() == old(position.Row()) && order.Row() == old(order.Row())
  }
}
