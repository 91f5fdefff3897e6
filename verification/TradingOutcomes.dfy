/** What each trading request comes to, column by column: exactly when it commits, and the
    rows it leaves.  Nothing here mentions how the decision is computed. */
module TradingOutcomes {
  import opened Basics
  import opened Money
  import opened TradingModels
  import opened TradingLedger
  import opened LedgerInvariants

  /** The holding is the table's row, or nothing at no cost. */
  lemma HoldingIsRow(db: Db, a: Id, s: Symbol)
    ensures PositionAt(db, a, s) ==
            if (a, s) in db.positions then db.positions[(a, s)] else PositionRow(s, 0, 0.0, 0.0)
  {}

  /** The account exists, and it and the holding are readable. */
  predicate Readable(db: Db, a: Id, s: Symbol) {
    && a in db.accounts && db.accounts[a].initialCash > 0.0 && db.accounts[a].cash >= 0.0
    && PositionAt(db, a, s).quantity >= 0 && PositionAt(db, a, s).averageCost >= 0.0
  }

  /** The source answered with a well-formed quote for the symbol. */
  predicate Quoted(env: Env, s: Symbol) {
    env.quote.Some? && env.quote.value.symbol == s && 0.0 < env.quote.value.bid <= env.quote.value.ask
  }

  /** A buyer pays the ask, a seller gets the bid. */
  function TradedAt(env: Env, side: Side): real
    requires env.quote.Some?
  {
    match side
    case Buy => env.quote.value.ask
    case Sell => env.quote.value.bid
  }

  /** The cash covers a purchase, the holding covers a sale. */
  predicate Covered(db: Db, a: Id, s: Symbol, side: Side, n: int, price: real)
    requires a in db.accounts
  {
    match side
    case Buy => price * n as real <= db.accounts[a].cash
    case Sell => n <= PositionAt(db, a, s).quantity
  }

  /** The account after n shares changed hands at the price. */
  function Paid(row: AccountRow, side: Side, n: int, price: real): AccountRow {
    match side
    case Buy => AccountRow(row.initialCash, row.cash - price * n as real)
    case Sell => AccountRow(row.initialCash, row.cash + price * n as real)
  }

  /** The holding after n shares changed hands at the price: purchases average the cost,
      sales book the gain over it, and a holding sold out has no cost. */
  function Moved(p: PositionRow, s: Symbol, side: Side, n: int, price: real): PositionRow
    requires n > 0 && p.quantity >= 0
  {
    match side
    case Buy =>
      PositionRow(s, p.quantity + n,
                  (p.averageCost * p.quantity as real + price * n as real) / (p.quantity + n) as real,
                  p.realizedPnl)
    case Sell =>
      PositionRow(s, p.quantity - n, if n == p.quantity then 0.0 else p.averageCost,
                  p.realizedPnl + (price - p.averageCost) * n as real)
  }

  /** The tables after order row `filled` of account a traded n shares. */
  ghost predicate IsTraded(c: Column, db: Db, db': Db, o: Id, filled: OrderRow, n: int, price: real)
    requires n > 0 && filled.accountId in db.accounts && PositionAt(db, filled.accountId, filled.symbol).quantity >= 0
  {
    var a, s, side := filled.accountId, filled.symbol, filled.side;
    var account, holding := Paid(db.accounts[a], side, n, price), Moved(PositionAt(db, a, s), s, side, n, price);
    && db'.accounts == db.accounts[a := AccountRow(account.initialCash, Store(c, account.cash))]
    && db'.positions == db.positions[(a, s) := PositionRow(s, holding.quantity, Store(c, holding.averageCost),
                                                           Store(c, holding.realizedPnl))]
    && db'.orders == db.orders[o := filled]
    && db'.executions == db.executions + [Execution(o, a, s, side, n, Store(c, price))]
  }

  /** The keys and checks of the four tables, write by write. */
  lemma TablesAdmit(c: Column, db: Db, eff: Effect)
    ensures Admits(c, db, eff) <==>
            match eff
            case Nothing => true
            case Opened(a, row) => a !in db.accounts && Store(c, row.initialCash) > 0.0
            case Placed(o, _) => o !in db.orders
            case Retired(o, _) => o in db.orders
            case Traded(o, insert, f, e) =>
              && (insert <==> o !in db.orders) && e.accountId in db.accounts
              && Store(c, f.account.cash) >= 0.0 && f.position.quantity >= 0
              && Store(c, f.position.averageCost) >= 0.0 && e.quantity > 0 && Store(c, e.price) > 0.0
  {
    hide Store;
  }

  // ------------------------------------------------------------ one fill

  /** A fill, on the rows the broker is given: when it happens, and what it leaves. */
  lemma FillOutcome(a: AccountRow, p: PositionRow, o: OrderRow, quote: Quote)
    requires p.quantity >= 0 && 0.0 < quote.bid <= quote.ask && o.symbol == p.symbol
    ensures var n, price := o.quantity - o.filled, if o.side == Buy then quote.ask else quote.bid;
            var r := Filling(a, p, o, quote);
            && (r.Ok? <==> n > 0 && if o.side == Buy then price * n as real <= a.cash else n <= p.quantity)
            && (r.Err? ==> r.error == if n <= 0 then InvalidValue
                                      else if o.side == Buy then InsufficientCash else InsufficientShares)
            && (r.Ok? ==>
                  && r.value.account == Paid(a, o.side, n, price)
                  && r.value.position == Moved(p, p.symbol, o.side, n, price)
                  && r.value.order == OrderRow(o.accountId, o.symbol, o.side, o.quantity, o.orderType, Filled,
                                               o.quantity, o.limitPrice)
                  && r.value.quantity == n && r.value.price == price)
  {
    var n := o.quantity - o.filled;
    TimesIsProduct(quote.ask, n);
    TimesIsProduct(quote.bid, n);
    TimesIsProduct(p.averageCost, p.quantity);
    TimesIsProduct(quote.bid - p.averageCost, n);
    hide Times;
  }

  /** What a fill leaves is admitted by the tables' checks. */
  lemma FillIsStorable(c: Column, a: AccountRow, p: PositionRow, side: Side, n: int, price: real)
    requires n > 0 && p.quantity >= 0 && p.averageCost >= 0.0 && price > 0.0 && a.cash >= 0.0
    requires if side == Buy then price * n as real <= a.cash else n <= p.quantity
    ensures Store(c, Paid(a, side, n, price).cash) >= 0.0
    ensures Moved(p, p.symbol, side, n, price).quantity >= 0
    ensures Store(c, Moved(p, p.symbol, side, n, price).averageCost) >= 0.0
  {
    assert price * n as real >= 0.0;
    assert p.averageCost * p.quantity as real >= 0.0;
    var moved := Moved(p, p.symbol, side, n, price);
    if side == Buy {
      NotNegative(p.averageCost * p.quantity as real + price * n as real, p.quantity + n);
    }
    StoreOfZero(c);
    StoreMonotone(c, 0.0, Paid(a, side, n, price).cash);
    StoreMonotone(c, 0.0, moved.averageCost);
  }

  lemma NotNegative(total: real, n: int)
    requires total >= 0.0 && n > 0
    ensures total / n as real >= 0.0
  {}

  /** The effect of a fill of order o, whose row is `order` before it. */
  function TradeEffect(db: Db, o: Id, insert: bool, order: OrderRow, n: int, price: real): Effect
    requires n > 0 && PositionAt(db, order.accountId, order.symbol).quantity >= 0 && order.accountId in db.accounts
  {
    var a, s, side := order.accountId, order.symbol, order.side;
    Traded(o, insert,
           Fill(Paid(db.accounts[a], side, n, price), Moved(PositionAt(db, a, s), s, side, n, price),
                order.(status := Filled, filled := order.quantity), n, price),
           Execution(o, a, s, side, n, price))
  }

  /** Such an effect is settled exactly when the transaction is accepted, the order's key is
      as expected and the price is not stored as zero. */
  lemma TradeSettles(c: Column, db: Db, o: Id, insert: bool, order: OrderRow, n: int, price: real, accepted: bool)
    requires SymbolsAgree(db) && Readable(db, order.accountId, order.symbol)
    requires n > 0 && price > 0.0 && Covered(db, order.accountId, order.symbol, order.side, n, price)
    ensures var out := Settle(c, db, Some(TradeEffect(db, o, insert, order, n, price)), accepted);
            && (out.Some? <==> accepted && (insert <==> o !in db.orders) && Store(c, price) > 0.0)
            && (out.Some? ==>
                  IsTraded(c, db, out.value, o,
                           order.(status := Filled, filled := order.quantity,
                                  limitPrice := if order.limitPrice.None? then None
                                                else Some(Store(c, order.limitPrice.value))),
                           n, price))
  {
    FillIsStorable(c, db.accounts[order.accountId], PositionAt(db, order.accountId, order.symbol), order.side,
                   n, price);
    hide Store;
  }

  // ------------------------------------------------------------ market orders

  lemma MarketDecision(db: Db, a: Id, s: Symbol, side: Side, n: int, o: Id, env: Env)
    requires SymbolsAgree(db)
    ensures var eff := EffectOf(db, MarketOrder(a, s, side, n, o), env);
            && (eff.Some? <==>
                  && s != "" && n > 0 && Readable(db, a, s) && Quoted(env, s)
                  && Covered(db, a, s, side, n, TradedAt(env, side)))
            && (eff.Some? ==>
                  eff.value == TradeEffect(db, o, true, OrderRow(a, s, side, n, Market, Pending, 0, None), n,
                                           TradedAt(env, side)))
  {
    if s != "" && Readable(db, a, s) && n > 0 && Quoted(env, s) {
      var order := OrderRow(a, s, side, n, Market, Pending, 0, None);
      FillOutcome(db.accounts[a], PositionAt(db, a, s), order, env.quote.value);
      hide Filling, Moved, Paid;
    }
  }

  /** A market order commits exactly when its account and holding are readable, its key is
      free, the symbol is quoted, the price is not stored as zero, and the cash or the shares
      suffice; it then fills at once and in full, on the side that was asked for. */
  lemma MarketOutcome(c: Column, db: Db, a: Id, s: Symbol, side: Side, n: int, o: Id, env: Env)
    requires SymbolsAgree(db)
    ensures var out := Run(c, db, MarketOrder(a, s, side, n, o), env);
            && (out.Some? <==>
                  && env.accepted && s != "" && n > 0 && o !in db.orders && Readable(db, a, s) && Quoted(env, s)
                  && Covered(db, a, s, side, n, TradedAt(env, side)) && Store(c, TradedAt(env, side)) > 0.0)
            && (out.Some? ==>
                  IsTraded(c, db, out.value, o, OrderRow(a, s, side, n, Market, Filled, n, None), n,
                           TradedAt(env, side)))
  {
    MarketDecision(db, a, s, side, n, o, env);
    var eff := EffectOf(db, MarketOrder(a, s, side, n, o), env);
    hide EffectOf, Settle, TradeEffect, IsTraded, Readable, Quoted, Covered;
    if eff.Some? {
      assert PositionAt(db, a, s).quantity >= 0 && a in db.accounts by { ReadableRows(db, a, s); }
      assert TradedAt(env, side) > 0.0 by { QuotedPositive(env, s, side); }
      TradeSettles(c, db, o, true, OrderRow(a, s, side, n, Market, Pending, 0, None), n, TradedAt(env, side),
                   env.accepted);
    } else {
      NothingSettles(c, db, env.accepted);
    }
  }

  lemma ReadableRows(db: Db, a: Id, s: Symbol)
    requires Readable(db, a, s)
    ensures a in db.accounts && PositionAt(db, a, s).quantity >= 0
  {}

  lemma QuotedPositive(env: Env, s: Symbol, side: Side)
    requires Quoted(env, s)
    ensures TradedAt(env, side) > 0.0
  {}

  lemma NothingSettles(c: Column, db: Db, accepted: bool)
    ensures Settle(c, db, None, accepted).None?
  {}

  /** The holding moves by exactly the shares asked for: up for a purchase, down for a sale;
      no other holding and no other account changes. */
  lemma MarketMovesShares(c: Column, db: Db, a: Id, s: Symbol, side: Side, n: int, o: Id, env: Env)
    requires SymbolsAgree(db) && Run(c, db, MarketOrder(a, s, side, n, o), env).Some?
    ensures var db' := Run(c, db, MarketOrder(a, s, side, n, o), env).value;
            && PositionAt(db', a, s).quantity == PositionAt(db, a, s).quantity + (if side == Buy then n else -n)
            && (forall k :: k in db'.positions && k != (a, s) ==>
                  k in db.positions && db'.positions[k] == db.positions[k])
            && (forall b :: b in db.accounts && b != a ==> b in db'.accounts && db'.accounts[b] == db.accounts[b])
  {
    MarketOutcome(c, db, a, s, side, n, o, env);
    hide Run, Readable, Quoted, Covered, Store;
  }

  // ------------------------------------------------------------ limit orders

  /** A limit order is placed exactly when its account and holding are readable, its key is
      free, its numbers are positive and the symbol is quoted; nothing else changes. */
  lemma SubmitOutcome(c: Column, db: Db, a: Id, s: Symbol, side: Side, n: int, limit: real, o: Id, env: Env)
    requires SymbolsAgree(db)
    ensures var out := Run(c, db, SubmitLimit(a, s, side, n, limit, o), env);
            && (out.Some? <==>
                  && env.accepted && s != "" && n > 0 && limit > 0.0 && o !in db.orders
                  && Readable(db, a, s) && Quoted(env, s))
            && (out.Some? ==>
                  out.value == db.(orders := db.orders[o :=
                    OrderRow(a, s, side, n, Limit, Pending, 0, Some(Store(c, limit)))]))
  {
    hide Store;
  }

  /** The order's own row is readable. */
  predicate OrderReadable(r: OrderRow) {
    && r.symbol != "" && r.quantity > 0 && 0 <= r.filled <= r.quantity
    && match r.orderType
       case Limit => r.limitPrice.Some? && r.limitPrice.value > 0.0
       case Market => r.limitPrice.None?
  }

  /** The market price is at the limit or better for the order. */
  predicate WithinLimit(r: OrderRow, price: real) {
    r.limitPrice.Some? &&
    match r.side
    case Buy => price <= r.limitPrice.value
    case Sell => price >= r.limitPrice.value
  }

  predicate IsDue(db: Db, o: Id, env: Env) {
    && o in db.orders && env.quote.Some? && db.orders[o].status == Pending
    && WithinLimit(db.orders[o], TradedAt(env, db.orders[o].side))
  }

  lemma ProcessDecision(db: Db, o: Id, env: Env)
    requires SymbolsAgree(db)
    ensures var eff := EffectOf(db, ProcessLimit(o), env);
            && (eff.Some? <==>
                  && o in db.orders
                  && var r := db.orders[o];
                     && OrderReadable(r) && r.orderType == Limit
                     && Readable(db, r.accountId, r.symbol) && Quoted(env, r.symbol)
                     && (IsDue(db, o, env) ==>
                           r.filled < r.quantity
                           && Covered(db, r.accountId, r.symbol, r.side, r.quantity - r.filled, TradedAt(env, r.side))))
            && (eff.Some? ==>
                  eff.value == if !IsDue(db, o, env) then Nothing
                               else TradeEffect(db, o, false, db.orders[o], db.orders[o].quantity - db.orders[o].filled,
                                                TradedAt(env, db.orders[o].side)))
  {
    if o in db.orders {
      var r := db.orders[o];
      if OrderReadable(r) && Readable(db, r.accountId, r.symbol) && Quoted(env, r.symbol) {
        FillOutcome(db.accounts[r.accountId], PositionAt(db, r.accountId, r.symbol), r, env.quote.value);
        hide Filling, Moved, Paid;
      }
    }
  }

  /** Processing a limit order commits exactly when its rows are readable, the symbol is
      quoted, and either the order is not due, and then nothing changes, or it is due and
      can be filled, and then its remaining shares are traded. */
  lemma ProcessOutcome(c: Column, db: Db, o: Id, env: Env)
    requires SymbolsAgree(db)
    ensures var out := Run(c, db, ProcessLimit(o), env);
            && (out.Some? <==>
                  && env.accepted && o in db.orders
                  && var r := db.orders[o];
                     && OrderReadable(r) && r.orderType == Limit
                     && Readable(db, r.accountId, r.symbol) && Quoted(env, r.symbol)
                     && (IsDue(db, o, env) ==>
                           && r.filled < r.quantity && Store(c, TradedAt(env, r.side)) > 0.0
                           && Covered(db, r.accountId, r.symbol, r.side, r.quantity - r.filled, TradedAt(env, r.side))))
            && (out.Some? && !IsDue(db, o, env) ==> out.value == db)
            && (out.Some? && IsDue(db, o, env) ==>
                  var r := db.orders[o];
                  IsTraded(c, db, out.value, o,
                           OrderRow(r.accountId, r.symbol, r.side, r.quantity, Limit, Filled, r.quantity,
                                    Some(Store(c, r.limitPrice.value))),
                           r.quantity - r.filled, TradedAt(env, r.side)))
  {
    ProcessDecision(db, o, env);
    var eff := EffectOf(db, ProcessLimit(o), env);
    hide EffectOf, TradeEffect, IsTraded, Readable, Quoted, Covered;
    if eff.Some? && IsDue(db, o, env) {
      var r := db.orders[o];
      assert PositionAt(db, r.accountId, r.symbol).quantity >= 0 && r.accountId in db.accounts by {
        ReadableRows(db, r.accountId, r.symbol);
      }
      assert TradedAt(env, r.side) > 0.0 by { QuotedPositive(env, r.symbol, r.side); }
      hide Settle;
      TradeSettles(c, db, o, false, r, r.quantity - r.filled, TradedAt(env, r.side), env.accepted);
    }
  }

  /** Cancelling commits exactly for a readable order that is neither filled, nor cancelled,
      nor rejected, of a readable account; only the order's status changes. */
  lemma CancelOutcome(c: Column, db: Db, o: Id, env: Env)
    ensures var out := Run(c, db, CancelLimit(o), env);
            && (out.Some? <==>
                  && env.accepted && o in db.orders
                  && var r := db.orders[o];
                     && OrderReadable(r) && r.accountId in db.accounts
                     && db.accounts[r.accountId].initialCash > 0.0 && db.accounts[r.accountId].cash >= 0.0
                     && (r.status == New || r.status == Pending || r.status == PartiallyFilled))
            && (out.Some? ==>
                  var r := db.orders[o];
                  out.value == db.(orders := db.orders[o :=
                    OrderRow(r.accountId, r.symbol, r.side, r.quantity, r.orderType, Cancelled, r.filled,
                             if r.limitPrice.None? then None else Some(Store(c, r.limitPrice.value)))]))
  {
    hide Store;
  }

  /** An account is opened exactly under a free key with an amount that is not stored as
      zero or less. */
  lemma OpenOutcome(c: Column, db: Db, a: Id, cash: real, env: Env)
    ensures var out := Run(c, db, OpenAccount(a, cash), env);
            && (out.Some? <==> env.accepted && cash > 0.0 && Store(c, cash) > 0.0 && a !in db.accounts)
            && (out.Some? ==>
                  out.value == db.(accounts := db.accounts[a := AccountRow(Store(c, cash), Store(c, cash))]))
  {
    hide Store;
  }

  // ------------------------------------------------------------ refusals

  /** Why rows cannot be read under their locks. */
  function ReadError(db: Db, a: Id): Error {
    if a in db.accounts then InvalidValue else NotFound
  }

  /** Why a fill is refused: too little cash or shares, then a price stored as zero, then a
      key that is taken; or else the database failed. */
  function FillError(c: Column, db: Db, a: Id, s: Symbol, side: Side, n: int, price: real, taken: bool): Error
    requires a in db.accounts
  {
    if !Covered(db, a, s, side, n, price) then (if side == Buy then InsufficientCash else InsufficientShares)
    else if Store(c, price) <= 0.0 then InvalidValue
    else if taken then Duplicate
    else Unavailable
  }

  /** A request that has an effect is refused only for what the database makes of it. */
  lemma RefusalOfEffect(c: Column, db: Db, req: Request, env: Env)
    requires EffectOf(db, req, env).Some? && !req.OpenAccount?
    ensures RefusalOf(c, db, req, env) == Obstacle(c, db, EffectOf(db, req, env).value)
  {
    hide Obstacle, Decide, OrderLoads, AccountLoads, PositionLoads;
  }

  lemma TradeObstacle(c: Column, db: Db, o: Id, insert: bool, order: OrderRow, n: int, price: real)
    requires SymbolsAgree(db) && Readable(db, order.accountId, order.symbol) && (!insert ==> o in db.orders)
    requires n > 0 && price > 0.0 && Covered(db, order.accountId, order.symbol, order.side, n, price)
    ensures Obstacle(c, db, TradeEffect(db, o, insert, order, n, price)) ==
            FillError(c, db, order.accountId, order.symbol, order.side, n, price, insert && o in db.orders)
  {
    FillIsStorable(c, db.accounts[order.accountId], PositionAt(db, order.accountId, order.symbol), order.side,
                   n, price);
    hide Store;
  }

  lemma UncoveredFill(db: Db, order: OrderRow, env: Env)
    requires SymbolsAgree(db) && Readable(db, order.accountId, order.symbol) && Quoted(env, order.symbol)
    requires var n := order.quantity - order.filled;
             n <= 0 || !Covered(db, order.accountId, order.symbol, order.side, n, TradedAt(env, order.side))
    ensures Filling(db.accounts[order.accountId], PositionAt(db, order.accountId, order.symbol), order, env.quote.value)
            == Err(if order.quantity <= order.filled then InvalidValue
                   else if order.side == Buy then InsufficientCash else InsufficientShares)
  {
    FillOutcome(db.accounts[order.accountId], PositionAt(db, order.accountId, order.symbol), order, env.quote.value);
    hide Filling, Moved, Paid;
  }

  lemma MarketDue(c: Column, db: Db, a: Id, s: Symbol, side: Side, n: int, o: Id, env: Env)
    requires SymbolsAgree(db) && s != "" && Readable(db, a, s) && n > 0 && Quoted(env, s)
    ensures RefusalOf(c, db, MarketOrder(a, s, side, n, o), env) ==
            FillError(c, db, a, s, side, n, TradedAt(env, side), o in db.orders)
  {
    if Covered(db, a, s, side, n, TradedAt(env, side)) {
      MarketCovered(c, db, a, s, side, n, o, env);
    } else {
      MarketUncovered(c, db, a, s, side, n, o, env);
    }
  }

  lemma MarketCovered(c: Column, db: Db, a: Id, s: Symbol, side: Side, n: int, o: Id, env: Env)
    requires SymbolsAgree(db) && s != "" && Readable(db, a, s) && n > 0 && Quoted(env, s)
    requires Covered(db, a, s, side, n, TradedAt(env, side))
    ensures RefusalOf(c, db, MarketOrder(a, s, side, n, o), env) ==
            FillError(c, db, a, s, side, n, TradedAt(env, side), o in db.orders)
  {
    QuotedPositive(env, s, side);
    hide RefusalOf, EffectOf, TradeEffect, Obstacle, FillError, Covered;
    MarketDecision(db, a, s, side, n, o, env);
    RefusalOfEffect(c, db, MarketOrder(a, s, side, n, o), env);
    TradeObstacle(c, db, o, true, OrderRow(a, s, side, n, Market, Pending, 0, None), n, TradedAt(env, side));
  }

  lemma MarketUncovered(c: Column, db: Db, a: Id, s: Symbol, side: Side, n: int, o: Id, env: Env)
    requires SymbolsAgree(db) && s != "" && Readable(db, a, s) && n > 0 && Quoted(env, s)
    requires !Covered(db, a, s, side, n, TradedAt(env, side))
    ensures RefusalOf(c, db, MarketOrder(a, s, side, n, o), env) ==
            if side == Buy then InsufficientCash else InsufficientShares
  {
    UncoveredFill(db, OrderRow(a, s, side, n, Market, Pending, 0, None), env);
    hide Filling, Covered, Obstacle, EffectOf;
  }

  /** What the caller of a market order is told when it does not commit. */
  lemma MarketRefusal(c: Column, db: Db, a: Id, s: Symbol, side: Side, n: int, o: Id, env: Env)
    requires SymbolsAgree(db) && Run(c, db, MarketOrder(a, s, side, n, o), env).None?
    ensures RefusalOf(c, db, MarketOrder(a, s, side, n, o), env) ==
            if s == "" then InvalidValue
            else if !Readable(db, a, s) then ReadError(db, a)
            else if n <= 0 then InvalidValue
            else if !Quoted(env, s) then Unavailable
            else FillError(c, db, a, s, side, n, TradedAt(env, side), o in db.orders)
  {
    if s != "" && Readable(db, a, s) && n > 0 && Quoted(env, s) {
      MarketDue(c, db, a, s, side, n, o, env);
    }
    hide MarketFilling, Obstacle, FillError, Run;
  }

  lemma SubmitRefusal(c: Column, db: Db, a: Id, s: Symbol, side: Side, n: int, limit: real, o: Id, env: Env)
    requires SymbolsAgree(db) && Run(c, db, SubmitLimit(a, s, side, n, limit, o), env).None?
    ensures RefusalOf(c, db, SubmitLimit(a, s, side, n, limit, o), env) ==
            if s == "" then InvalidValue
            else if !Readable(db, a, s) then ReadError(db, a)
            else if n <= 0 || limit <= 0.0 then InvalidValue
            else if !Quoted(env, s) then Unavailable
            else if o in db.orders then Duplicate
            else Unavailable
  {
    hide Store, Run;
  }

  lemma ProcessRefusal(c: Column, db: Db, o: Id, env: Env)
    requires SymbolsAgree(db) && Run(c, db, ProcessLimit(o), env).None?
    ensures RefusalOf(c, db, ProcessLimit(o), env) ==
            if o !in db.orders then NotFound
            else
              var r := db.orders[o];
              if !OrderReadable(r) then InvalidValue
              else if !Readable(db, r.accountId, r.symbol) then ReadError(db, r.accountId)
              else if !Quoted(env, r.symbol) then Unavailable
              else if r.orderType == Market then InvalidValue
              else if !IsDue(db, o, env) then Unavailable
              else if r.filled == r.quantity then InvalidValue
              else FillError(c, db, r.accountId, r.symbol, r.side, r.quantity - r.filled, TradedAt(env, r.side), false)
  {
    hide Filling, Moved, Paid, Store, Run, EffectOf, Obstacle, FillError;
    if o in db.orders {
      var r := db.orders[o];
      if OrderReadable(r) && Readable(db, r.accountId, r.symbol) && Quoted(env, r.symbol) && r.orderType == Limit {
        DueRefusal(c, db, o, env);
      }
    }
  }

  lemma DueRefusal(c: Column, db: Db, o: Id, env: Env)
    requires SymbolsAgree(db) && o in db.orders && OrderReadable(db.orders[o]) && db.orders[o].orderType == Limit
    requires Readable(db, db.orders[o].accountId, db.orders[o].symbol) && Quoted(env, db.orders[o].symbol)
    ensures var r := db.orders[o];
            RefusalOf(c, db, ProcessLimit(o), env) ==
            if !IsDue(db, o, env) then Unavailable
            else if r.filled == r.quantity then InvalidValue
            else FillError(c, db, r.accountId, r.symbol, r.side, r.quantity - r.filled, TradedAt(env, r.side), false)
  {
    var r := db.orders[o];
    var n, price := r.quantity - r.filled, TradedAt(env, r.side);
    if !IsDue(db, o, env) || (r.filled < r.quantity && Covered(db, r.accountId, r.symbol, r.side, n, price)) {
      FillableRefusal(c, db, o, env);
    } else {
      UnfillableRefusal(c, db, o, env);
    }
  }

  lemma FillableRefusal(c: Column, db: Db, o: Id, env: Env)
    requires SymbolsAgree(db) && o in db.orders && OrderReadable(db.orders[o]) && db.orders[o].orderType == Limit
    requires Readable(db, db.orders[o].accountId, db.orders[o].symbol) && Quoted(env, db.orders[o].symbol)
    requires var r := db.orders[o];
             IsDue(db, o, env) ==>
               r.filled < r.quantity
               && Covered(db, r.accountId, r.symbol, r.side, r.quantity - r.filled, TradedAt(env, r.side))
    ensures var r := db.orders[o];
            RefusalOf(c, db, ProcessLimit(o), env) ==
            if !IsDue(db, o, env) then Unavailable
            else FillError(c, db, r.accountId, r.symbol, r.side, r.quantity - r.filled, TradedAt(env, r.side), false)
  {
    var r := db.orders[o];
    QuotedPositive(env, r.symbol, r.side);
    ReadableRows(db, r.accountId, r.symbol);
    hide RefusalOf, EffectOf, TradeEffect, FillError, Covered, Readable, Quoted;
    ProcessDecision(db, o, env);
    RefusalOfEffect(c, db, ProcessLimit(o), env);
    if IsDue(db, o, env) {
      hide Obstacle;
      TradeObstacle(c, db, o, false, r, r.quantity - r.filled, TradedAt(env, r.side));
    }
  }

  lemma UnfillableRefusal(c: Column, db: Db, o: Id, env: Env)
    requires SymbolsAgree(db) && o in db.orders && OrderReadable(db.orders[o]) && db.orders[o].orderType == Limit
    requires Readable(db, db.orders[o].accountId, db.orders[o].symbol) && Quoted(env, db.orders[o].symbol)
    requires var r := db.orders[o];
             IsDue(db, o, env)
             && (r.filled < r.quantity ==>
                   !Covered(db, r.accountId, r.symbol, r.side, r.quantity - r.filled, TradedAt(env, r.side)))
    ensures var r := db.orders[o];
            RefusalOf(c, db, ProcessLimit(o), env) ==
            if r.filled == r.quantity then InvalidValue
            else if r.side == Buy then InsufficientCash else InsufficientShares
  {
    UncoveredFill(db, db.orders[o], env);
    hide Filling, Covered, EffectOf, Obstacle;
  }

  lemma CancelRefusal(c: Column, db: Db, o: Id, env: Env)
    requires Run(c, db, CancelLimit(o), env).None?
    ensures RefusalOf(c, db, CancelLimit(o), env) ==
            if o !in db.orders then NotFound
            else
              var r := db.orders[o];
              if !OrderReadable(r) then InvalidValue
              else if r.accountId !in db.accounts then NotFound
              else if !AccountLoads(db.accounts[r.accountId]) then InvalidValue
              else if r.status == Filled || r.status == Cancelled || r.status == Rejected then WrongState
              else Unavailable
  {
    hide Store, Run;
  }

  // ------------------------------------------------------------ limits that round to zero

  /** A limit below half a step is accepted and stored as zero; the order that is placed can
      never be read again, so it is never filled and never cancelled. */
  lemma PlacedOrderIsReadableIff(c: Column, db: Db, a: Id, s: Symbol, side: Side, n: int, limit: real, o: Id, env: Env)
    requires SymbolsAgree(db) && Run(c, db, SubmitLimit(a, s, side, n, limit, o), env).Some?
    ensures OrderReadable(Run(c, db, SubmitLimit(a, s, side, n, limit, o), env).value.orders[o]) <==>
            Store(c, limit) > 0.0
  {
    SubmitOutcome(c, db, a, s, side, n, limit, o, env);
    hide Run, Store;
  }

  lemma UnreadableOrderStays(c: Column, db: Db, req: Request, env: Env, o: Id)
    requires SymbolsAgree(db) && o in db.orders && !OrderReadable(db.orders[o])
    ensures o in After(c, db, req, env).orders && After(c, db, req, env).orders[o] == db.orders[o]
    ensures req == ProcessLimit(o) || req == CancelLimit(o) ==> Run(c, db, req, env).None?
  {
    hide Run, Store, OrderReadable, IsDue, Readable, Quoted, Covered;
    match req
    case OpenAccount(a, cash) => OpenOutcome(c, db, a, cash, env);
    case MarketOrder(a, s, side, n, key) => MarketOutcome(c, db, a, s, side, n, key, env);
    case SubmitLimit(a, s, side, n, limit, key) => SubmitOutcome(c, db, a, s, side, n, limit, key, env);
    case ProcessLimit(key) => ProcessOutcome(c, db, key, env);
    case CancelLimit(key) => CancelOutcome(c, db, key, env);
  }

  /** However the run goes on. */
  lemma {:induction false} UnreadableOrderStaysForever(c: Column, work: seq<(Request, Env)>, more: seq<(Request, Env)>,
                                                       o: Id)
    requires var db := Serial(c, EMPTY, work); o in db.orders && !OrderReadable(db.orders[o])
    ensures var db, db' := Serial(c, EMPTY, work), Serial(c, EMPTY, work + more);
            o in db'.orders && db'.orders[o] == db.orders[o]
  {
    hide After, OrderReadable;
    if more == [] {
      assert work + more == work;
    } else {
      var n := |more| - 1;
      UnreadableOrderStaysForever(c, work, more[..n], o);
      assert (work + more)[..|work + more| - 1] == work + more[..n];
      ReachableSymbolsAgree(c, work + more[..n]);
      UnreadableOrderStays(c, Serial(c, EMPTY, work + more[..n]), more[n].0, more[n].1, o);
    }
  }

  lemma ReachableSymbolsAgree(c: Column, work: seq<(Request, Env)>)
    ensures SymbolsAgree(Serial(c, EMPTY, work))
  {
    hide Serial, OnGrid;
    EveryRun(c, work);
  }
}
