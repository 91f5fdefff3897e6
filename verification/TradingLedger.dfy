/** The stored ledger and its transactions.  `Run` is one transaction taken as a whole;
    PersistentPaperTradingService is proved to do exactly that through a unit of work. */
module TradingLedger {
  import opened Basics
  import opened Money
  import opened TradingModels
  import opened UnitsOfWork

  /** The four tables.  The execution table only grows; it is kept in commit order. */
  datatype Db = Db(
    accounts: map<Id, AccountRow>,
    positions: map<(Id, Symbol), PositionRow>,
    orders: map<Id, OrderRow>,
    executions: seq<Execution>)

  const EMPTY: Db := Db(map[], map[], map[], [])

  datatype Request =
    | OpenAccount(account: Id, initialCash: real)
    | MarketOrder(account: Id, symbol: Symbol, side: Side, quantity: int, newOrder: Id)
    | SubmitLimit(account: Id, symbol: Symbol, side: Side, quantity: int, limitPrice: real, newOrder: Id)
    | ProcessLimit(order: Id)
    | CancelLimit(order: Id)

  /** What the outside world answers: the quote source may fail, and so may the database
      at any point up to and including the commit. */
  datatype Env = Env(quote: Option<Quote>, accepted: bool)

  /** The rows a transaction reads under its locks. */
  datatype View = View(accountId: Id, account: AccountRow, order: Option<OrderRow>, position: Option<PositionRow>)

  /** What a transaction writes. */
  datatype Effect =
    | Nothing
    | Opened(a: Id, opening: AccountRow)
    | Placed(o: Id, placed: OrderRow)
    | Retired(o: Id, retired: OrderRow)
    | Traded(o: Id, insert: bool, fill: Fill, execution: Execution)

  function PositionAt(db: Db, a: Id, s: Symbol): PositionRow {
    if (a, s) in db.positions then db.positions[(a, s)] else PositionRow(s, 0, 0.0, 0.0)
  }

  /** QuoteService.get_quote: a valid quote for exactly this symbol, or an error. */
  function QuoteFor(env: Env, s: Symbol): Option<Quote> {
    if env.quote.Some? && env.quote.value.Valid() && env.quote.value.symbol == s then env.quote else None
  }

  // ------------------------------------------------------------ reading

  /** The account the request is about, found by an unlocked read for limit orders. */
  function Route(db: Db, req: Request): Option<Id> {
    match req
    case OpenAccount(a, _) => Some(a)
    case MarketOrder(a, s, _, _, _) => if s == "" then None else Some(a)
    case SubmitLimit(a, s, _, _, _, _) => if s == "" then None else Some(a)
    case ProcessLimit(o) => if o in db.orders && OrderLoads(db.orders[o]) then Some(db.orders[o].accountId) else None
    case CancelLimit(o) => if o in db.orders && OrderLoads(db.orders[o]) then Some(db.orders[o].accountId) else None
  }

  function ReadAccount(db: Db, a: Id): Option<AccountRow> {
    if a in db.accounts && AccountLoads(db.accounts[a]) then Some(db.accounts[a]) else None
  }

  function ReadOrder(db: Db, o: Id): Option<OrderRow> {
    if o in db.orders && OrderLoads(db.orders[o]) then Some(db.orders[o]) else None
  }

  function ReadPosition(db: Db, a: Id, s: Symbol): Option<PositionRow> {
    var p := PositionAt(db, a, s);
    if PositionLoads(p) then Some(p) else None
  }

  predicate NeedsOrder(req: Request) {
    req.ProcessLimit? || req.CancelLimit?
  }

  predicate NeedsPosition(req: Request) {
    req.MarketOrder? || req.SubmitLimit? || req.ProcessLimit?
  }

  /** The symbol whose position is locked, once the order (if any) is known. */
  function SymbolOf(req: Request, order: Option<OrderRow>): Symbol {
    match req
    case MarketOrder(_, s, _, _, _) => s
    case SubmitLimit(_, s, _, _, _, _) => s
    case _ => if order.Some? then order.value.symbol else ""
  }

  /** All rows in lock order: account, then order, then position. */
  function Read(db: Db, req: Request, a: Id): Option<View> {
    var account := ReadAccount(db, a);
    if account.None? then None
    else
      var order := if NeedsOrder(req) then ReadOrder(db, req.order) else None;
      if NeedsOrder(req) && (order.None? || order.value.accountId != a) then None
      else
        var position := if NeedsPosition(req) then ReadPosition(db, a, SymbolOf(req, order)) else None;
        if NeedsPosition(req) && position.None? then None
        else Some(View(a, account.value, order, position))
  }

  // ------------------------------------------------------------ deciding

  function NewOrder(a: Id, s: Symbol, side: Side, n: int, limit: Option<real>): OrderRow {
    OrderRow(a, s, side, n, if limit.Some? then Limit else Market, New, 0, limit)
  }

  function TradeOf(o: Id, insert: bool, f: Fill): Effect {
    Traded(o, insert, f, Execution(o, f.order.accountId, f.order.symbol, f.order.side, f.quantity, f.price))
  }

  /** The domain operation: a function of the locked rows and the quote alone. */
  function Decide(req: Request, env: Env, v: View): Result<Effect>
    requires NeedsOrder(req) ==> v.order.Some?
    requires NeedsPosition(req) ==> v.position.Some? && PositionLoads(v.position.value)
  {
    match req
    case OpenAccount(_, _) => Ok(Nothing)
    case MarketOrder(a, s, side, n, o) =>
      var quote := QuoteFor(env, v.position.value.symbol);
      if n <= 0 then Err(InvalidValue)
      else if quote.None? then Err(Unavailable)
      else (match MarketFilling(v.account, v.position.value,
                                NewOrder(v.accountId, v.position.value.symbol, side, n, None), quote.value)
            case Ok(f) => Ok(TradeOf(o, true, f))
            case Err(e) => Err(e))
    case SubmitLimit(a, s, side, n, limit, o) =>
      var quote := QuoteFor(env, v.position.value.symbol);
      if n <= 0 || limit <= 0.0 then Err(InvalidValue)
      else if quote.None? then Err(Unavailable)
      else Ok(Placed(o, NewOrder(v.accountId, v.position.value.symbol, side, n, Some(limit)).(status := Pending)))
    case ProcessLimit(o) =>
      var quote := QuoteFor(env, v.order.value.symbol);
      if quote.None? then Err(Unavailable)
      else (match LimitFilling(v.account, v.position.value, v.order.value, quote.value)
            case Ok(Some(f)) => Ok(TradeOf(o, false, f))
            case Ok(None) => Ok(Nothing)
            case Err(e) => Err(e))
    case CancelLimit(o) =>
      if Cancellable(v.order.value) then Ok(Retired(o, v.order.value.(status := Cancelled)))
      else Err(WrongState)
  }

  // ------------------------------------------------------------ writing

  function StoredAccount(c: Column, a: AccountRow): AccountRow {
    a.(cash := Store(c, a.cash))
  }

  function StoredPosition(c: Column, p: PositionRow): PositionRow {
    p.(averageCost := Store(c, p.averageCost), realizedPnl := Store(c, p.realizedPnl))
  }

  function StoredOrder(c: Column, o: OrderRow): OrderRow {
    o.(limitPrice := if o.limitPrice.Some? then Some(Store(c, o.limitPrice.value)) else None)
  }

  function StoredExecution(c: Column, e: Execution): Execution {
    e.(price := Store(c, e.price))
  }

  /** Key and check constraints of the tables. */
  predicate Admits(c: Column, db: Db, eff: Effect) {
    match eff
    case Nothing => true
    case Opened(a, row) => a !in db.accounts && Store(c, row.initialCash) > 0.0
    case Placed(o, _) => o !in db.orders
    case Retired(o, _) => o in db.orders
    case Traded(o, insert, f, e) =>
      (if insert then o !in db.orders else o in db.orders) && RowsAdmitted(c, db, f, e)
  }

  predicate RowsAdmitted(c: Column, db: Db, f: Fill, e: Execution) {
    && e.accountId in db.accounts
    && Store(c, f.account.cash) >= 0.0
    && f.position.quantity >= 0 && Store(c, f.position.averageCost) >= 0.0
    && e.quantity > 0 && Store(c, e.price) > 0.0
  }

  function Apply(c: Column, db: Db, eff: Effect): Db {
    match eff
    case Nothing => db
    case Opened(a, row) =>
      db.(accounts := db.accounts[a := AccountRow(Store(c, row.initialCash), Store(c, row.cash))])
    case Placed(o, row) => db.(orders := db.orders[o := StoredOrder(c, row)])
    case Retired(o, row) => db.(orders := db.orders[o := StoredOrder(c, row)])
    case Traded(o, insert, f, e) =>
      db.(accounts := db.accounts[e.accountId := StoredAccount(c, f.account)],
          positions := db.positions[(e.accountId, f.position.symbol) := StoredPosition(c, f.position)],
          orders := db.orders[o := StoredOrder(c, f.order)],
          executions := db.executions + [StoredExecution(c, e)])
  }

  // ------------------------------------------------------------ one transaction

  /** The effect of a request on a database it has to itself; None is a rollback. */
  function EffectOf(db: Db, req: Request, env: Env): Option<Effect> {
    if req.OpenAccount? then
      if req.initialCash <= 0.0 then None else Some(Opened(req.account, AccountRow(req.initialCash, req.initialCash)))
    else
      var a := Route(db, req);
      if a.None? then None
      else
        var v := Read(db, req, a.value);
        if v.None? then None
        else
          Decided(Decide(req, env, v.value))
  }

  function Decided(d: Result<Effect>): Option<Effect> {
    if d.Ok? then Some(d.value) else None
  }

  /** Writes and commits an effect, unless there is none or the database refuses it. */
  function Settle(c: Column, db: Db, eff: Option<Effect>, accepted: bool): Option<Db> {
    if eff.None? || !accepted || !Admits(c, db, eff.value) then None
    else Some(Apply(c, db, eff.value))
  }

  function Run(c: Column, db: Db, req: Request, env: Env): Option<Db> {
    Settle(c, db, EffectOf(db, req, env), env.accepted)
  }

  /** Why the database does not take an effect. */
  function Obstacle(c: Column, db: Db, eff: Effect): Error {
    match eff
    case Traded(o, insert, f, e) =>
      if !RowsAdmitted(c, db, f, e) then InvalidValue
      else if insert && o in db.orders then Duplicate
      else if !insert && o !in db.orders then NotFound
      else Unavailable
    case Placed(o, _) => if o in db.orders then Duplicate else Unavailable
    case _ => Unavailable
  }

  /** What a caller is told when a request does not commit. */
  function RefusalOf(c: Column, db: Db, req: Request, env: Env): Error {
    if req.OpenAccount? then InvalidValue
    else if NeedsOrder(req) && req.order !in db.orders then NotFound
    else if Route(db, req).None? then InvalidValue
    else
      var a := Route(db, req).value;
      var v := Read(db, req, a);
      if a !in db.accounts then NotFound
      else if v.None? then InvalidValue
      else
        var d := Decide(req, env, v.value);
        if d.Err? then d.error else Obstacle(c, db, d.value)
  }

  function After(c: Column, db: Db, req: Request, env: Env): Db {
    var r := Run(c, db, req, env);
    if r.Some? then r.value else db
  }

  /** A run of transactions one at a time; refused ones leave no trace. */
  function Serial(c: Column, db: Db, work: seq<(Request, Env)>): Db {
    if work == [] then db
    else
      var before := Serial(c, db, work[..|work| - 1]);
      After(c, before, work[|work| - 1].0, work[|work| - 1].1)
  }

  // ------------------------------------------------------------ the service

  class PersistentPaperTradingService {
    const column: Column
    const uow: UnitOfWork<Db>
    const broker: PaperBroker

    constructor (column: Column, uow: UnitOfWork<Db>)
      ensures this.column == column && this.uow == uow
    {
      this.column, this.uow := column, uow;
      broker := new PaperBroker();
    }

    /** A session is handed out with nothing pending. */
    ghost predicate Clean() reads this, uow {
      uow.working == uow.durable
    }

    /** market_buy / market_sell: commits the whole trade or nothing. */
    method Market(account: Id, symbol: Symbol, side: Side, quantity: int, newOrder: Id, env: Env)
      returns (r: Result<Execution>)
      requires Clean()
      modifies uow
      ensures Clean()
      ensures uow.durable == After(column, old(uow.durable), MarketOrder(account, symbol, side, quantity, newOrder),
                                   env)
      ensures r.Ok? <==> Run(column, old(uow.durable), MarketOrder(account, symbol, side, quantity, newOrder),
                             env).Some?
      ensures r.Ok? ==> uow.durable.executions == old(uow.durable.executions) + [StoredExecution(column, r.value)]
      ensures r.Err? ==> r.error == RefusalOf(column, old(uow.durable),
                                              MarketOrder(account, symbol, side, quantity, newOrder), env)
    {
      if symbol == "" { return Err(InvalidValue); }
      uow.Enter();
      r := MarketBody(account, symbol, side, quantity, newOrder, env);
      uow.Exit(r.Err?);
    }

    method MarketBody(account: Id, symbol: Symbol, side: Side, quantity: int, newOrder: Id, env: Env)
      returns (r: Result<Execution>)
      requires Clean() && symbol != "" && !uow.committed && !uow.rolledBack
      modifies uow
      ensures uow.committed || uow.rolledBack ==> Clean()
      ensures uow.durable == After(column, old(uow.durable), MarketOrder(account, symbol, side, quantity, newOrder),
                                   env)
      ensures r.Ok? <==> Run(column, old(uow.durable), MarketOrder(account, symbol, side, quantity, newOrder),
                             env).Some?
      ensures r.Ok? ==> uow.durable.executions == old(uow.durable.executions) + [StoredExecution(column, r.value)]
      ensures r.Err? ==> r.error == RefusalOf(column, old(uow.durable),
                                              MarketOrder(account, symbol, side, quantity, newOrder), env)
    {
      var a := RequireAccountForUpdate(account);
      if a.Err? { return Err(a.error); }
      var p := GetOrCreatePositionForUpdate(account, symbol);
      if p.Err? { return Err(p.error); }
      if quantity <= 0 { return Err(InvalidValue); }
      var order := new PaperOrder(newOrder, NewOrder(account, p.value.symbol, side, quantity, None));
      r := MarketLoaded(a.value, order, p.value, env);
    }

    method MarketLoaded(account: PaperAccount, order: PaperOrder, position: Position, env: Env)
      returns (r: Result<Execution>)
      requires Clean() && !uow.committed && !uow.rolledBack
      requires PositionLoads(position.Row()) && order.accountId == account.accountId
      modifies uow, account, order, position
      ensures uow.committed || uow.rolledBack ==> Clean()
      ensures var quote := QuoteFor(env, old(position.Row()).symbol);
              var d := if quote.None? then Err(Unavailable)
                       else MarketFilling(old(account.Row()), old(position.Row()), old(order.Row()), quote.value);
              var out := Settle(column, old(uow.durable),
                                if d.Ok? then Some(TradeOf(order.orderId, true, d.value)) else None, env.accepted);
              && uow.durable == (if out.Some? then out.value else old(uow.durable))
              && (r.Ok? <==> out.Some?)
              && (r.Ok? ==> uow.durable.executions == old(uow.durable.executions) + [StoredExecution(column, r.value)])
              && (r.Err? ==> r.error == if d.Err? then d.error
                                        else Obstacle(column, old(uow.durable), TradeOf(order.orderId, true, d.value)))
    {
      var quote := QuoteFor(env, position.symbol);
      if quote.None? { return Err(Unavailable); }
      r := broker.ExecuteMarketOrder(account, order, position, quote.value);
      if r.Err? { return; }
      var written := Persist(account, position, order, r.value, true);
      if written.Fail? { return Err(written.error); }
      var committed := uow.Commit(env.accepted);
      if committed.Fail? { return Err(committed.error); }
    }

    /** submit_limit_buy / submit_limit_sell: only a pending order is written. */
    method SubmitLimitOrder(account: Id, symbol: Symbol, side: Side, quantity: int, limitPrice: real, newOrder: Id,
                            env: Env)
      returns (r: Outcome)
      requires Clean()
      modifies uow
      ensures Clean()
      ensures uow.durable == After(column, old(uow.durable),
                                   SubmitLimit(account, symbol, side, quantity, limitPrice, newOrder), env)
      ensures r.Pass? <==> Run(column, old(uow.durable),
                               SubmitLimit(account, symbol, side, quantity, limitPrice, newOrder), env).Some?
      ensures r.Fail? ==> r.error == RefusalOf(column, old(uow.durable),
                                               SubmitLimit(account, symbol, side, quantity, limitPrice, newOrder), env)
    {
      if symbol == "" { return Fail(InvalidValue); }
      uow.Enter();
      r := SubmitBody(account, symbol, side, quantity, limitPrice, newOrder, env);
      uow.Exit(r.Fail?);
    }

    method SubmitBody(account: Id, symbol: Symbol, side: Side, quantity: int, limitPrice: real, newOrder: Id, env: Env)
      returns (r: Outcome)
      requires Clean() && symbol != "" && !uow.committed && !uow.rolledBack
      modifies uow
      ensures uow.committed || uow.rolledBack ==> Clean()
      ensures uow.durable == After(column, old(uow.durable),
                                   SubmitLimit(account, symbol, side, quantity, limitPrice, newOrder), env)
      ensures r.Pass? <==> Run(column, old(uow.durable),
                               SubmitLimit(account, symbol, side, quantity, limitPrice, newOrder), env).Some?
      ensures r.Fail? ==> r.error == RefusalOf(column, old(uow.durable),
                                               SubmitLimit(account, symbol, side, quantity, limitPrice, newOrder), env)
    {
      var a := RequireAccountForUpdate(account);
      if a.Err? { return Fail(a.error); }
      var p := GetOrCreatePositionForUpdate(account, symbol);
      if p.Err? { return Fail(p.error); }
      if quantity <= 0 || limitPrice <= 0.0 { return Fail(InvalidValue); }
      var order := new PaperOrder(newOrder, NewOrder(account, p.value.symbol, side, quantity, Some(limitPrice)));
      r := SubmitLoaded(order, p.value, env);
    }

    method SubmitLoaded(order: PaperOrder, position: Position, env: Env) returns (r: Outcome)
      requires Clean() && !uow.committed && !uow.rolledBack
      requires order.status == New && order.orderType == Limit && order.symbol == position.symbol
      modifies uow, order
      ensures uow.committed || uow.rolledBack ==> Clean()
      ensures var eff := Placed(order.orderId, old(order.Row()).(status := Pending));
              var d := if QuoteFor(env, position.symbol).Some? then Some(eff) else None;
              var out := Settle(column, old(uow.durable), d, env.accepted);
              && uow.durable == (if out.Some? then out.value else old(uow.durable))
              && (r.Pass? <==> out.Some?)
              && (r.Fail? ==> r.error == if d.None? then Unavailable else Obstacle(column, old(uow.durable), eff))
    {
      var quote := QuoteFor(env, position.symbol);
      if quote.None? { return Fail(Unavailable); }
      var submitted := broker.SubmitLimitOrder(order, position, quote.value);
      if submitted.Fail? { return submitted; }
      r := AddOrder(order);
      if r.Fail? { return; }
      r := uow.Commit(env.accepted);
    }

    /** process_limit_order: fills the order, or commits nothing when it is not due. */
    method ProcessLimitOrder(orderId: Id, env: Env) returns (r: Result<Option<Execution>>)
      requires Clean()
      modifies uow
      ensures Clean()
      ensures uow.durable == After(column, old(uow.durable), ProcessLimit(orderId), env)
      ensures r.Ok? <==> Run(column, old(uow.durable), ProcessLimit(orderId), env).Some?
      ensures uow.durable.executions == old(uow.durable.executions) +
                (if r.Ok? && r.value.Some? then [StoredExecution(column, r.value.value)] else [])
      ensures r.Err? ==> r.error == RefusalOf(column, old(uow.durable), ProcessLimit(orderId), env)
    {
      uow.Enter();
      r := ProcessBody(orderId, env);
      uow.Exit(r.Err?);
    }

    method ProcessBody(orderId: Id, env: Env) returns (r: Result<Option<Execution>>)
      requires Clean() && !uow.committed && !uow.rolledBack
      modifies uow
      ensures uow.committed || uow.rolledBack ==> Clean()
      ensures uow.durable == After(column, old(uow.durable), ProcessLimit(orderId), env)
      ensures r.Ok? <==> Run(column, old(uow.durable), ProcessLimit(orderId), env).Some?
      ensures uow.durable.executions == old(uow.durable.executions) +
                (if r.Ok? && r.value.Some? then [StoredExecution(column, r.value.value)] else [])
      ensures r.Err? ==> r.error == RefusalOf(column, old(uow.durable), ProcessLimit(orderId), env)
    {
      var routing := LoadOrder(orderId);
      if routing.Err? { return Err(routing.error); }
      var a := RequireAccountForUpdate(routing.value.accountId);
      if a.Err? { return Err(a.error); }
      var order := LoadOrder(orderId);
      if order.Err? { return Err(NotFound); }
      if order.value.accountId != a.value.accountId { return Err(Mismatch); }
      var p := GetOrCreatePositionForUpdate(order.value.accountId, order.value.symbol);
      if p.Err? { return Err(p.error); }
      r := ProcessLoaded(a.value, order.value, p.value, env);
    }

    /** The part of process_limit_order that runs once every row is locked. */
    method ProcessLoaded(account: PaperAccount, order: PaperOrder, position: Position, env: Env)
      returns (r: Result<Option<Execution>>)
      requires Clean() && !uow.committed && !uow.rolledBack
      requires PositionLoads(position.Row()) && order.accountId == account.accountId
      modifies uow, account, order, position
      ensures uow.committed || uow.rolledBack ==> Clean()
      ensures var v := old(View(account.accountId, account.Row(), Some(order.Row()), Some(position.Row())));
              var d := Decide(ProcessLimit(order.orderId), env, v);
              var out := Settle(column, old(uow.durable), Decided(d), env.accepted);
              && uow.durable == (if out.Some? then out.value else old(uow.durable))
              && (r.Ok? <==> out.Some?)
              && (r.Err? ==> r.error == if d.Err? then d.error else Obstacle(column, old(uow.durable), d.value))
              && uow.durable.executions == old(uow.durable.executions) +
                   (if r.Ok? && r.value.Some? then [StoredExecution(column, r.value.value)] else [])
    {
      var quote := QuoteFor(env, order.symbol);
      if quote.None? { return Err(Unavailable); }
      r := broker.ProcessQuote(account, order, position, quote.value);
      if r.Err? { return; }
      if r.value.Some? {
        var written := Persist(account, position, order, r.value.value, false);
        if written.Fail? { return Err(written.error); }
      }
      var committed := uow.Commit(env.accepted);
      if committed.Fail? { return Err(committed.error); }
    }

    /** cancel_limit_order. */
    method CancelLimitOrder(orderId: Id, env: Env) returns (r: Outcome)
      requires Clean()
      modifies uow
      ensures Clean()
      ensures uow.durable == After(column, old(uow.durable), CancelLimit(orderId), env)
      ensures r.Pass? <==> Run(column, old(uow.durable), CancelLimit(orderId), env).Some?
      ensures r.Fail? ==> r.error == RefusalOf(column, old(uow.durable), CancelLimit(orderId), env)
    {
      uow.Enter();
      r := CancelBody(orderId, env);
      uow.Exit(r.Fail?);
    }

    method CancelBody(orderId: Id, env: Env) returns (r: Outcome)
      requires Clean() && !uow.committed && !uow.rolledBack
      modifies uow
      ensures uow.committed || uow.rolledBack ==> Clean()
      ensures uow.durable == After(column, old(uow.durable), CancelLimit(orderId), env)
      ensures r.Pass? <==> Run(column, old(uow.durable), CancelLimit(orderId), env).Some?
      ensures r.Fail? ==> r.error == RefusalOf(column, old(uow.durable), CancelLimit(orderId), env)
    {
      var routing := LoadOrder(orderId);
      if routing.Err? { return Fail(routing.error); }
      var a := RequireAccountForUpdate(routing.value.accountId);
      if a.Err? { return Fail(a.error); }
      var order := LoadOrder(orderId);
      if order.Err? { return Fail(NotFound); }
      if order.value.accountId != a.value.accountId { return Fail(Mismatch); }
      r := broker.CancelOrder(order.value);
      if r.Fail? { return; }
      r := UpdateOrder(order.value);
      if r.Fail? { return; }
      r := uow.Commit(env.accepted);
    }

    // ---------------------------------------------------------- repositories

    method RequireAccountForUpdate(a: Id) returns (r: Result<PaperAccount>)
      ensures r.Ok? <==> ReadAccount(uow.working, a).Some?
      ensures r.Err? ==> r.error == if a !in uow.working.accounts then NotFound else InvalidValue
      ensures r.Ok? ==> fresh(r.value) && r.value.accountId == a && Some(r.value.Row()) == ReadAccount(uow.working, a)
    {
      if a !in uow.working.accounts { return Err(NotFound); }
      var row := uow.working.accounts[a];
      if row.initialCash <= 0.0 || row.cash < 0.0 { return Err(InvalidValue); }
      var account := new PaperAccount(a, row);
      return Ok(account);
    }

    method GetOrCreatePositionForUpdate(a: Id, s: Symbol) returns (r: Result<Position>)
      ensures r.Ok? <==> ReadPosition(uow.working, a, s).Some?
      ensures r.Err? ==> r.error == InvalidValue
      ensures r.Ok? ==> fresh(r.value) && Some(r.value.Row()) == ReadPosition(uow.working, a, s)
    {
      var row := PositionAt(uow.working, a, s);
      if !PositionLoads(row) { return Err(InvalidValue); }
      var position := new Position(row);
      return Ok(position);
    }

    method LoadOrder(o: Id) returns (r: Result<PaperOrder>)
      ensures r.Ok? <==> ReadOrder(uow.working, o).Some?
      ensures r.Err? ==> r.error == if o !in uow.working.orders then NotFound else InvalidValue
      ensures r.Ok? ==> fresh(r.value) && r.value.orderId == o && Some(r.value.Row()) == ReadOrder(uow.working, o)
    {
      if o !in uow.working.orders { return Err(NotFound); }
      var row := uow.working.orders[o];
      if !OrderLoads(row) { return Err(InvalidValue); }
      var order := new PaperOrder(o, row);
      return Ok(order);
    }

    method AddOrder(order: PaperOrder) returns (r: Outcome)
      modifies uow`working
      ensures r.Pass? <==> Admits(column, old(uow.working), Placed(order.orderId, order.Row()))
      ensures r.Fail? ==> r.error == Duplicate
      ensures uow.working == if r.Pass? then Apply(column, old(uow.working), Placed(order.orderId, order.Row()))
                             else old(uow.working)
    {
      if order.orderId in uow.working.orders { return Fail(Duplicate); }
      uow.working := uow.working.(orders := uow.working.orders[order.orderId := StoredOrder(column, RowOf(order))]);
      return Pass;
    }

    method UpdateOrder(order: PaperOrder) returns (r: Outcome)
      modifies uow`working
      ensures r.Pass? <==> Admits(column, old(uow.working), Retired(order.orderId, order.Row()))
      ensures r.Fail? ==> r.error == NotFound
      ensures uow.working == if r.Pass? then Apply(column, old(uow.working), Retired(order.orderId, order.Row()))
                             else old(uow.working)
    {
      if order.orderId !in uow.working.orders { return Fail(NotFound); }
      uow.working := uow.working.(orders := uow.working.orders[order.orderId := StoredOrder(column, RowOf(order))]);
      return Pass;
    }

    /** _persist_execution (fresh order) and _persist_limit_execution (existing order):
        account, position, order, execution, all in the same transaction. */
    method Persist(account: PaperAccount, position: Position, order: PaperOrder, execution: Execution, newOrder: bool)
      returns (r: Outcome)
      requires execution.orderId == order.orderId && execution.accountId == order.accountId == account.accountId
      modifies uow`working
      ensures var f := Fill(account.Row(), position.Row(), order.Row(), execution.quantity, execution.price);
              var eff := Traded(order.orderId, newOrder, f, execution);
              && (r.Pass? <==> Admits(column, old(uow.working), eff))
              && uow.working == (if r.Pass? then Apply(column, old(uow.working), eff) else old(uow.working))
              && (r.Fail? ==> r.error == Obstacle(column, old(uow.working), eff))
    {
      var before := uow.working;
      if account.accountId !in uow.working.accounts || Store(column, account.cash) < 0.0 { return Fail(InvalidValue); }
      if position.quantity < 0 || Store(column, position.averageCost) < 0.0 { return Fail(InvalidValue); }
      if execution.quantity <= 0 || Store(column, execution.price) <= 0.0 { return Fail(InvalidValue); }
      if newOrder {
        r := AddOrder(order);
      } else {
        r := UpdateOrder(order);
      }
      if r.Fail? { return; }
      uow.working := uow.working.(
        accounts := uow.working.accounts[
          account.accountId := StoredAccount(column, AccountRow(account.initialCash, account.cash))],
        positions := uow.working.positions[(account.accountId, position.symbol) :=
          StoredPosition(column,
                         PositionRow(position.symbol, position.quantity, position.averageCost, position.realizedPnl))],
        executions := uow.working.executions + [StoredExecution(column, execution)]);
      return Pass;
    }
  }

  function RowOf(order: PaperOrder): (row: OrderRow)
    reads order
    ensures row == order.Row()
  {
    OrderRow(order.accountId, order.symbol, order.side, order.quantity, order.orderType,
             order.status, order.filled, order.limitPrice)
  }
}
