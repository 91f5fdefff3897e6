/** What every serial run of trading transactions keeps, from an empty database on. */
module LedgerInvariants {
  import opened Basics
  import opened Money
  import opened TradingModels
  import opened TradingLedger
  import Sums

  // ------------------------------------------------------------ what one effect is

  /** The order a trade fills, as the broker saw it. */
  function OrderBeing(db: Db, eff: Effect): OrderRow
    requires eff.Traded? && (!eff.insert ==> eff.o in db.orders)
  {
    if eff.insert then eff.fill.order.(status := Pending, filled := 0) else db.orders[eff.o]
  }

  /** Every effect a transaction produces comes from the current rows by one broker call. */
  ghost predicate Sound(db: Db, env: Env, eff: Effect) {
    match eff
    case Nothing => true
    case Opened(a, row) => row.cash == row.initialCash > 0.0
    case Placed(o, row) =>
      && row.accountId in db.accounts && row.symbol != ""
      && row.status == Pending && row.filled == 0 && row.quantity > 0
      && row.orderType == Limit && row.limitPrice.Some? && row.limitPrice.value > 0.0
    case Retired(o, row) =>
      o in db.orders && Cancellable(db.orders[o]) && row == db.orders[o].(status := Cancelled)
    case Traded(o, insert, f, e) =>
      && (!insert ==> o in db.orders)
      && e.accountId in db.accounts && AccountLoads(db.accounts[e.accountId])
      && PositionLoads(PositionAt(db, e.accountId, e.symbol))
      && PositionAt(db, e.accountId, e.symbol).symbol == e.symbol
      && env.quote.Some? && env.quote.value.Valid() && env.quote.value.symbol == e.symbol
      && var ord := OrderBeing(db, eff);
         && OrderLoads(ord) && ord.status == Pending && ord.filled < ord.quantity
         && (if insert then ord.orderType == Market && ord.filled == 0
             else ord.orderType == Limit && Triggered(ord, env.quote.value))
         && Filling(db.accounts[e.accountId], PositionAt(db, e.accountId, e.symbol), ord, env.quote.value) == Ok(f)
         && e == Execution(o, ord.accountId, ord.symbol, ord.side, f.quantity, f.price)
  }

  predicate SymbolsAgree(db: Db) {
    forall k :: k in db.positions ==> db.positions[k].symbol == k.1
  }

  lemma EffectsAreSound(db: Db, req: Request, env: Env)
    requires SymbolsAgree(db) && EffectOf(db, req, env).Some?
    ensures Sound(db, env, EffectOf(db, req, env).value)
  {
    match req
    case OpenAccount(_, _) =>
    case MarketOrder(a, s, side, n, o) =>
      var p := PositionAt(db, a, s);
      var ord := NewOrder(a, s, side, n, None).(status := Pending);
      assert Filling(db.accounts[a], p, ord, env.quote.value).Ok?;
    case SubmitLimit(a, s, _, _, _, _) => assert PositionAt(db, a, s).symbol == s;
    case ProcessLimit(o) =>
      var order := db.orders[o];
      assert PositionAt(db, order.accountId, order.symbol).symbol == order.symbol;
    case CancelLimit(o) =>
  }

  // ------------------------------------------------------------ tables

  predicate RowsFine(c: Column, db: Db) {
    && (forall a :: a in db.accounts ==>
          db.accounts[a].initialCash > 0.0 && db.accounts[a].cash >= 0.0 && OnGrid(c, db.accounts[a].cash))
    && (forall k :: k in db.positions ==>
          var p := db.positions[k];
          k.0 in db.accounts && p.symbol == k.1 != "" && p.quantity >= 0 && p.averageCost >= 0.0
          && (p.quantity == 0 ==> p.averageCost == 0.0) && OnGrid(c, p.averageCost) && OnGrid(c, p.realizedPnl))
  }

  predicate OrdersFine(db: Db) {
    forall o :: o in db.orders ==>
      var ord := db.orders[o];
      && ord.accountId in db.accounts && ord.symbol != "" && ord.quantity > 0
      && ord.status in {Pending, Filled, Cancelled}
      && ord.filled == (if ord.status == Filled then ord.quantity else 0)
      && (ord.orderType == Limit ==> ord.limitPrice.Some?)
      && (ord.orderType == Market ==> ord.limitPrice.None? && ord.status == Filled)
  }

  /** e is the one full-size fill of a FILLED order, no worse than its limit. */
  predicate FullFill(db: Db, e: Execution) {
    && e.orderId in db.orders
    && var ord := db.orders[e.orderId];
       && ord.status == Filled
       && e == Execution(e.orderId, ord.accountId, ord.symbol, ord.side, ord.quantity, e.price)
       && e.price > 0.0
       && (ord.limitPrice.Some? ==>
             if ord.side == Buy then e.price <= ord.limitPrice.value else e.price >= ord.limitPrice.value)
  }

  ghost predicate LifeCycle(db: Db) {
    && (forall i :: 0 <= i < |db.executions| ==> FullFill(db, db.executions[i]))
    && (forall i, j :: 0 <= i < j < |db.executions| ==> db.executions[i].orderId != db.executions[j].orderId)
    && (forall o :: o in db.orders && db.orders[o].status == Filled ==>
          exists i :: 0 <= i < |db.executions| && db.executions[i].orderId == o)
  }

  /** A trade completes one order that had no fill yet, in full. */
  predicate FillsInFull(db: Db, eff: Effect) {
    && eff.Traded? && (!eff.insert ==> eff.o in db.orders)
    && var ord, e := OrderBeing(db, eff), eff.execution;
       && ord.status == Pending && ord.filled == 0 && ord.quantity > 0
       && eff.fill.order == ord.(status := Filled, filled := ord.quantity)
       && e == Execution(eff.o, ord.accountId, ord.symbol, ord.side, ord.quantity, e.price) && e.price > 0.0
  }

  lemma TradesFillInFull(db: Db, env: Env, eff: Effect)
    requires OrdersFine(db) && eff.Traded? && Sound(db, env, eff)
    ensures FillsInFull(db, eff)
  {
  }

  lemma StoredPositionGrid(c: Column, p: PositionRow)
    requires p.averageCost >= 0.0
    ensures StoredPosition(c, p).averageCost >= 0.0
    ensures p.averageCost == 0.0 ==> StoredPosition(c, p).averageCost == 0.0
    ensures OnGrid(c, StoredPosition(c, p).averageCost) && OnGrid(c, StoredPosition(c, p).realizedPnl)
  {
    StoreOfZero(c);
    StoreMonotone(c, 0.0, p.averageCost);
    StoreLandsOnGrid(c, p.averageCost);
    StoreLandsOnGrid(c, p.realizedPnl);
  }

  lemma BoughtCostPositive(p: PositionRow, n: int, price: real)
    requires p.quantity >= 0 && n > 0 && p.averageCost >= 0.0 && price > 0.0
    ensures Bought(p, n, price).averageCost >= 0.0
  {
    TimesPositive(p.averageCost, p.quantity);
    TimesPositive(price, n);
    TimesOfShare(Times(p.averageCost, p.quantity) + Times(price, n), p.quantity + n);
  }

  lemma RowsStayFine(c: Column, db: Db, env: Env, eff: Effect)
    requires RowsFine(c, db) && Sound(db, env, eff) && Admits(c, db, eff)
    ensures RowsFine(c, Apply(c, db, eff))
  {
    match eff
    case Opened(a, row) => StoreLandsOnGrid(c, row.cash);
    case Traded(o, insert, f, e) =>
      FilledRowsFine(db, env, eff);
      StoreLandsOnGrid(c, f.account.cash);
      StoredPositionGrid(c, f.position);
    case _ =>
  }

  lemma FilledRowsFine(db: Db, env: Env, eff: Effect)
    requires eff.Traded? && Sound(db, env, eff)
    requires var p := PositionAt(db, eff.execution.accountId, eff.execution.symbol);
             p.quantity == 0 ==> p.averageCost == 0.0
    ensures var f, e := eff.fill, eff.execution;
            && f.account.initialCash == db.accounts[e.accountId].initialCash
            && f.position.symbol == e.symbol != "" && f.position.averageCost >= 0.0
            && (f.position.quantity == 0 ==> f.position.averageCost == 0.0)
  {
    var p := PositionAt(db, eff.execution.accountId, eff.execution.symbol);
    if eff.execution.side == Buy {
      BoughtCostPositive(p, eff.fill.quantity, eff.fill.price);
    }
  }

  lemma OrdersStayFine(c: Column, db: Db, env: Env, eff: Effect)
    requires OrdersFine(db) && Sound(db, env, eff) && Admits(c, db, eff)
    ensures OrdersFine(Apply(c, db, eff))
  {
  }

  lemma LifeCycleStays(c: Column, db: Db, env: Env, eff: Effect)
    requires OrdersFine(db) && LifeCycle(db) && LimitsOnGrid(c, db)
    requires Sound(db, env, eff) && Admits(c, db, eff)
    ensures LifeCycle(Apply(c, db, eff)) && LimitsOnGrid(c, Apply(c, db, eff))
  {
    match eff
    case Placed(o, row) =>
      StoreLandsOnGrid(c, row.limitPrice.value);
      FillsKept(db, Apply(c, db, eff));
    case Retired(o, row) => FillsKept(db, Apply(c, db, eff));
    case Traded(o, insert, f, e) => LifeCycleAfterTrade(c, db, env, eff);
    case _ =>
  }

  lemma LifeCycleAfterTrade(c: Column, db: Db, env: Env, eff: Effect)
    requires OrdersFine(db) && LifeCycle(db) && LimitsOnGrid(c, db)
    requires eff.Traded? && Sound(db, env, eff) && Admits(c, db, eff)
    ensures LifeCycle(Apply(c, db, eff)) && LimitsOnGrid(c, Apply(c, db, eff))
  {
    TradeIsFullFill(c, db, env, eff);
    TradesFillInFull(db, env, eff);
    LifeCycleExtends(c, db, eff);
  }

  lemma LifeCycleExtends(c: Column, db: Db, eff: Effect)
    requires LifeCycle(db) && LimitsOnGrid(c, db) && FillsInFull(db, eff) && Admits(c, db, eff)
    requires FullFill(Apply(c, db, eff), StoredExecution(c, eff.execution))
    requires eff.insert ==> eff.fill.order.limitPrice.None?
    ensures LifeCycle(Apply(c, db, eff)) && LimitsOnGrid(c, Apply(c, db, eff))
  {
    var db', n := Apply(c, db, eff), |db.executions|;
    FillsKept(db, db');
    forall i | 0 <= i < n ensures db.executions[i].orderId != eff.o {
      assert FullFill(db, db.executions[i]);
    }
    forall o | o in db'.orders && db'.orders[o].status == Filled
      ensures exists i :: 0 <= i < |db'.executions| && db'.executions[i].orderId == o
    {
      if o == eff.o {
        assert db'.executions[n].orderId == o;
      } else {
        var i :| 0 <= i < n && db.executions[i].orderId == o;
        assert db'.executions[i].orderId == o;
      }
    }
  }

  lemma TradeIsFullFill(c: Column, db: Db, env: Env, eff: Effect)
    requires OrdersFine(db) && LimitsOnGrid(c, db)
    requires eff.Traded? && Sound(db, env, eff) && Admits(c, db, eff)
    ensures FullFill(Apply(c, db, eff), StoredExecution(c, eff.execution))
  {
    var e, ord := eff.execution, OrderBeing(db, eff);
    if ord.limitPrice.Some? {
      if e.side == Buy {
        StoreMonotone(c, e.price, ord.limitPrice.value);
      } else {
        StoreMonotone(c, ord.limitPrice.value, e.price);
      }
    }
  }

  predicate LimitsOnGrid(c: Column, db: Db) {
    forall o :: o in db.orders && db.orders[o].limitPrice.Some? ==> OnGrid(c, db.orders[o].limitPrice.value)
  }

  /** Rows of FILLED orders never change again, so recorded fills stay full. */
  lemma FillsKept(db: Db, db': Db)
    requires LifeCycle(db)
    requires forall o :: o in db.orders && db.orders[o].status == Filled ==>
               o in db'.orders && db'.orders[o] == db.orders[o]
    ensures forall i :: 0 <= i < |db.executions| ==> FullFill(db', db.executions[i])
  {
  }

  // ------------------------------------------------------------ replay

  function ReplayTrade(c: Column, p: PositionRow, e: Execution): PositionRow {
    if e.side == Sell then StoredPosition(c, Sold(p, e.quantity, e.price))
    else if p.quantity + e.quantity > 0 then StoredPosition(c, Bought(p, e.quantity, e.price))
    else p
  }

  function ReplayPosition(c: Column, log: seq<Execution>, a: Id, s: Symbol): PositionRow {
    if log == [] then PositionRow(s, 0, 0.0, 0.0)
    else
      var p, e := ReplayPosition(c, log[..|log| - 1], a, s), log[|log| - 1];
      if e.accountId == a && e.symbol == s then ReplayTrade(c, p, e) else p
  }

  function ReplayCash(c: Column, initial: real, log: seq<Execution>, a: Id): real {
    if log == [] then initial
    else
      var cash, e := ReplayCash(c, initial, log[..|log| - 1], a), log[|log| - 1];
      if e.accountId == a then Store(c, CashAfter(cash, e)) else cash
  }

  function CashAfter(cash: real, e: Execution): real {
    if e.side == Buy then cash - Times(e.price, e.quantity) else cash + Times(e.price, e.quantity)
  }

  function ReplayFilled(log: seq<Execution>, o: Id): int {
    if log == [] then 0
    else ReplayFilled(log[..|log| - 1], o) + if log[|log| - 1].orderId == o then log[|log| - 1].quantity else 0
  }

  ghost predicate PositionsReplay(c: Column, db: Db) {
    forall a, s :: PositionAt(db, a, s) == ReplayPosition(c, db.executions, a, s)
  }

  ghost predicate CashReplays(c: Column, db: Db) {
    forall a :: a in db.accounts ==>
      db.accounts[a].cash == ReplayCash(c, db.accounts[a].initialCash, db.executions, a)
  }

  ghost predicate FillsReplay(db: Db) {
    forall o :: o in db.orders ==> db.orders[o].filled == ReplayFilled(db.executions, o)
  }

  /** If this is a trade, the price it is made at fits the columns. */
  predicate TradeFits(c: Column, eff: Effect) {
    eff.Traded? ==> OnGrid(c, eff.execution.price)
  }

  lemma PositionsReplayStays(c: Column, db: Db, env: Env, eff: Effect)
    requires PositionsReplay(c, db) && Sound(db, env, eff) && Admits(c, db, eff) && TradeFits(c, eff)
    ensures PositionsReplay(c, Apply(c, db, eff))
  {
    var db' := Apply(c, db, eff);
    if eff.Traded? {
      assert db'.executions[..|db.executions|] == db.executions;
    }
  }

  lemma {:induction false} UntradedAccountKeepsCash(c: Column, initial: real, log: seq<Execution>, a: Id)
    requires forall i :: 0 <= i < |log| ==> log[i].accountId != a
    ensures ReplayCash(c, initial, log, a) == initial
  {
    if log != [] {
      UntradedAccountKeepsCash(c, initial, log[..|log| - 1], a);
    }
  }

  lemma CashReplayStays(c: Column, db: Db, env: Env, eff: Effect)
    requires CashReplays(c, db) && OrdersFine(db) && LifeCycle(db)
    requires Sound(db, env, eff) && Admits(c, db, eff) && TradeFits(c, eff)
    ensures CashReplays(c, Apply(c, db, eff))
  {
    match eff
    case Opened(a, row) =>
      forall i | 0 <= i < |db.executions| ensures db.executions[i].accountId != a {
        assert FullFill(db, db.executions[i]);
      }
      UntradedAccountKeepsCash(c, Store(c, row.cash), db.executions, a);
    case Traded(o, insert, f, e) => CashReplaysAfterTrade(c, db, env, eff);
    case _ =>
  }

  lemma CashReplaysAfterTrade(c: Column, db: Db, env: Env, eff: Effect)
    requires CashReplays(c, db)
    requires eff.Traded? && Sound(db, env, eff) && Admits(c, db, eff) && TradeFits(c, eff)
    ensures CashReplays(c, Apply(c, db, eff))
  {
    var db', e := Apply(c, db, eff), eff.execution;
    FillMovesCash(db, env, eff);
    assert StoredExecution(c, e) == e;
    forall a | a in db'.accounts
      ensures db'.accounts[a].cash == ReplayCash(c, db'.accounts[a].initialCash, db'.executions, a)
    {
      ReplayCashAppend(c, db.accounts[a].initialCash, db.executions, e, a);
    }
  }

  lemma FillMovesCash(db: Db, env: Env, eff: Effect)
    requires eff.Traded? && Sound(db, env, eff)
    ensures eff.fill.account ==
              var before := db.accounts[eff.execution.accountId];
              before.(cash := CashAfter(before.cash, eff.execution))
  {
  }

  lemma ReplayCashAppend(c: Column, initial: real, log: seq<Execution>, e: Execution, a: Id)
    ensures var cash := ReplayCash(c, initial, log, a);
            ReplayCash(c, initial, log + [e], a) == if e.accountId == a then Store(c, CashAfter(cash, e)) else cash
  {
    assert (log + [e])[..|log|] == log;
  }

  lemma {:induction false} UntouchedOrderHasNoFill(log: seq<Execution>, o: Id)
    requires forall i :: 0 <= i < |log| ==> log[i].orderId != o
    ensures ReplayFilled(log, o) == 0
  {
    if log != [] {
      UntouchedOrderHasNoFill(log[..|log| - 1], o);
    }
  }

  lemma FillsReplayStays(c: Column, db: Db, env: Env, eff: Effect)
    requires FillsReplay(db) && OrdersFine(db) && LifeCycle(db) && Sound(db, env, eff) && Admits(c, db, eff)
    ensures FillsReplay(Apply(c, db, eff))
  {
    match eff
    case Placed(o, row) => NoFillYet(db, o);
    case Traded(o, insert, f, e) =>
      TradesFillInFull(db, env, eff);
      FillsReplayAfterTrade(c, db, eff);
    case _ =>
  }

  lemma FillsReplayAfterTrade(c: Column, db: Db, eff: Effect)
    requires FillsReplay(db) && LifeCycle(db) && FillsInFull(db, eff) && Admits(c, db, eff)
    ensures FillsReplay(Apply(c, db, eff))
  {
    NoFillYet(db, eff.o);
    hide LifeCycle, FullFill, Store, Admits, StoredAccount, StoredPosition;
    var db' := Apply(c, db, eff);
    assert db'.executions[..|db.executions|] == db.executions;
    forall o | o in db'.orders ensures db'.orders[o].filled == ReplayFilled(db'.executions, o) {
      assert o != eff.o ==> o in db.orders && db'.orders[o] == db.orders[o];
    }
  }

  lemma NoFillYet(db: Db, o: Id)
    requires LifeCycle(db) && (o !in db.orders || db.orders[o].status != Filled)
    ensures ReplayFilled(db.executions, o) == 0
  {
    forall i | 0 <= i < |db.executions| ensures db.executions[i].orderId != o {
      assert FullFill(db, db.executions[i]);
    }
    UntouchedOrderHasNoFill(db.executions, o);
  }

  // ------------------------------------------------------------ drift

  /** Shares bought minus shares sold. */
  function NetShares(log: seq<Execution>, a: Id, s: Symbol): int {
    if log == [] then 0
    else
      var n, e := NetShares(log[..|log| - 1], a, s), log[|log| - 1];
      if e.accountId != a || e.symbol != s then n
      else if e.side == Buy then n + e.quantity else n - e.quantity
  }

  /** Summed over the buys of an account: the shares held right after each. */
  function HeldAfterBuys(log: seq<Execution>, a: Id): int {
    if log == [] then 0
    else
      var e := log[|log| - 1];
      HeldAfterBuys(log[..|log| - 1], a) +
        if e.accountId == a && e.side == Buy then NetShares(log, a, e.symbol) else 0
  }

  function TradesOf(log: seq<Execution>, a: Id): nat {
    if log == [] then 0
    else TradesOf(log[..|log| - 1], a) + if log[|log| - 1].accountId == a then 1 else 0
  }

  ghost predicate SharesConserved(db: Db) {
    forall a, s :: PositionAt(db, a, s).quantity == NetShares(db.executions, a, s)
  }

  lemma SharesStayConserved(c: Column, db: Db, env: Env, eff: Effect)
    requires SharesConserved(db) && Sound(db, env, eff) && Admits(c, db, eff)
    ensures SharesConserved(Apply(c, db, eff))
  {
    if eff.Traded? {
      assert Apply(c, db, eff).executions[..|db.executions|] == db.executions;
    }
  }

  /** What a holding still ties up: its cost less the gains already realized. */
  function Stake(p: PositionRow): real {
    CostBasis(p) - p.realizedPnl
  }

  function RowsOf(positions: map<(Id, Symbol), PositionRow>, a: Id): map<Symbol, PositionRow> {
    map k | k in positions && k.0 == a :: k.1 := positions[k]
  }

  function Stakes(rows: map<Symbol, PositionRow>): map<Symbol, real> {
    map s | s in rows :: Stake(rows[s])
  }

  /** cash + cost of the shares - realized gains - initial cash. */
  ghost function Drift(db: Db, a: Id): real
    requires a in db.accounts
  {
    db.accounts[a].cash + Sums.Sum(Stakes(RowsOf(db.positions, a))) - db.accounts[a].initialCash
  }

  /** The bound: half a step for each share held after each buy, and when prices have more
      decimals than the columns two half steps for each trade. */
  function DriftBound(c: Column, log: seq<Execution>, a: Id, gridOnly: bool): real {
    Times(HalfStep(c), HeldAfterBuys(log, a) + if gridOnly then 0 else 2 * TradesOf(log, a))
  }

  ghost predicate DriftBounded(c: Column, db: Db, gridOnly: bool) {
    forall a :: a in db.accounts ==> Within(Drift(db, a), 0.0, DriftBound(c, db.executions, a, gridOnly))
  }

  function TradeSteps(c: Column, o: OrderRow, f: Fill): int {
    (if o.side == Buy then f.position.quantity else 0) + (if OnGrid(c, f.price) then 0 else 2)
  }

  /** Storing one fill moves the books by rounding alone. */
  lemma StoredFillError(c: Column, a: AccountRow, p: PositionRow, o: OrderRow, quote: Quote, f: Fill)
    requires p.quantity >= 0 && Filling(a, p, o, quote) == Ok(f)
    requires OnGrid(c, a.cash) && OnGrid(c, p.averageCost) && OnGrid(c, p.realizedPnl)
    ensures Within(Books(StoredAccount(c, f.account), StoredPosition(c, f.position)), Books(a, p),
                   Times(HalfStep(c), TradeSteps(c, o, f)))
  {
    hide Times, Store;
    FillKeepsBooks(a, p, o, quote);
    MovedError(c, a.cash, f.price, f.quantity);
    if o.side == Buy {
      StoreError(c, f.position.averageCost);
      BuyRounding(c, f.account, f.position, OnGrid(c, f.price));
    } else {
      GainError(c, p.realizedPnl, f.price, p.averageCost, f.quantity);
      SellRounding(c, f.account, f.position, OnGrid(c, f.price));
    }
  }

  lemma BuyRounding(c: Column, a: AccountRow, p: PositionRow, exact: bool)
    requires p.quantity >= 0 && OnGrid(c, p.realizedPnl)
    requires Within(Store(c, a.cash), a.cash, if exact then 0.0 else HalfStep(c))
    requires Within(Store(c, p.averageCost), p.averageCost, HalfStep(c))
    ensures Within(Books(StoredAccount(c, a), StoredPosition(c, p)), Books(a, p),
                   Times(HalfStep(c), p.quantity + if exact then 0 else 2))
  {
    var h, slack := HalfStep(c), if exact then 0 else 2;
    assert Times(h, 2) == h + h;
    hide Times, Store;
    TimesWithin(Store(c, p.averageCost), p.averageCost, h, p.quantity);
    TimesSplit(h, p.quantity, slack);
  }

  lemma SellRounding(c: Column, a: AccountRow, p: PositionRow, exact: bool)
    requires p.averageCost == 0.0 || OnGrid(c, p.averageCost)
    requires Within(Store(c, a.cash), a.cash, if exact then 0.0 else HalfStep(c))
    requires Within(Store(c, p.realizedPnl), p.realizedPnl, if exact then 0.0 else HalfStep(c))
    ensures Within(Books(StoredAccount(c, a), StoredPosition(c, p)), Books(a, p),
                   Times(HalfStep(c), if exact then 0 else 2))
  {
    var h := HalfStep(c);
    assert Times(h, 2) == h + h && Times(h, 0) == 0.0;
    StoreOfZero(c);
    hide Times, Store;
  }

  /** Cash after a charge or a credit is stored exactly when the price fits the column. */
  lemma MovedError(c: Column, cash: real, price: real, n: int)
    requires OnGrid(c, cash)
    ensures var h := if OnGrid(c, price) then 0.0 else HalfStep(c);
            && Within(Store(c, cash - Times(price, n)), cash - Times(price, n), h)
            && Within(Store(c, cash + Times(price, n)), cash + Times(price, n), h)
  {
    hide Times, Store;
    StoreError(c, cash - Times(price, n));
    StoreError(c, cash + Times(price, n));
    if OnGrid(c, price) {
      GridClosedUnderScaling(c, price, n);
      GridClosedUnderSum(c, cash, Times(price, n));
    }
  }

  lemma GainError(c: Column, realized: real, price: real, cost: real, n: int)
    requires OnGrid(c, realized) && OnGrid(c, cost)
    ensures var moved := realized + Times(price - cost, n);
            Within(Store(c, moved), moved, if OnGrid(c, price) then 0.0 else HalfStep(c))
  {
    hide Times, Store;
    StoreError(c, realized + Times(price - cost, n));
    if OnGrid(c, price) {
      GridClosedUnderSum(c, price, cost);
      GridClosedUnderScaling(c, price - cost, n);
      GridClosedUnderSum(c, realized, Times(price - cost, n));
    }
  }

  lemma RowsOfUpdate(positions: map<(Id, Symbol), PositionRow>, owner: Id, s: Symbol, p: PositionRow, a: Id)
    ensures RowsOf(positions[(owner, s) := p], a) ==
              if a == owner then RowsOf(positions, a)[s := p] else RowsOf(positions, a)
  {
    var before, after := RowsOf(positions, a), RowsOf(positions[(owner, s) := p], a);
    assert forall t :: t in before <==> (a, t) in positions;
    assert forall t :: t in after <==> (a, t) in positions[(owner, s) := p];
  }

  /** Replacing one row changes the total by the difference of the two stakes. */
  lemma TotalAfterUpdate(rows: map<Symbol, PositionRow>, s: Symbol, p: PositionRow)
    ensures Sums.Sum(Stakes(rows[s := p])) ==
              Sums.Sum(Stakes(rows)) - (if s in rows then Stake(rows[s]) else 0.0) + Stake(p)
  {
    assert Stakes(rows[s := p]) == Stakes(rows)[s := Stake(p)];
    Sums.SumUpdate(Stakes(rows), s, Stake(p));
  }

  lemma StakeOfNothing(s: Symbol)
    ensures Stake(PositionRow(s, 0, 0.0, 0.0)) == 0.0
  {
  }

  /** A trade leaves every other account's drift alone... */
  lemma DriftOfOthers(c: Column, db: Db, eff: Effect, a: Id)
    requires eff.Traded? && a in db.accounts && a != eff.execution.accountId
    ensures Drift(Apply(c, db, eff), a) == Drift(db, a)
  {
    var f := eff.fill;
    RowsOfUpdate(db.positions, eff.execution.accountId, f.position.symbol, StoredPosition(c, f.position), a);
  }

  /** ...and changes its own account's drift by the rounding of that trade. */
  lemma DriftAfterTrade(c: Column, db: Db, env: Env, eff: Effect)
    requires RowsFine(c, db) && eff.Traded? && Sound(db, env, eff) && Admits(c, db, eff)
    ensures var a := eff.execution.accountId;
            Within(Drift(Apply(c, db, eff), a), Drift(db, a),
                   Times(HalfStep(c), TradeSteps(c, OrderBeing(db, eff), eff.fill)))
  {
    var a, s, f := eff.execution.accountId, eff.execution.symbol, eff.fill;
    FilledRowsFine(db, env, eff);
    RowsOfUpdate(db.positions, a, s, StoredPosition(c, f.position), a);
    DriftOfTrader(c, db, Apply(c, db, eff), a, s, OrderBeing(db, eff), env.quote.value, f);
  }

  lemma DriftOfTrader(c: Column, db: Db, db': Db, a: Id, s: Symbol, o: OrderRow, quote: Quote, f: Fill)
    requires a in db.accounts && RowsFine(c, db) && PositionAt(db, a, s).quantity >= 0
    requires Filling(db.accounts[a], PositionAt(db, a, s), o, quote) == Ok(f)
    requires a in db'.accounts && db'.accounts[a] == StoredAccount(c, f.account)
    requires f.account.initialCash == db.accounts[a].initialCash
    requires RowsOf(db'.positions, a) == RowsOf(db.positions, a)[s := StoredPosition(c, f.position)]
    ensures Within(Drift(db', a), Drift(db, a), Times(HalfStep(c), TradeSteps(c, o, f)))
  {
    StoreOfZero(c);
    StoredFillError(c, db.accounts[a], PositionAt(db, a, s), o, quote, f);
    TradeMovesDrift(db, db', a, s, StoredPosition(c, f.position));
  }

  lemma TradeMovesDrift(db: Db, db': Db, a: Id, s: Symbol, p': PositionRow)
    requires a in db.accounts && a in db'.accounts && db.accounts[a].initialCash == db'.accounts[a].initialCash
    requires RowsOf(db'.positions, a) == RowsOf(db.positions, a)[s := p']
    ensures Drift(db', a) - Drift(db, a) == Books(db'.accounts[a], p') - Books(db.accounts[a], PositionAt(db, a, s))
  {
    var rows := RowsOf(db.positions, a);
    assert s in rows <==> (a, s) in db.positions;
    TotalAfterUpdate(rows, s, p');
    StakeOfNothing(s);
  }

  lemma DriftStaysBounded(c: Column, db: Db, env: Env, eff: Effect, gridOnly: bool)
    requires DriftBounded(c, db, gridOnly) && RowsFine(c, db) && OrdersFine(db) && LifeCycle(db) && SharesConserved(db)
    requires Sound(db, env, eff) && Admits(c, db, eff) && (gridOnly ==> TradeFits(c, eff))
    ensures DriftBounded(c, Apply(c, db, eff), gridOnly)
  {
    if eff.Opened? {
      NewAccountHasNoTrades(c, db, eff.a);
      DriftAfterOpening(c, db, eff, gridOnly);
    } else if eff.Traded? {
      RowsStayFine(c, db, env, eff);
      SharesStayConserved(c, db, env, eff);
      DriftBoundedAfterTrade(c, db, env, eff, gridOnly);
    } else {
      hide Drift, DriftBound;
    }
  }

  lemma DriftAfterOpening(c: Column, db: Db, eff: Effect, gridOnly: bool)
    requires DriftBounded(c, db, gridOnly) && eff.Opened? && eff.a !in db.accounts
    requires eff.opening.cash == eff.opening.initialCash
    requires HeldAfterBuys(db.executions, eff.a) == 0 && TradesOf(db.executions, eff.a) == 0
    requires Sums.Sum(Stakes(RowsOf(db.positions, eff.a))) == 0.0
    ensures DriftBounded(c, Apply(c, db, eff), gridOnly)
  {
    var db' := Apply(c, db, eff);
    assert Drift(db', eff.a) == 0.0 && DriftBound(c, db'.executions, eff.a, gridOnly) == 0.0;
    forall a | a in db'.accounts && a != eff.a ensures Drift(db', a) == Drift(db, a) && a in db.accounts {}
    hide Drift, DriftBound;
  }

  lemma DriftBoundedAfterTrade(c: Column, db: Db, env: Env, eff: Effect, gridOnly: bool)
    requires DriftBounded(c, db, gridOnly) && RowsFine(c, db) && RowsFine(c, Apply(c, db, eff))
    requires SharesConserved(Apply(c, db, eff))
    requires eff.Traded? && Sound(db, env, eff) && Admits(c, db, eff) && (gridOnly ==> TradeFits(c, eff))
    ensures DriftBounded(c, Apply(c, db, eff), gridOnly)
  {
    hide Drift, DriftBound, Filling;
    forall a | a in db.accounts
      ensures Within(Drift(Apply(c, db, eff), a), 0.0, DriftBound(c, Apply(c, db, eff).executions, a, gridOnly))
    {
      DriftBoundedForTrader(c, db, env, eff, a, gridOnly);
    }
  }

  lemma DriftBoundedForTrader(c: Column, db: Db, env: Env, eff: Effect, a: Id, gridOnly: bool)
    requires RowsFine(c, db) && RowsFine(c, Apply(c, db, eff)) && SharesConserved(Apply(c, db, eff)) && a in db.accounts
    requires eff.Traded? && Sound(db, env, eff) && Admits(c, db, eff) && (gridOnly ==> TradeFits(c, eff))
    requires Within(Drift(db, a), 0.0, DriftBound(c, db.executions, a, gridOnly))
    ensures Within(Drift(Apply(c, db, eff), a), 0.0, DriftBound(c, Apply(c, db, eff).executions, a, gridOnly))
  {
    BoundAfterTrade(c, db, env, eff, a, gridOnly);
    if a == eff.execution.accountId {
      DriftAfterTrade(c, db, env, eff);
    } else {
      DriftOfOthers(c, db, eff, a);
    }
  }

  lemma NewAccountHasNoTrades(c: Column, db: Db, a: Id)
    requires OrdersFine(db) && LifeCycle(db) && RowsFine(c, db) && a !in db.accounts
    ensures HeldAfterBuys(db.executions, a) == 0 && TradesOf(db.executions, a) == 0
    ensures Sums.Sum(Stakes(RowsOf(db.positions, a))) == 0.0
  {
    forall i | 0 <= i < |db.executions| ensures db.executions[i].accountId != a {
      assert FullFill(db, db.executions[i]);
    }
    NoTradesNoBound(db.executions, a);
    assert RowsOf(db.positions, a) == map[];
  }

  lemma {:induction false} NoTradesNoBound(log: seq<Execution>, a: Id)
    requires forall i :: 0 <= i < |log| ==> log[i].accountId != a
    ensures HeldAfterBuys(log, a) == 0 && TradesOf(log, a) == 0
  {
    if log != [] {
      NoTradesNoBound(log[..|log| - 1], a);
    }
  }

  lemma BoundAfterTrade(c: Column, db: Db, env: Env, eff: Effect, a: Id, gridOnly: bool)
    requires eff.Traded? && Sound(db, env, eff) && (gridOnly ==> TradeFits(c, eff))
    requires SharesConserved(Apply(c, db, eff)) && PositionAt(Apply(c, db, eff), a, eff.execution.symbol).quantity >= 0
    ensures var before := DriftBound(c, db.executions, a, gridOnly);
            var after := DriftBound(c, Apply(c, db, eff).executions, a, gridOnly);
            if a == eff.execution.accountId
            then before + Times(HalfStep(c), TradeSteps(c, OrderBeing(db, eff), eff.fill)) <= after
            else before == after
  {
    hide Times, Store;
    var e, log := StoredExecution(c, eff.execution), db.executions;
    assert Apply(c, db, eff).executions == log + [e] && (log + [e])[..|log|] == log;
    if a == e.accountId {
      var n := HeldAfterBuys(log, a) + if gridOnly then 0 else 2 * TradesOf(log, a);
      var steps := TradeSteps(c, OrderBeing(db, eff), eff.fill);
      var m := HeldAfterBuys(log + [e], a) + if gridOnly then 0 else 2 * TradesOf(log + [e], a);
      assert PositionAt(Apply(c, db, eff), a, e.symbol).quantity == NetShares(log + [e], a, e.symbol);
      assert n + steps <= m;
      TimesSplit(HalfStep(c), n, steps);
      TimesSplit(HalfStep(c), n + steps, m - n - steps);
      TimesPositive(HalfStep(c), m - n - steps);
    }
  }

  // ------------------------------------------------------------ every run

  /** Everything that does not depend on how many decimals prices have. */
  ghost predicate Ledger(c: Column, db: Db) {
    && RowsFine(c, db) && OrdersFine(db) && LifeCycle(db) && LimitsOnGrid(c, db)
    && FillsReplay(db) && SharesConserved(db) && DriftBounded(c, db, false)
  }

  /** What holds besides when prices fit the columns. */
  ghost predicate GridLedger(c: Column, db: Db) {
    PositionsReplay(c, db) && CashReplays(c, db) && DriftBounded(c, db, true)
  }

  /** A committed trade is made at a price that fits; whatever else is quoted or refused. */
  predicate RequestFits(c: Column, db: Db, req: Request, env: Env) {
    Run(c, db, req, env).Some? ==> TradeFits(c, EffectOf(db, req, env).value)
  }

  predicate TradesFit(c: Column, work: seq<(Request, Env)>) {
    forall i :: 0 <= i < |work| ==> RequestFits(c, Serial(c, EMPTY, work[..i]), work[i].0, work[i].1)
  }

  lemma FrontFits(c: Column, work: seq<(Request, Env)>, n: nat)
    requires TradesFit(c, work) && n <= |work|
    ensures TradesFit(c, work[..n])
  {
    forall i | 0 <= i < n
      ensures RequestFits(c, Serial(c, EMPTY, work[..n][..i]), work[..n][i].0, work[..n][i].1)
    {
      assert work[..n][..i] == work[..i];
      assert RequestFits(c, Serial(c, EMPTY, work[..i]), work[i].0, work[i].1);
    }
  }

  lemma OneTransaction(c: Column, db: Db, req: Request, env: Env)
    requires Ledger(c, db)
    ensures Ledger(c, After(c, db, req, env))
  {
    if Run(c, db, req, env).Some? {
      var eff := EffectOf(db, req, env).value;
      EffectsAreSound(db, req, env);
      RowsStayFine(c, db, env, eff);
      OrdersStayFine(c, db, env, eff);
      LifeCycleStays(c, db, env, eff);
      FillsReplayStays(c, db, env, eff);
      SharesStayConserved(c, db, env, eff);
      DriftStaysBounded(c, db, env, eff, false);
    }
  }

  lemma OneGridTransaction(c: Column, db: Db, req: Request, env: Env)
    requires Ledger(c, db) && GridLedger(c, db) && RequestFits(c, db, req, env)
    ensures GridLedger(c, After(c, db, req, env))
  {
    if Run(c, db, req, env).Some? {
      var eff := EffectOf(db, req, env).value;
      EffectsAreSound(db, req, env);
      PositionsReplayStays(c, db, env, eff);
      CashReplayStays(c, db, env, eff);
      DriftStaysBounded(c, db, env, eff, true);
    }
  }

  /** After any run, refused and rolled-back transactions included: balances and holdings
      are non-negative, every order is PENDING, CANCELLED, or FILLED by exactly one
      full-size execution within its limit, shares are conserved, and value drifts from
      the initial cash by rounding only. */
  lemma {:induction false} EveryRun(c: Column, work: seq<(Request, Env)>)
    ensures Ledger(c, Serial(c, EMPTY, work))
  {
    if work == [] {
    } else {
      var n := |work| - 1;
      EveryRun(c, work[..n]);
      OneTransaction(c, Serial(c, EMPTY, work[..n]), work[n].0, work[n].1);
    }
  }

  /** When traded prices fit the columns, cash and positions are a replay of the execution
      log, and the drift bound is half a step per share held after each buy. */
  lemma {:induction false} EveryGridRun(c: Column, work: seq<(Request, Env)>)
    requires TradesFit(c, work)
    ensures GridLedger(c, Serial(c, EMPTY, work))
  {
    if work == [] {
    } else {
      var n := |work| - 1;
      FrontFits(c, work, n);
      EveryGridRun(c, work[..n]);
      EveryRun(c, work[..n]);
      OneGridTransaction(c, Serial(c, EMPTY, work[..n]), work[n].0, work[n].1);
    }
  }

  /** History is append-only: logged executions, settled orders and every order's account
      survive whatever transaction comes next. */
  lemma HistoryStays(c: Column, db: Db, req: Request, env: Env)
    requires SymbolsAgree(db)
    ensures var db' := After(c, db, req, env);
            && db.executions <= db'.executions
            && forall o :: o in db.orders ==>
                 o in db'.orders && db'.orders[o].accountId == db.orders[o].accountId
                 && (db.orders[o].status in {Filled, Cancelled} ==> db'.orders[o] == db.orders[o])
  {
    if Run(c, db, req, env).Some? {
      EffectsAreSound(db, req, env);
      hide EffectOf, Filling, Store;
    }
  }

  // ------------------------------------------------------------ exactly which prices replay

  /** What a committed trade is made at: the ask for a purchase, the bid for a sale. */
  lemma TradePriceIsQuoted(c: Column, work: seq<(Request, Env)>, i: nat)
    requires i < |work|
    ensures var db, req, env := Serial(c, EMPTY, work[..i]), work[i].0, work[i].1;
            Run(c, db, req, env).Some? ==>
              var eff := EffectOf(db, req, env).value;
              && Admits(c, db, eff)
              && (eff.Traded? ==>
                    && env.quote.Some?
                    && eff.execution.price ==
                       if eff.execution.side == Buy then env.quote.value.ask else env.quote.value.bid)
  {
    hide Serial, Store, OnGrid, Times, Bought, Sold, EffectOf, LifeCycle, DriftBounded, SharesConserved, FillsReplay;
    var db, req, env := Serial(c, EMPTY, work[..i]), work[i].0, work[i].1;
    EveryRun(c, work[..i]);
    if Run(c, db, req, env).Some? {
      EffectsAreSound(db, req, env);
    }
  }

  predicate QuotesAre(work: seq<(Request, Env)>, p: real) {
    forall i :: 0 <= i < |work| ==>
      work[i].1.quote.Some? ==> work[i].1.quote.value.bid == p && work[i].1.quote.value.ask == p
  }

  ghost predicate Replays(c: Column, db: Db) {
    PositionsReplay(c, db) && CashReplays(c, db)
  }

  /** The log explains every run at price p exactly when p fits the columns, or is so small
      that the tables refuse to record it. */
  lemma ReplaysIffPriceFits(c: Column, p: real)
    requires p > 0.0
    ensures (forall work :: QuotesAre(work, p) ==> Replays(c, Serial(c, EMPTY, work))) <==>
            OnGrid(c, p) || Store(c, p) == 0.0
  {
    hide Serial, Store, OnGrid, Replays, QuotesAre;
    if OnGrid(c, p) || Store(c, p) == 0.0 {
      forall work | QuotesAre(work, p) ensures Replays(c, Serial(c, EMPTY, work)) {
        FittingPriceReplays(c, p, work);
      }
    } else {
      var work := UnfitPriceBreaksReplay(c, p);
    }
  }

  lemma FittingPriceReplays(c: Column, p: real, work: seq<(Request, Env)>)
    requires OnGrid(c, p) || Store(c, p) == 0.0
    requires QuotesAre(work, p)
    ensures Replays(c, Serial(c, EMPTY, work))
  {
    forall i | 0 <= i < |work|
      ensures RequestFits(c, Serial(c, EMPTY, work[..i]), work[i].0, work[i].1)
    {
      TradePriceIsQuoted(c, work, i);
      hide Serial, EffectOf, Store;
    }
    hide Serial, Store, RequestFits, PositionsReplay, CashReplays, DriftBounded;
    EveryGridRun(c, work);
  }

  /** An account with enough cash buys enough shares. */
  lemma UnfitPriceBreaksReplay(c: Column, p: real) returns (work: seq<(Request, Env)>)
    requires p > 0.0 && !OnGrid(c, p) && Store(c, p) != 0.0
    ensures QuotesAre(work, p) && !Replays(c, Serial(c, EMPTY, work))
  {
    var n := OffGridChargeDiffers(c, p);
    var cash := EnoughCash(c, Times(p, n));
    var open := (OpenAccount(1, cash), Env(None, true));
    var buy := (MarketOrder(1, "A", Buy, n, 7), Env(Some(Quote("A", p, p)), true));
    work := [open, buy];
    OneBuy(c, p, n, cash);
    hide Serial, Store, Times, OnGrid, PositionsReplay, ReplayCash;
    var db := Serial(c, EMPTY, work);
    ReplayOfOneBuy(c, cash, Execution(7, 1, "A", Buy, n, Store(c, p)));
    assert !ChargedAlike(c, p, cash, n);
    StoreLandsOnGrid(c, p);
    GridClosedUnderScaling(c, Store(c, p), n);
    GridClosedUnderSum(c, cash, Times(Store(c, p), n));
    StoredOnGrid(c, cash - Times(Store(c, p), n));
  }

  lemma StoredOnGrid(c: Column, x: real)
    requires OnGrid(c, x)
    ensures Store(c, x) == x
  {}

  lemma ReplayOfOneBuy(c: Column, cash: real, e: Execution)
    requires e.accountId == 1 && e.side == Buy
    ensures ReplayCash(c, cash, [e], 1) == Store(c, cash - Times(e.price, e.quantity))
  {
    hide Store, Times;
    assert |[e][..0]| == 0;
  }

  lemma OneBuy(c: Column, p: real, n: nat, cash: real)
    requires n > 0 && p > 0.0 && Store(c, p) != 0.0 && OnGrid(c, cash) && cash > 0.0 && Times(p, n) <= cash
    ensures var work := [(OpenAccount(1, cash), Env(None, true)),
                         (MarketOrder(1, "A", Buy, n, 7), Env(Some(Quote("A", p, p)), true))];
            var db := Serial(c, EMPTY, work);
            && 1 in db.accounts && db.accounts[1] == AccountRow(cash, Store(c, cash - Times(p, n)))
            && db.executions == [Execution(7, 1, "A", Buy, n, Store(c, p))]
  {
    var open := (OpenAccount(1, cash), Env(None, true));
    var buy := (MarketOrder(1, "A", Buy, n, 7), Env(Some(Quote("A", p, p)), true));
    var work := [open, buy];
    assert work[..1] == [open] && work[..1][..0] == [];
    var funded := Db(map[1 := AccountRow(cash, cash)], map[], map[], []);
    hide Store, Times;
    StoredOnGrid(c, cash);
    assert Serial(c, EMPTY, []) == EMPTY;
    assert After(c, EMPTY, open.0, open.1) == funded;
    FirstBuy(c, p, n, cash);
    hide After;
    assert Serial(c, EMPTY, [open]) == funded;
    assert Serial(c, EMPTY, work) == After(c, funded, buy.0, buy.1);
  }

  lemma FirstBuy(c: Column, p: real, n: nat, cash: real)
    requires n > 0 && p > 0.0 && Store(c, p) != 0.0 && cash > 0.0 && Times(p, n) <= cash
    ensures var funded := Db(map[1 := AccountRow(cash, cash)], map[], map[], []);
            var db := After(c, funded, MarketOrder(1, "A", Buy, n, 7), Env(Some(Quote("A", p, p)), true));
            && 1 in db.accounts && db.accounts[1] == AccountRow(cash, Store(c, cash - Times(p, n)))
            && db.executions == [Execution(7, 1, "A", Buy, n, Store(c, p))]
  {
    var funded := Db(map[1 := AccountRow(cash, cash)], map[], map[], []);
    var empty := PositionRow("A", 0, 0.0, 0.0);
    var order := NewOrder(1, "A", Buy, n, None).(status := Pending);
    StoreOfZero(c);
    StoreMonotone(c, 0.0, p);
    StoreMonotone(c, 0.0, cash - Times(p, n));
    BoughtCostPositive(empty, n, p);
    StoreMonotone(c, 0.0, Bought(empty, n, p).averageCost);
    hide Store, Times, Bought;
    var f := Fill(AccountRow(cash, cash - Times(p, n)), Bought(empty, n, p), AsFilled(order, n), n, p);
    assert Filling(AccountRow(cash, cash), empty, order, Quote("A", p, p)) == Ok(f);
    var eff := Traded(7, true, f, Execution(7, 1, "A", Buy, n, p));
    assert EffectOf(funded, MarketOrder(1, "A", Buy, n, 7), Env(Some(Quote("A", p, p)), true)) == Some(eff);
    hide EffectOf;
    assert Admits(c, funded, eff);
  }

  /** A price with a seventh decimal: the balance after buying three shares at 1.0000004
      is not what the logged executions explain. */
  lemma OffGridReplayDiffers() returns (work: seq<(Request, Env)>)
    ensures var db := Serial(Scale6, EMPTY, work);
            1 in db.accounts && db.accounts[1].cash != ReplayCash(Scale6, db.accounts[1].initialCash, db.executions, 1)
  {
    var open := (OpenAccount(1, 10.0), Env(None, true));
    var buy := (MarketOrder(1, "A", Buy, 3, 7), Env(Some(Quote("A", 1.0, 1.0000004)), true));
    work := [open, buy];
    assert work[..1] == [open];
    assert RoundHalfAway(10000000.0) == 10000000;
    var db1 := Serial(Scale6, EMPTY, [open]);
    assert Serial(Scale6, EMPTY, []) == EMPTY;
    assert db1 == After(Scale6, EMPTY, open.0, open.1);
    assert EffectOf(EMPTY, open.0, open.1) == Some(Opened(1, AccountRow(10.0, 10.0)));
    assert db1 == Db(map[1 := AccountRow(10.0, 10.0)], map[], map[], []);
    BuyOffGrid(db1);
    var db2 := Serial(Scale6, EMPTY, work);
    assert db2 == After(Scale6, db1, buy.0, buy.1);
    var e := Execution(7, 1, "A", Buy, 3, 1.0);
    assert |[e][..0]| == 0;
    assert RoundHalfAway(7000000.0) == 7000000;
    assert ReplayCash(Scale6, 10.0, [], 1) == 10.0;
    assert ReplayCash(Scale6, 10.0, [e], 1) == 7.0;
  }

  lemma BuyOffGrid(db: Db)
    requires db == Db(map[1 := AccountRow(10.0, 10.0)], map[], map[], [])
    ensures var db' := After(Scale6, db, MarketOrder(1, "A", Buy, 3, 7), Env(Some(Quote("A", 1.0, 1.0000004)), true));
            && 1 in db'.accounts && db'.accounts[1] == AccountRow(10.0, 6.999999)
            && db'.executions == [Execution(7, 1, "A", Buy, 3, 1.0)]
  {
    var f := OffGridFill();
    hide Times, Filling;
    var eff := Traded(7, true, f, Execution(7, 1, "A", Buy, 3, 1.0000004));
    assert EffectOf(db, MarketOrder(1, "A", Buy, 3, 7), Env(Some(Quote("A", 1.0, 1.0000004)), true)) == Some(eff);
    StoreOffGrid();
    hide EffectOf, Store;
  }

  lemma StoreOffGrid()
    ensures Store(Scale6, 6.9999988) == 6.999999 && Store(Scale6, 1.0000004) == 1.0
  {
    assert RoundHalfAway(1000000.4) == 1000000 && RoundHalfAway(6999998.8) == 6999999;
  }

  lemma OffGridFill() returns (f: Fill)
    ensures f.account == AccountRow(10.0, 6.9999988) && f.position == PositionRow("A", 3, 1.0000004, 0.0)
    ensures f.order == AsFilled(NewOrder(1, "A", Buy, 3, None), 3) && f.quantity == 3 && f.price == 1.0000004
    ensures Filling(AccountRow(10.0, 10.0), PositionRow("A", 0, 0.0, 0.0),
                    NewOrder(1, "A", Buy, 3, None).(status := Pending), Quote("A", 1.0, 1.0000004)) == Ok(f)
  {
    assert Times(1.0000004, 3) == 3.0000012 && Times(0.0, 0) == 0.0;
    assert Bought(PositionRow("A", 0, 0.0, 0.0), 3, 1.0000004) == PositionRow("A", 3, 1.0000004, 0.0);
    hide Times, Bought;
    f := Fill(AccountRow(10.0, 6.9999988), PositionRow("A", 3, 1.0000004, 0.0),
              AsFilled(NewOrder(1, "A", Buy, 3, None), 3), 3, 1.0000004);
  }
}
