/** Valuing an account at market prices: PortfolioCalculator and TradingPortfolioService,
    and the identity that ties their totals to the trading run behind the account. */
module Valuation {
  import opened Basics
  import opened Money
  import opened TradingModels
  import opened TradingLedger
  import opened LedgerInvariants
  import Sums

  type Prices = map<Symbol, real>

  datatype Snapshot = Snapshot(cash: real, marketValue: real, equity: real, unrealizedPnl: real, realizedPnl: real)

  datatype PositionValuation = PositionValuation(
    symbol: Symbol, quantity: int, averageCost: real, markPrice: Option<real>,
    costBasis: real, marketValue: real, realizedPnl: real, unrealizedPnl: real)

  datatype PortfolioSnapshot = PortfolioSnapshot(
    initialCash: real, totals: Snapshot, totalCostBasis: real, positions: seq<PositionValuation>)

  /** Every open position has a positive price. */
  predicate Priced(rows: seq<PositionRow>, prices: Prices) {
    forall i :: 0 <= i < |rows| ==> PricedOne(rows[i], prices)
  }

  predicate PricedOne(p: PositionRow, prices: Prices) {
    p.quantity > 0 ==> p.symbol in prices && prices[p.symbol] > 0.0
  }

  // ------------------------------------------------------------ totals, from their meaning

  function MarketValue(rows: seq<PositionRow>, prices: Prices): real {
    if rows == [] then 0.0
    else
      var p := rows[|rows| - 1];
      MarketValue(rows[..|rows| - 1], prices) +
        if p.quantity > 0 && p.symbol in prices then Times(prices[p.symbol], p.quantity) else 0.0
  }

  function UnrealizedPnl(rows: seq<PositionRow>, prices: Prices): real {
    if rows == [] then 0.0
    else
      var p := rows[|rows| - 1];
      UnrealizedPnl(rows[..|rows| - 1], prices) +
        if p.quantity > 0 && p.symbol in prices then Times(prices[p.symbol] - p.averageCost, p.quantity) else 0.0
  }

  function RealizedPnl(rows: seq<PositionRow>): real {
    if rows == [] then 0.0 else RealizedPnl(rows[..|rows| - 1]) + rows[|rows| - 1].realizedPnl
  }

  function TotalCost(rows: seq<PositionRow>): real {
    if rows == [] then 0.0
    else TotalCost(rows[..|rows| - 1]) + if rows[|rows| - 1].quantity > 0 then CostBasis(rows[|rows| - 1]) else 0.0
  }

  function Total(amounts: seq<real>): real {
    if amounts == [] then 0.0 else Total(amounts[..|amounts| - 1]) + amounts[|amounts| - 1]
  }

  // ------------------------------------------------------------ the two valuation loops

  method Calculate(cash: real, rows: seq<PositionRow>, prices: Prices) returns (r: Result<Snapshot>)
    ensures r.Ok? <==> Priced(rows, prices)
    ensures r.Ok? ==>
              && r.value.cash == cash && r.value.equity == cash + r.value.marketValue
              && r.value.marketValue == MarketValue(rows, prices)
              && r.value.unrealizedPnl == UnrealizedPnl(rows, prices)
              && r.value.realizedPnl == RealizedPnl(rows)
  {
    var market, unrealized, realized := 0.0, 0.0, 0.0;
    for i := 0 to |rows|
      invariant Priced(rows[..i], prices)
      invariant market == MarketValue(rows[..i], prices)
      invariant unrealized == UnrealizedPnl(rows[..i], prices)
      invariant realized == RealizedPnl(rows[..i])
    {
      var p := rows[i];
      assert rows[..i + 1][..i] == rows[..i];
      realized := realized + p.realizedPnl;
      if p.quantity > 0 {
        if p.symbol !in prices || prices[p.symbol] <= 0.0 {
          assert !PricedOne(rows[i], prices);
          return Err(InvalidValue);
        }
        market := market + Times(prices[p.symbol], p.quantity);
        unrealized := unrealized + Times(prices[p.symbol] - p.averageCost, p.quantity);
      }
    }
    assert rows[..|rows|] == rows;
    return Ok(Snapshot(cash, market, cash + market, unrealized, realized));
  }

  function ValueOf(p: PositionRow, prices: Prices): PositionValuation
    requires PricedOne(p, prices)
  {
    if p.quantity <= 0 then
      PositionValuation(p.symbol, p.quantity, p.averageCost, None, 0.0, 0.0, p.realizedPnl, 0.0)
    else
      var mark := prices[p.symbol];
      PositionValuation(p.symbol, p.quantity, p.averageCost, Some(mark), CostBasis(p),
                        Times(mark, p.quantity), p.realizedPnl, Times(mark - p.averageCost, p.quantity))
  }

  /** One row's valuation, in plain arithmetic. */
  lemma ValuedAtMarket(p: PositionRow, prices: Prices)
    requires PricedOne(p, prices)
    ensures ValueOf(p, prices) ==
            if p.quantity <= 0 then
              PositionValuation(p.symbol, p.quantity, p.averageCost, None, 0.0, 0.0, p.realizedPnl, 0.0)
            else
              PositionValuation(p.symbol, p.quantity, p.averageCost, Some(prices[p.symbol]),
                                p.averageCost * p.quantity as real, prices[p.symbol] * p.quantity as real,
                                p.realizedPnl, (prices[p.symbol] - p.averageCost) * p.quantity as real)
  {
    if p.quantity > 0 {
      TimesIsProduct(prices[p.symbol], p.quantity);
      TimesIsProduct(prices[p.symbol] - p.averageCost, p.quantity);
      TimesIsProduct(p.averageCost, p.quantity);
    }
  }

  /** Row by row, these are the summands of the four totals. */
  lemma {:induction false} TotalsOfValues(rows: seq<PositionRow>, prices: Prices, marks: seq<real>, gains: seq<real>,
                                          realized: seq<real>, costs: seq<real>)
    requires |marks| == |gains| == |realized| == |costs| == |rows|
    requires forall i :: 0 <= i < |rows| ==>
               && PricedOne(rows[i], prices)
               && var v := ValueOf(rows[i], prices);
                  marks[i] == v.marketValue && gains[i] == v.unrealizedPnl
                  && realized[i] == v.realizedPnl && costs[i] == v.costBasis
    ensures MarketValue(rows, prices) == Total(marks) && UnrealizedPnl(rows, prices) == Total(gains)
    ensures RealizedPnl(rows) == Total(realized) && TotalCost(rows) == Total(costs)
  {
    hide Times, CostBasis;
    if rows != [] {
      var n := |rows| - 1;
      TotalsOfValues(rows[..n], prices, marks[..n], gains[..n], realized[..n], costs[..n]);
      assert PricedOne(rows[n], prices);
    }
  }

  /** A snapshot's valuations: each open holding at its price. */
  ghost predicate AtMarket(rows: seq<PositionRow>, prices: Prices, values: seq<PositionValuation>) {
    |values| == |rows| && forall i :: 0 <= i < |rows| ==>
      var p := rows[i];
      && (p.quantity > 0 ==> p.symbol in prices)
      && values[i] ==
         if p.quantity <= 0 then
           PositionValuation(p.symbol, p.quantity, p.averageCost, None, 0.0, 0.0, p.realizedPnl, 0.0)
         else
           PositionValuation(p.symbol, p.quantity, p.averageCost, Some(prices[p.symbol]),
                             p.averageCost * p.quantity as real, prices[p.symbol] * p.quantity as real,
                             p.realizedPnl, (prices[p.symbol] - p.averageCost) * p.quantity as real)
  }

  /** The totals are the sums of the valuations' own fields. */
  ghost predicate AddsUp(totals: Snapshot, cost: real, vs: seq<PositionValuation>) {
    && totals.marketValue == Total(seq(|vs|, i requires 0 <= i < |vs| => vs[i].marketValue))
    && totals.unrealizedPnl == Total(seq(|vs|, i requires 0 <= i < |vs| => vs[i].unrealizedPnl))
    && totals.realizedPnl == Total(seq(|vs|, i requires 0 <= i < |vs| => vs[i].realizedPnl))
    && cost == Total(seq(|vs|, i requires 0 <= i < |vs| => vs[i].costBasis))
  }

  lemma LoopsAgree(rows: seq<PositionRow>, prices: Prices, totals: Snapshot, cost: real, vs: seq<PositionValuation>)
    requires Priced(rows, prices) && |vs| == |rows|
    requires forall i :: 0 <= i < |rows| ==> PricedOne(rows[i], prices) && vs[i] == ValueOf(rows[i], prices)
    requires totals.marketValue == MarketValue(rows, prices) && totals.unrealizedPnl == UnrealizedPnl(rows, prices)
    requires totals.realizedPnl == RealizedPnl(rows) && cost == TotalCost(rows)
    ensures AtMarket(rows, prices, vs) && AddsUp(totals, cost, vs)
  {
    hide MarketValue, UnrealizedPnl, RealizedPnl, TotalCost, ValueOf, Total, Times;
    forall i | 0 <= i < |rows| ensures rows[i].quantity > 0 ==> rows[i].symbol in prices {
      ValuedAtMarket(rows[i], prices);
    }
    assert AtMarket(rows, prices, vs) by {
      forall i | 0 <= i < |rows| { ValuedAtMarket(rows[i], prices); }
    }
    TotalsOfValues(rows, prices, seq(|vs|, i requires 0 <= i < |vs| => vs[i].marketValue),
                   seq(|vs|, i requires 0 <= i < |vs| => vs[i].unrealizedPnl),
                   seq(|vs|, i requires 0 <= i < |vs| => vs[i].realizedPnl),
                   seq(|vs|, i requires 0 <= i < |vs| => vs[i].costBasis));
  }

  /** So what Calculate returns adds up to the rows' own values at market: an open holding is
      worth its price times its shares and has gained the price above its cost, times its
      shares; a closed one counts only with the gain it has realized. */
  lemma TotalsAreSums(rows: seq<PositionRow>, prices: Prices, cash: real, vs: seq<PositionValuation>)
    requires Priced(rows, prices) && AtMarket(rows, prices, vs)
    ensures var market := MarketValue(rows, prices);
            AddsUp(Snapshot(cash, market, cash + market, UnrealizedPnl(rows, prices), RealizedPnl(rows)),
                   TotalCost(rows), vs)
  {
    hide MarketValue, UnrealizedPnl, RealizedPnl, TotalCost, ValueOf, AddsUp;
    forall i | 0 <= i < |rows| ensures PricedOne(rows[i], prices) && vs[i] == ValueOf(rows[i], prices) {
      ValuedAtMarket(rows[i], prices);
    }
    var market := MarketValue(rows, prices);
    LoopsAgree(rows, prices, Snapshot(cash, market, cash + market, UnrealizedPnl(rows, prices), RealizedPnl(rows)),
               TotalCost(rows), vs);
  }

  method ValidateMarketPrices(symbols: seq<Symbol>, prices: Prices) returns (r: Outcome)
    ensures r.Pass? <==> forall s :: s in symbols ==> s in prices && prices[s] > 0.0
  {
    for i := 0 to |symbols|
      invariant forall j :: 0 <= j < i ==> symbols[j] in prices && prices[symbols[j]] > 0.0
    {
      if symbols[i] !in prices || prices[symbols[i]] <= 0.0 {
        return Fail(Unavailable);
      }
    }
    return Pass;
  }

  /** The symbols of the open positions, the only ones prices are asked for. */
  method OpenSymbols(rows: seq<PositionRow>) returns (open: seq<Symbol>)
    ensures forall s :: s in open <==> exists i :: 0 <= i < |rows| && rows[i].quantity > 0 && rows[i].symbol == s
  {
    open := [];
    for i := 0 to |rows|
      invariant forall s :: s in open <==> exists j :: 0 <= j < i && rows[j].quantity > 0 && rows[j].symbol == s
    {
      if rows[i].quantity > 0 {
        open := open + [rows[i].symbol];
      }
    }
  }

  method ValuePositions(rows: seq<PositionRow>, prices: Prices) returns (values: seq<PositionValuation>, cost: real)
    requires Priced(rows, prices)
    ensures |values| == |rows| && forall i :: 0 <= i < |rows| ==> values[i] == ValueOf(rows[i], prices)
    ensures cost == TotalCost(rows)
  {
    values, cost := [], 0.0;
    for i := 0 to |rows|
      invariant |values| == i && forall j :: 0 <= j < i ==> values[j] == ValueOf(rows[j], prices)
      invariant cost == TotalCost(rows[..i])
    {
      assert rows[..i + 1][..i] == rows[..i];
      assert PricedOne(rows[i], prices);
      values := values + [ValueOf(rows[i], prices)];
      cost := cost + values[i].costBasis;
    }
    assert rows[..|rows|] == rows;
  }

  /** What a price source that may raise offers. */
  function Offered(source: Option<Prices>): Prices {
    if source.Some? then source.value else map[]
  }

  /** get_snapshot: the totals and the per-position valuations come from separate loops
      over the same rows; no price source is consulted when everything is closed.
      Every open holding is valued at its market price, and the totals are the sums of the
      valuations: the two loops agree.  `account` is None for an unknown user, `source` for a
      price source that raises. */
  method GetSnapshot(account: Option<AccountRow>, rows: seq<PositionRow>, source: Option<Prices>)
    returns (r: Result<PortfolioSnapshot>)
    ensures r.Ok? <==> account.Some? && Priced(rows, Offered(source))
    ensures r.Err? ==> r.error == if account.None? then NotFound else Unavailable
    ensures r.Ok? ==>
              var prices, cash := Offered(source), account.value.cash;
              && r.value.initialCash == account.value.initialCash
              && r.value.totals == Snapshot(cash, MarketValue(rows, prices), cash + MarketValue(rows, prices),
                                            UnrealizedPnl(rows, prices), RealizedPnl(rows))
              && r.value.totalCostBasis == TotalCost(rows)
    ensures r.Ok? ==>
              && AtMarket(rows, Offered(source), r.value.positions)
              && AddsUp(r.value.totals, r.value.totalCostBasis, r.value.positions)
  {
    if account.None? {
      return Err(NotFound);
    }
    var open := OpenSymbols(rows);
    OpenIsPriced(rows, open, Offered(source));
    var prices := map[];
    if open != [] {
      if source.None? {
        assert open[0] in open;
        return Err(Unavailable);
      }
      prices := source.value;
    }
    var valid := ValidateMarketPrices(open, prices);
    if valid.Fail? {
      return Err(Unavailable);
    }
    PricesOfOpen(rows, open, Offered(source), prices);
    var totals := Calculate(account.value.cash, rows, prices);
    var values, cost := ValuePositions(rows, prices);
    LoopsAgree(rows, Offered(source), totals.value, cost, values);
    return Ok(PortfolioSnapshot(account.value.initialCash, totals.value, cost, values));
  }

  lemma OpenIsPriced(rows: seq<PositionRow>, open: seq<Symbol>, prices: Prices)
    requires forall s :: s in open <==> exists i :: 0 <= i < |rows| && rows[i].quantity > 0 && rows[i].symbol == s
    ensures Priced(rows, prices) <==> forall s :: s in open ==> s in prices && prices[s] > 0.0
  {
    if Priced(rows, prices) {
      forall s | s in open ensures s in prices && prices[s] > 0.0 {
        var i :| 0 <= i < |rows| && rows[i].quantity > 0 && rows[i].symbol == s;
        assert PricedOne(rows[i], prices);
      }
    }
  }

  lemma PricesOfOpen(rows: seq<PositionRow>, open: seq<Symbol>, source: Prices, prices: Prices)
    requires forall s :: s in open <==> exists i :: 0 <= i < |rows| && rows[i].quantity > 0 && rows[i].symbol == s
    requires prices == (if open == [] then map[] else source) && Priced(rows, source)
    ensures Priced(rows, prices)
    ensures MarketValue(rows, prices) == MarketValue(rows, source)
    ensures UnrealizedPnl(rows, prices) == UnrealizedPnl(rows, source)
    ensures forall i :: 0 <= i < |rows| ==>
              PricedOne(rows[i], prices) && ValueOf(rows[i], prices) == ValueOf(rows[i], source)
  {
    if open == [] {
      forall i | 0 <= i < |rows| ensures rows[i].quantity <= 0 {
        assert rows[i].symbol !in open;
      }
      AllClosed(rows, source);
      AllClosed(rows, prices);
    }
  }

  lemma {:induction false} AllClosed(rows: seq<PositionRow>, prices: Prices)
    requires forall i :: 0 <= i < |rows| ==> rows[i].quantity <= 0
    ensures MarketValue(rows, prices) == 0.0 == UnrealizedPnl(rows, prices)
  {
    if rows != [] {
      AllClosed(rows[..|rows| - 1], prices);
    }
  }

  // ------------------------------------------------------------ identities

  /** What the shares cost plus the paper gain on them is what they are worth. */
  lemma {:induction false} CostPlusGainIsValue(rows: seq<PositionRow>, prices: Prices)
    requires Priced(rows, prices)
    ensures TotalCost(rows) + UnrealizedPnl(rows, prices) == MarketValue(rows, prices)
  {
    if rows != [] {
      var n := |rows| - 1;
      assert PricedOne(rows[n], prices);
      CostPlusGainIsValue(rows[..n], prices);
      if rows[n].quantity > 0 {
        TimesSum(prices[rows[n].symbol], rows[n].averageCost, rows[n].quantity);
      }
    }
  }

  /** rows is a listing of account a's positions, each exactly once. */
  ghost predicate ListsAccount(db: Db, a: Id, rows: seq<PositionRow>) {
    exists keys: seq<Symbol> :: ListedBy(db, a, rows, keys)
  }

  predicate ListedBy(db: Db, a: Id, rows: seq<PositionRow>, keys: seq<Symbol>) {
    var table := RowsOf(db.positions, a);
    && Sums.Lists(keys, table.Keys) && |rows| == |keys|
    && forall i :: 0 <= i < |keys| ==> rows[i] == table[keys[i]]
  }

  lemma {:induction false} StakesAlong(table: map<Symbol, PositionRow>, rows: seq<PositionRow>, keys: seq<Symbol>)
    requires |rows| == |keys| && forall i :: 0 <= i < |keys| ==> keys[i] in table && rows[i] == table[keys[i]]
    requires forall s :: s in table && table[s].quantity <= 0 ==> CostBasis(table[s]) == 0.0
    ensures Sums.SumAlong(Stakes(table), keys) == TotalCost(rows) - RealizedPnl(rows)
  {
    if rows != [] {
      StakesAlong(table, rows[..|rows| - 1], keys[..|keys| - 1]);
    }
  }

  lemma ClosedCostsNothing(p: PositionRow)
    requires p.quantity == 0
    ensures CostBasis(p) == 0.0
  {
  }

  lemma BooksOfListing(c: Column, db: Db, a: Id, rows: seq<PositionRow>)
    requires RowsFine(c, db) && a in db.accounts && ListsAccount(db, a, rows)
    ensures db.accounts[a].cash + TotalCost(rows) - RealizedPnl(rows) - db.accounts[a].initialCash == Drift(db, a)
  {
    var keys :| ListedBy(db, a, rows, keys);
    var table := RowsOf(db.positions, a);
    forall s | s in table && table[s].quantity <= 0 ensures CostBasis(table[s]) == 0.0 {
      assert (a, s) in db.positions;
      ClosedCostsNothing(table[s]);
    }
    StakesAlong(table, rows, keys);
    Sums.SumOfListing(Stakes(table), keys);
  }

  /** Equity above the initial cash is realized plus unrealized gain plus the drift. */
  lemma EquityOfBooks(c: Column, db: Db, a: Id, rows: seq<PositionRow>, prices: Prices)
    requires RowsFine(c, db) && a in db.accounts && ListsAccount(db, a, rows) && Priced(rows, prices)
    ensures db.accounts[a].cash + MarketValue(rows, prices) - db.accounts[a].initialCash
              == RealizedPnl(rows) + UnrealizedPnl(rows, prices) + Drift(db, a)
  {
    CostPlusGainIsValue(rows, prices);
    BooksOfListing(c, db, a, rows);
  }

  function Equity(db: Db, a: Id, rows: seq<PositionRow>, prices: Prices): real
    requires a in db.accounts
  {
    db.accounts[a].cash + MarketValue(rows, prices)
  }

  /** After any serial run, in whatever order the positions are listed and at whatever
      prices: gains plus initial cash explain equity, up to the rounding bound. */
  lemma EquityIdentity(c: Column, work: seq<(Request, Env)>, a: Id, rows: seq<PositionRow>, prices: Prices)
    requires a in Serial(c, EMPTY, work).accounts && ListsAccount(Serial(c, EMPTY, work), a, rows)
    requires Priced(rows, prices)
    ensures var db := Serial(c, EMPTY, work);
            Within(Equity(db, a, rows, prices) - db.accounts[a].initialCash,
                   RealizedPnl(rows) + UnrealizedPnl(rows, prices),
                   DriftBound(c, db.executions, a, false))
    ensures var db := Serial(c, EMPTY, work);
            TradesFit(c, work) ==>
              Within(Equity(db, a, rows, prices) - db.accounts[a].initialCash,
                     RealizedPnl(rows) + UnrealizedPnl(rows, prices),
                     DriftBound(c, db.executions, a, true))
  {
    hide DriftBound, Drift, Serial, ListsAccount, Priced, MarketValue, UnrealizedPnl, RealizedPnl, TradesFit;
    var db := Serial(c, EMPTY, work);
    EveryRun(c, work);
    if TradesFit(c, work) {
      EveryGridRun(c, work);
    }
    EquityOfBooks(c, db, a, rows, prices);
  }

  lemma NoStepNoBound(log: seq<Execution>, a: Id)
    ensures DriftBound(Exact, log, a, false) == 0.0
  {
    TimesIsProduct(0.0, HeldAfterBuys(log, a) + 2 * TradesOf(log, a));
  }

  /** In exact arithmetic the identity is an equation. */
  lemma ExactEquityIdentity(work: seq<(Request, Env)>, a: Id, rows: seq<PositionRow>, prices: Prices)
    requires a in Serial(Exact, EMPTY, work).accounts && ListsAccount(Serial(Exact, EMPTY, work), a, rows)
    requires Priced(rows, prices)
    ensures var db := Serial(Exact, EMPTY, work);
            Equity(db, a, rows, prices) - db.accounts[a].initialCash == RealizedPnl(rows) + UnrealizedPnl(rows, prices)
  {
    hide DriftBound, Serial, ListsAccount, Priced, MarketValue, UnrealizedPnl, RealizedPnl, TradesFit;
    EquityIdentity(Exact, work, a, rows, prices);
    NoStepNoBound(Serial(Exact, EMPTY, work).executions, a);
  }
}
