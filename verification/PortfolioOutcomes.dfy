/** What each portfolio request comes to, column by column: exactly when it succeeds, the
    rows and the event it leaves, and the error it reports otherwise. */
module PortfolioOutcomes {
  import opened Basics
  import opened Money
  import opened PortfolioEvents

  /** The table write, the outbox insert and the commit all go through. */
  predicate AllGood(env: Env) {
    env.tableWrite == Done && env.outboxInsert && env.commit
  }

  predicate GoodPosition(symbol: Symbol, quantity: real, averageCost: real) {
    1 <= |symbol| <= 32 && quantity > 0.0 && averageCost > 0.0
  }

  /** A portfolio loads when its own texts and all its positions are well-formed. */
  lemma LoadsIff(t: Tables, p: Id)
    ensures PortfolioLoads(t, p) <==>
            && p in t.portfolios
            && 1 <= |t.portfolios[p].userId| <= 128 && 1 <= |t.portfolios[p].name| <= 100
            && forall i :: i in t.positions && t.positions[i].portfolio == p ==>
                 GoodPosition(t.positions[i].symbol, t.positions[i].quantity, t.positions[i].averageCost)
  {}

  predicate InstrumentTaken(t: Tables, p: Id, market: string, symbol: Symbol) {
    exists i :: i in t.positions && t.positions[i].portfolio == p
                && t.positions[i].market == market && t.positions[i].symbol == symbol
  }

  /** A portfolio is created exactly with well-formed texts under a free key. */
  lemma CreateOutcome(c: Column, db: Db, p: Id, row: PortfolioRow, env: Env)
    ensures var out := Run(c, db, CreatePortfolio(p, row), env);
            var good := 1 <= |row.userId| <= 128 && 1 <= |row.name| <= 100;
            && (out.Ok? <==> good && p !in db.tables.portfolios && AllGood(env))
            && (out.Ok? ==>
                  && out.value.tables == Tables(db.tables.portfolios[p := row], db.tables.positions)
                  && out.value.outbox == db.outbox + [PortfolioCreated(p, row)])
            && (out.Err? ==>
                  out.error == if !good then InvalidValue
                               else if p in db.tables.portfolios then Duplicate else Unavailable)
  {}

  /** A position is added exactly with well-formed values, to a portfolio that loads and
      does not hold the instrument yet.  Its row holds the values given, each rounded in its
      own column; the event tells them as given. */
  lemma AddOutcome(c: Column, db: Db, i: Id, row: PositionRow, env: Env)
    ensures var t, out := db.tables, Run(c, db, AddPosition(i, row), env);
            var taken := InstrumentTaken(t, row.portfolio, row.market, row.symbol);
            var good := GoodPosition(row.symbol, row.quantity, row.averageCost);
            && (out.Ok? <==> PortfolioLoads(t, row.portfolio) && !taken && good && i !in t.positions && AllGood(env))
            && (out.Ok? ==>
                  && out.value.tables.portfolios == t.portfolios
                  && out.value.tables.positions ==
                     t.positions[i := PositionRow(row.portfolio, row.symbol, row.market,
                                                  Store(c, row.quantity), Store(c, row.averageCost))]
                  && out.value.outbox == db.outbox + [PositionAdded(i, row)])
            && (out.Err? ==>
                  out.error == if row.portfolio !in t.portfolios then NotFound
                               else if !PortfolioLoads(t, row.portfolio) then InvalidValue
                               else if taken then Duplicate
                               else if !good then InvalidValue
                               else if i in t.positions || env.tableWrite == Taken then Duplicate
                               else Unavailable)
  {
    hide Store;
    var taken := InstrumentTaken(db.tables, row.portfolio, row.market, row.symbol);
    assert taken <==> Held(db.tables, row) by {
      if Held(db.tables, row) {
        var j :| j in db.tables.positions && SameInstrument(db.tables.positions[j], row);
      }
      if taken {
        var j :| j in db.tables.positions && db.tables.positions[j].portfolio == row.portfolio
                 && db.tables.positions[j].market == row.market && db.tables.positions[j].symbol == row.symbol;
        assert SameInstrument(db.tables.positions[j], row);
      }
    }
  }

  /** The value given, or the one the row has. */
  function Given(value: Option<real>, current: real): real {
    match value
    case Some(x) => x
    case None => current
  }

  /** Values are updated exactly when at least one is given, the portfolio loads and has the
      position, and the new values are positive; a value not given is kept, and everything
      else of the row too. */
  lemma UpdateOutcome(c: Column, db: Db, p: Id, i: Id, quantity: Option<real>, averageCost: Option<real>, env: Env)
    ensures var t, out := db.tables, Run(c, db, UpdatePosition(p, i, quantity, averageCost), env);
            var found := i in t.positions && t.positions[i].portfolio == p;
            && (out.Ok? <==>
                  && (quantity.Some? || averageCost.Some?) && PortfolioLoads(t, p) && found
                  && Given(quantity, 1.0) > 0.0 && Given(averageCost, 1.0) > 0.0 && AllGood(env))
            && (out.Ok? ==>
                  var r := t.positions[i];
                  var q, a := Given(quantity, r.quantity), Given(averageCost, r.averageCost);
                  && out.value.tables.portfolios == t.portfolios
                  && out.value.tables.positions ==
                     t.positions[i := PositionRow(p, r.symbol, r.market, Store(c, q), Store(c, a))]
                  && out.value.outbox == db.outbox + [PositionUpdated(i, p, r.symbol, r.market, r.quantity, q,
                                                                      r.averageCost, a)])
            && (out.Err? ==>
                  out.error == if quantity.None? && averageCost.None? then InvalidValue
                               else if p !in t.portfolios then NotFound
                               else if !PortfolioLoads(t, p) then InvalidValue
                               else if !found then NotFound
                               else if Given(quantity, 1.0) <= 0.0 || Given(averageCost, 1.0) <= 0.0 then InvalidValue
                               else Unavailable)
  {
    hide Store;
  }

  /** A position is deleted exactly when the portfolio loads and has it; exactly that row
      goes, and the event tells it as it stood. */
  lemma DeleteOutcome(c: Column, db: Db, p: Id, i: Id, env: Env)
    ensures var t, out := db.tables, Run(c, db, DeletePosition(p, i), env);
            var found := i in t.positions && t.positions[i].portfolio == p;
            && (out.Ok? <==> PortfolioLoads(t, p) && found && AllGood(env))
            && (out.Ok? ==>
                  && out.value.tables.portfolios == t.portfolios
                  && i !in out.value.tables.positions
                  && (forall j :: j in t.positions && j != i ==>
                        j in out.value.tables.positions && out.value.tables.positions[j] == t.positions[j])
                  && out.value.tables.positions.Keys <= t.positions.Keys
                  && out.value.outbox == db.outbox + [PositionRemoved(i, t.positions[i])])
            && (out.Err? ==>
                  out.error == if p !in t.portfolios then NotFound
                               else if !PortfolioLoads(t, p) then InvalidValue
                               else if !found then NotFound else Unavailable)
  {}
}
