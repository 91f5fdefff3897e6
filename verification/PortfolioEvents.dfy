/** Portfolio writes and their outbox events.  Every write changes the tables and appends
    one event inside one unit of work; replaying the events rebuilds the tables. */
module PortfolioEvents {
  import opened Basics
  import opened Money
  import opened UnitsOfWork

  type Id = nat
  type Symbol = string

  datatype Currency = USD | JPY

  datatype PortfolioRow = PortfolioRow(userId: string, name: string, currency: Currency)

  datatype PositionRow = PositionRow(portfolio: Id, symbol: Symbol, market: string, quantity: real, averageCost: real)

  datatype Event =
    | PortfolioCreated(portfolio: Id, row: PortfolioRow)
    | PositionAdded(position: Id, added: PositionRow)
    | PositionUpdated(position: Id, portfolio: Id, symbol: Symbol, market: string,
                      previousQuantity: real, quantity: real, previousAverageCost: real, averageCost: real)
    | PositionRemoved(position: Id, removed: PositionRow)

  datatype Tables = Tables(portfolios: map<Id, PortfolioRow>, positions: map<Id, PositionRow>)

  datatype Db = Db(tables: Tables, outbox: seq<Event>)

  const NO_TABLES := Tables(map[], map[])
  const EMPTY := Db(NO_TABLES, [])

  datatype Request =
    | CreatePortfolio(newPortfolio: Id, row: PortfolioRow)
    | AddPosition(newPosition: Id, position: PositionRow)
    | UpdatePosition(portfolio: Id, target: Id, quantity: Option<real>, averageCost: Option<real>)
    | DeletePosition(portfolio: Id, target: Id)

  /** What becomes of the table write: done, refused, or stopped by the uniqueness of
      (portfolio, market, symbol) because another transaction inserted that position first. */
  datatype Write = Done | Refused | Taken

  /** Where the database may refuse: the table write, the outbox insert, the commit. */
  datatype Env = Env(tableWrite: Write, outboxInsert: bool, commit: bool) {
    predicate Accepted() {
      tableWrite.Done? && outboxInsert && commit
    }
  }

  // ------------------------------------------------------------ validation

  predicate PortfolioValid(row: PortfolioRow) {
    0 < |row.userId| <= 128 && 0 < |row.name| <= 100
  }

  predicate PositionValid(row: PositionRow) {
    0 < |row.symbol| <= 32 && row.quantity > 0.0 && row.averageCost > 0.0
  }

  /** Loading a portfolio loads all its positions, each of which is validated again. */
  predicate PortfolioLoads(t: Tables, p: Id) {
    && p in t.portfolios && PortfolioValid(t.portfolios[p])
    && forall i :: i in t.positions && t.positions[i].portfolio == p ==> PositionValid(t.positions[i])
  }

  function LoadPortfolio(t: Tables, p: Id): Outcome {
    if p !in t.portfolios then Fail(NotFound) else if !PortfolioLoads(t, p) then Fail(InvalidValue) else Pass
  }

  predicate SameInstrument(r: PositionRow, s: PositionRow) {
    r.portfolio == s.portfolio && r.market == s.market && r.symbol == s.symbol
  }

  predicate Held(t: Tables, row: PositionRow) {
    exists i :: i in t.positions && SameInstrument(t.positions[i], row)
  }

  function Stored(c: Column, row: PositionRow): PositionRow {
    row.(quantity := Store(c, row.quantity), averageCost := Store(c, row.averageCost))
  }

  function OrElse(given: Option<real>, current: real): real {
    if given.Some? then given.value else current
  }

  function Changed(row: PositionRow, quantity: Option<real>, averageCost: Option<real>): PositionRow {
    row.(quantity := OrElse(quantity, row.quantity), averageCost := OrElse(averageCost, row.averageCost))
  }

  // ------------------------------------------------------------ one request

  function UpdateEvent(i: Id, before: PositionRow, after: PositionRow): Event {
    PositionUpdated(i, before.portfolio, before.symbol, before.market,
                    before.quantity, after.quantity, before.averageCost, after.averageCost)
  }

  /** What a request commits when nothing fails: the new tables and the event. */
  function Handle(c: Column, t: Tables, req: Request): Result<(Tables, Event)> {
    match req
    case CreatePortfolio(p, row) =>
      if !PortfolioValid(row) then Err(InvalidValue)
      else if p in t.portfolios then Err(Duplicate)
      else Ok((t.(portfolios := t.portfolios[p := row]), PortfolioCreated(p, row)))
    case AddPosition(i, row) =>
      if LoadPortfolio(t, row.portfolio).Fail? then Err(LoadPortfolio(t, row.portfolio).error)
      else if Held(t, row) then Err(Duplicate)
      else if !PositionValid(row) then Err(InvalidValue)
      else if i in t.positions then Err(Duplicate)
      else Ok((t.(positions := t.positions[i := Stored(c, row)]), PositionAdded(i, row)))
    case UpdatePosition(p, i, quantity, averageCost) =>
      if quantity.None? && averageCost.None? then Err(InvalidValue)
      else if LoadPortfolio(t, p).Fail? then Err(LoadPortfolio(t, p).error)
      else if i !in t.positions || t.positions[i].portfolio != p then Err(NotFound)
      else
        var row := Changed(t.positions[i], quantity, averageCost);
        if !PositionValid(row) then Err(InvalidValue)
        else Ok((t.(positions := t.positions[i := Stored(c, row)]), UpdateEvent(i, t.positions[i], row)))
    case DeletePosition(p, i) =>
      if LoadPortfolio(t, p).Fail? then Err(LoadPortfolio(t, p).error)
      else if i !in t.positions || t.positions[i].portfolio != p then Err(NotFound)
      else Ok((t.(positions := t.positions - {i}), PositionRemoved(i, t.positions[i])))
  }

  function Run(c: Column, db: Db, req: Request, env: Env): Result<Db> {
    var h := Handle(c, db.tables, req);
    if h.Err? then Err(h.error)
    else if req.AddPosition? && env.tableWrite.Taken? then Err(Duplicate)
    else if !env.Accepted() then Err(Unavailable)
    else Ok(Db(h.value.0, db.outbox + [h.value.1]))
  }

  function After(c: Column, db: Db, req: Request, env: Env): Db {
    var out := Run(c, db, req, env);
    if out.Ok? then out.value else db
  }

  function Serial(c: Column, work: seq<(Request, Env)>): Db {
    if work == [] then EMPTY
    else After(c, Serial(c, work[..|work| - 1]), work[|work| - 1].0, work[|work| - 1].1)
  }

  // ------------------------------------------------------------ the service

  class PortfolioService {
    const uow: UnitOfWork<Db>
    const column: Column

    constructor (uow: UnitOfWork<Db>, column: Column)
      ensures this.uow == uow && this.column == column
    {
      this.uow, this.column := uow, column;
    }

    ghost predicate Clean()
      reads this, uow
    {
      uow.working == uow.durable
    }

    /** The outcome a caller sees for a request. */
    ghost predicate Reports(r: Outcome, db: Db, req: Request, env: Env) {
      match Run(column, db, req, env)
      case Ok(_) => r == Pass
      case Err(e) => r == Fail(e)
    }

    method Create(p: Id, row: PortfolioRow, env: Env) returns (r: Outcome)
      requires Clean()
      modifies uow
      ensures Clean() && uow.durable == After(column, old(uow.durable), CreatePortfolio(p, row), env)
      ensures Reports(r, old(uow.durable), CreatePortfolio(p, row), env)
    {
      if !PortfolioValid(row) { return Fail(InvalidValue); }
      uow.Enter();
      r := CreateBody(p, row, env);
      uow.Exit(r.Fail?);
    }

    method CreateBody(p: Id, row: PortfolioRow, env: Env) returns (r: Outcome)
      requires Clean() && !uow.committed && !uow.rolledBack && PortfolioValid(row)
      modifies uow
      ensures uow.committed || uow.rolledBack ==> Clean()
      ensures uow.durable == After(column, old(uow.durable), CreatePortfolio(p, row), env)
      ensures Reports(r, old(uow.durable), CreatePortfolio(p, row), env)
    {
      if p in uow.working.tables.portfolios { return Fail(Duplicate); }
      if !env.tableWrite.Done? { return Fail(Unavailable); }
      uow.working := uow.working.(tables := uow.working.tables.(portfolios := uow.working.tables.portfolios[p := row]));
      r := AddEvent(PortfolioCreated(p, row), env);
      if r.Fail? { return; }
      r := uow.Commit(env.commit);
    }

    method Add(i: Id, row: PositionRow, env: Env) returns (r: Outcome)
      requires Clean()
      modifies uow
      ensures Clean() && uow.durable == After(column, old(uow.durable), AddPosition(i, row), env)
      ensures Reports(r, old(uow.durable), AddPosition(i, row), env)
    {
      uow.Enter();
      r := AddBody(i, row, env);
      uow.Exit(r.Fail?);
    }

    method AddBody(i: Id, row: PositionRow, env: Env) returns (r: Outcome)
      requires Clean() && !uow.committed && !uow.rolledBack
      modifies uow
      ensures uow.committed || uow.rolledBack ==> Clean()
      ensures uow.durable == After(column, old(uow.durable), AddPosition(i, row), env)
      ensures Reports(r, old(uow.durable), AddPosition(i, row), env)
    {
      var t := uow.working.tables;
      r := LoadPortfolio(t, row.portfolio);
      if r.Fail? { return; }
      if Held(t, row) { return Fail(Duplicate); }
      if !PositionValid(row) { return Fail(InvalidValue); }
      if i in t.positions { return Fail(Duplicate); }
      if env.tableWrite.Taken? { return Fail(Duplicate); }
      if !env.tableWrite.Done? { return Fail(Unavailable); }
      WritePosition(i, row);
      r := AddEvent(PositionAdded(i, row), env);
      if r.Fail? { return; }
      r := uow.Commit(env.commit);
    }

    method Update(p: Id, i: Id, quantity: Option<real>, averageCost: Option<real>, env: Env) returns (r: Outcome)
      requires Clean()
      modifies uow
      ensures Clean()
      ensures uow.durable == After(column, old(uow.durable), UpdatePosition(p, i, quantity, averageCost), env)
      ensures Reports(r, old(uow.durable), UpdatePosition(p, i, quantity, averageCost), env)
    {
      if quantity.None? && averageCost.None? { return Fail(InvalidValue); }
      uow.Enter();
      r := UpdateBody(p, i, quantity, averageCost, env);
      uow.Exit(r.Fail?);
    }

    method UpdateBody(p: Id, i: Id, quantity: Option<real>, averageCost: Option<real>, env: Env) returns (r: Outcome)
      requires Clean() && !uow.committed && !uow.rolledBack && (quantity.Some? || averageCost.Some?)
      modifies uow
      ensures uow.committed || uow.rolledBack ==> Clean()
      ensures uow.durable == After(column, old(uow.durable), UpdatePosition(p, i, quantity, averageCost), env)
      ensures Reports(r, old(uow.durable), UpdatePosition(p, i, quantity, averageCost), env)
    {
      var t := uow.working.tables;
      r := LoadPortfolio(t, p);
      if r.Fail? { return; }
      if i !in t.positions || t.positions[i].portfolio != p { return Fail(NotFound); }
      var existing := t.positions[i];
      var updated := Changed(existing, quantity, averageCost);
      if !PositionValid(updated) { return Fail(InvalidValue); }
      if !env.tableWrite.Done? { return Fail(Unavailable); }
      WritePosition(i, updated);
      r := AddEvent(UpdateEvent(i, existing, updated), env);
      if r.Fail? { return; }
      r := uow.Commit(env.commit);
    }

    method Delete(p: Id, i: Id, env: Env) returns (r: Outcome)
      requires Clean()
      modifies uow
      ensures Clean() && uow.durable == After(column, old(uow.durable), DeletePosition(p, i), env)
      ensures Reports(r, old(uow.durable), DeletePosition(p, i), env)
    {
      uow.Enter();
      r := DeleteBody(p, i, env);
      uow.Exit(r.Fail?);
    }

    method DeleteBody(p: Id, i: Id, env: Env) returns (r: Outcome)
      requires Clean() && !uow.committed && !uow.rolledBack
      modifies uow
      ensures uow.committed || uow.rolledBack ==> Clean()
      ensures uow.durable == After(column, old(uow.durable), DeletePosition(p, i), env)
      ensures Reports(r, old(uow.durable), DeletePosition(p, i), env)
    {
      var t := uow.working.tables;
      r := LoadPortfolio(t, p);
      if r.Fail? { return; }
      if i !in t.positions || t.positions[i].portfolio != p { return Fail(NotFound); }
      var removed := t.positions[i];
      if !env.tableWrite.Done? { return Fail(Unavailable); }
      uow.working := uow.working.(tables := t.(positions := t.positions - {i}));
      r := AddEvent(PositionRemoved(i, removed), env);
      if r.Fail? { return; }
      r := uow.Commit(env.commit);
    }

    method WritePosition(i: Id, row: PositionRow)
      modifies uow`working
      ensures uow.working == old(uow.working).(tables := old(uow.working.tables).(
                positions := old(uow.working.tables.positions)[i := Stored(column, row)]))
    {
      var t := uow.working.tables;
      uow.working := uow.working.(tables := t.(positions := t.positions[i := Stored(column, row)]));
    }

    method AddEvent(e: Event, env: Env) returns (r: Outcome)
      modifies uow`working
      ensures r == if env.outboxInsert then Pass else Fail(Unavailable)
      ensures uow.working ==
              if r.Pass? then old(uow.working).(outbox := old(uow.working.outbox) + [e]) else old(uow.working)
    {
      if !env.outboxInsert { return Fail(Unavailable); }
      uow.working := uow.working.(outbox := uow.working.outbox + [e]);
      return Pass;
    }
  }

  // ------------------------------------------------------------ replay

  function Apply(t: Tables, e: Event): Tables {
    match e
    case PortfolioCreated(p, row) => t.(portfolios := t.portfolios[p := row])
    case PositionAdded(i, row) => t.(positions := t.positions[i := row])
    case PositionUpdated(i, p, symbol, market, _, quantity, _, averageCost) =>
      t.(positions := t.positions[i := PositionRow(p, symbol, market, quantity, averageCost)])
    case PositionRemoved(i, _) => t.(positions := t.positions - {i})
  }

  function Replay(events: seq<Event>): Tables {
    if events == [] then NO_TABLES else Apply(Replay(events[..|events| - 1]), events[|events| - 1])
  }

  predicate Replays(db: Db) {
    Replay(db.outbox) == db.tables
  }

  /** What an event says about the past is what the tables held just before it. */
  predicate Fits(t: Tables, e: Event) {
    match e
    case PortfolioCreated(p, _) => p !in t.portfolios
    case PositionAdded(i, row) => i !in t.positions && row.portfolio in t.portfolios && !Held(t, row)
    case PositionUpdated(i, p, symbol, market, quantity, _, averageCost, _) =>
      i in t.positions && t.positions[i] == PositionRow(p, symbol, market, quantity, averageCost)
    case PositionRemoved(i, row) => i in t.positions && t.positions[i] == row
  }

  predicate RequestOnGrid(c: Column, req: Request) {
    match req
    case AddPosition(_, row) => OnGrid(c, row.quantity) && OnGrid(c, row.averageCost)
    case UpdatePosition(_, _, quantity, averageCost) =>
      (quantity.Some? ==> OnGrid(c, quantity.value)) && (averageCost.Some? ==> OnGrid(c, averageCost.value))
    case _ => true
  }

  predicate RowsOnGrid(c: Column, t: Tables) {
    forall i :: i in t.positions ==> OnGrid(c, t.positions[i].quantity) && OnGrid(c, t.positions[i].averageCost)
  }

  lemma ReplayAppend(events: seq<Event>, e: Event)
    ensures Replay(events + [e]) == Apply(Replay(events), e)
  {
    assert (events + [e])[..|events|] == events;
  }

  /** A committed request's event fits the tables it found, and turns them into the tables
      it leaves exactly when the values it brings survive storage. */
  lemma EventRetellsIffOnGrid(c: Column, t: Tables, req: Request)
    requires Handle(c, t, req).Ok? && RowsOnGrid(c, t)
    ensures var (t', e) := Handle(c, t, req).value;
            Fits(t, e) && RowsOnGrid(c, t') && (Apply(t, e) == t' <==> RequestOnGrid(c, req))
  {
    hide Store;
    var (t', e) := Handle(c, t, req).value;
    match req
    case CreatePortfolio(p, row) =>
    case AddPosition(i, row) =>
      StoreLandsOnGrid(c, row.quantity);
      StoreLandsOnGrid(c, row.averageCost);
      assert Apply(t, e).positions[i] == row && t'.positions[i] == Stored(c, row);
    case UpdatePosition(p, i, quantity, averageCost) =>
      var row := Changed(t.positions[i], quantity, averageCost);
      StoreLandsOnGrid(c, row.quantity);
      StoreLandsOnGrid(c, row.averageCost);
      assert Apply(t, e).positions[i] == row && t'.positions[i] == Stored(c, row);
    case DeletePosition(p, i) =>
  }

  // ------------------------------------------------------------ every run

  lemma {:induction false} RowsStayOnGrid(c: Column, work: seq<(Request, Env)>)
    ensures RowsOnGrid(c, Serial(c, work).tables)
  {
    hide Handle, OnGrid;
    if work != [] {
      var before, k := Serial(c, work[..|work| - 1]), work[|work| - 1];
      RowsStayOnGrid(c, work[..|work| - 1]);
      if Handle(c, before.tables, k.0).Ok? { EventRetellsIffOnGrid(c, before.tables, k.0); }
    }
  }

  lemma ReplaysAfterIff(c: Column, db: Db, req: Request, env: Env)
    requires Replays(db) && RowsOnGrid(c, db.tables)
    ensures Replays(After(c, db, req, env)) <==> Run(c, db, req, env).Err? || RequestOnGrid(c, req)
  {
    hide Handle, OnGrid, RequestOnGrid;
    if Handle(c, db.tables, req).Ok? {
      EventRetellsIffOnGrid(c, db.tables, req);
      ReplayAppend(db.outbox, Handle(c, db.tables, req).value.1);
    }
  }

  /** From a history that replays, the next request keeps it that way exactly when it fails
      or brings only values that survive storage. */
  lemma NextReplaysIff(c: Column, work: seq<(Request, Env)>, req: Request, env: Env)
    requires Replays(Serial(c, work))
    ensures Replays(After(c, Serial(c, work), req, env)) <==>
            Run(c, Serial(c, work), req, env).Err? || RequestOnGrid(c, req)
  {
    RowsStayOnGrid(c, work);
    ReplaysAfterIff(c, Serial(c, work), req, env);
  }

  /** Every request of the run that is committed brings only values that survive storage. */
  predicate CommitsFit(c: Column, work: seq<(Request, Env)>) {
    forall i :: 0 <= i < |work| ==> CommitFits(c, Serial(c, work[..i]), work[i].0, work[i].1)
  }

  predicate CommitFits(c: Column, db: Db, req: Request, env: Env) {
    Run(c, db, req, env).Ok? ==> RequestOnGrid(c, req)
  }

  lemma CommitsFitOfFront(c: Column, work: seq<(Request, Env)>, n: nat)
    requires CommitsFit(c, work) && n <= |work|
    ensures CommitsFit(c, work[..n])
  {
    hide CommitFits;
    forall i | 0 <= i < n ensures CommitFits(c, Serial(c, work[..n][..i]), work[..n][i].0, work[..n][i].1) {
      assert work[..n][..i] == work[..i] && CommitFits(c, Serial(c, work[..i]), work[i].0, work[i].1);
    }
  }

  lemma OneMoreCommitFits(c: Column, work: seq<(Request, Env)>)
    requires work != [] && CommitsFit(c, work[..|work| - 1])
    requires CommitFits(c, Serial(c, work[..|work| - 1]), work[|work| - 1].0, work[|work| - 1].1)
    ensures CommitsFit(c, work)
  {
    hide CommitFits;
    var front := work[..|work| - 1];
    forall i | 0 <= i < |work| ensures CommitFits(c, Serial(c, work[..i]), work[i].0, work[i].1) {
      assert i < |front| ==>
          front[..i] == work[..i] && CommitFits(c, Serial(c, front[..i]), front[i].0, front[i].1);
    }
  }

  /** Replaying the committed events rebuilds the tables, whatever failed on the way. */
  lemma {:induction false} EveryRunReplays(c: Column, work: seq<(Request, Env)>)
    requires CommitsFit(c, work)
    ensures Replays(Serial(c, work))
  {
    hide After, CommitFits;
    if work != [] {
      var n := |work| - 1;
      CommitsFitOfFront(c, work, n);
      EveryRunReplays(c, work[..n]);
      assert CommitFits(c, Serial(c, work[..n]), work[n].0, work[n].1);
      NextCommitReplays(c, work[..n], work[n].0, work[n].1);
    }
  }

  lemma NextCommitReplays(c: Column, work: seq<(Request, Env)>, req: Request, env: Env)
    requires Replays(Serial(c, work))
    ensures Replays(After(c, Serial(c, work), req, env)) <==> CommitFits(c, Serial(c, work), req, env)
  {
    NextReplaysIff(c, work, req, env);
    hide Serial, After, RequestOnGrid;
  }

  /** At every moment of the run so far. */
  ghost predicate AlwaysReplays(c: Column, work: seq<(Request, Env)>) {
    forall n :: 0 <= n <= |work| ==> Replays(Serial(c, work[..n]))
  }

  /** A run replays at every moment exactly when all it commits survives storage. */
  lemma {:induction false} AlwaysReplaysIff(c: Column, work: seq<(Request, Env)>)
    ensures AlwaysReplays(c, work) <==> CommitsFit(c, work)
  {
    hide CommitFits, Replays, Serial;
    if CommitsFit(c, work) {
      forall n | 0 <= n <= |work| ensures Replays(Serial(c, work[..n])) {
        CommitsFitOfFront(c, work, n);
        EveryRunReplays(c, work[..n]);
      }
    }
    if AlwaysReplays(c, work) {
      forall i | 0 <= i < |work| ensures CommitFits(c, Serial(c, work[..i]), work[i].0, work[i].1) {
        assert Replays(Serial(c, work[..i])) && Replays(Serial(c, work[..i + 1]));
        NextCommitReplays(c, work[..i], work[i].0, work[i].1);
        SerialStep(c, work, i);
      }
    }
  }

  lemma SerialStep(c: Column, work: seq<(Request, Env)>, i: nat)
    requires i < |work|
    ensures Serial(c, work[..i + 1]) == After(c, Serial(c, work[..i]), work[i].0, work[i].1)
  {
    assert work[..i + 1][..i] == work[..i];
  }

  /** Every event in the outbox fits the replay of the events before it: previous values
      are the values just before, and removed positions are removed as they stood. */
  lemma {:induction false} EveryEventFits(c: Column, work: seq<(Request, Env)>, k: nat)
    requires CommitsFit(c, work) && k < |Serial(c, work).outbox|
    ensures Fits(Replay(Serial(c, work).outbox[..k]), Serial(c, work).outbox[k])
  {
    hide Handle, CommitFits, Fits;
    if work != [] {
      var n := |work| - 1;
      var before, last := Serial(c, work[..n]), work[n];
      CommitsFitOfFront(c, work, n);
      if k < |before.outbox| {
        EveryEventFits(c, work[..n], k);
        assert Serial(c, work).outbox[..k] == before.outbox[..k];
      } else {
        RowsStayOnGrid(c, work[..n]);
        EveryRunReplays(c, work[..n]);
        EventRetellsIffOnGrid(c, before.tables, last.0);
        assert Serial(c, work).outbox[..k] == before.outbox;
      }
    }
  }

  /** Each successful request adds exactly one event; a failed one adds none; no event is
      ever taken back. */
  lemma {:induction false} OneEventPerCommit(c: Column, work: seq<(Request, Env)>)
    ensures |Serial(c, work).outbox| == Successes(c, work)
    ensures forall n :: 0 <= n <= |work| ==> Serial(c, work[..n]).outbox <= Serial(c, work).outbox
  {
    hide Handle;
    if work != [] {
      OneEventPerCommit(c, work[..|work| - 1]);
      forall n | 0 <= n <= |work| ensures Serial(c, work[..n]).outbox <= Serial(c, work).outbox {
        if n < |work| { assert work[..|work| - 1][..n] == work[..n]; } else { assert work[..n] == work; }
      }
    }
  }

  function Successes(c: Column, work: seq<(Request, Env)>): nat {
    if work == [] then 0
    else
      Successes(c, work[..|work| - 1])
      + if Run(c, Serial(c, work[..|work| - 1]), work[|work| - 1].0, work[|work| - 1].1).Ok? then 1 else 0
  }

  predicate Sound(t: Tables) {
    && (forall i :: i in t.positions ==> t.positions[i].portfolio in t.portfolios)
    && (forall i, j :: i in t.positions && j in t.positions && SameInstrument(t.positions[i], t.positions[j]) ==>
        i == j)
  }

  /** A portfolio holds an instrument at most once, and every position has a portfolio. */
  lemma {:induction false} EveryRunIsSound(c: Column, work: seq<(Request, Env)>)
    ensures Sound(Serial(c, work).tables)
  {
    hide Handle;
    if work != [] {
      var before, last := Serial(c, work[..|work| - 1]), work[|work| - 1];
      EveryRunIsSound(c, work[..|work| - 1]);
      if Handle(c, before.tables, last.0).Ok? { StepIsSound(c, before.tables, last.0); }
    }
  }

  lemma StepIsSound(c: Column, t: Tables, req: Request)
    requires Handle(c, t, req).Ok? && Sound(t)
    ensures Sound(Handle(c, t, req).value.0)
  {
    hide Store, PortfolioValid, PositionValid;
  }

  /** A new position leaves its portfolio readable exactly when neither of its values is
      rounded to zero. */
  lemma AddedPositionLoadsIff(c: Column, t: Tables, i: Id, row: PositionRow)
    requires Handle(c, t, AddPosition(i, row)).Ok?
    ensures PortfolioLoads(Handle(c, t, AddPosition(i, row)).value.0, row.portfolio) <==>
            Store(c, row.quantity) > 0.0 && Store(c, row.averageCost) > 0.0
  {
    hide Store;
    var t' := Handle(c, t, AddPosition(i, row)).value.0;
    assert t'.positions[i] == Stored(c, row);
  }

  /** So does an update. */
  lemma UpdatedPositionLoadsIff(c: Column, t: Tables, p: Id, i: Id, quantity: Option<real>, averageCost: Option<real>)
    requires Handle(c, t, UpdatePosition(p, i, quantity, averageCost)).Ok?
    ensures var row := Changed(t.positions[i], quantity, averageCost);
            PortfolioLoads(Handle(c, t, UpdatePosition(p, i, quantity, averageCost)).value.0, p) <==>
            Store(c, row.quantity) > 0.0 && Store(c, row.averageCost) > 0.0
  {
    hide Store;
    var t' := Handle(c, t, UpdatePosition(p, i, quantity, averageCost)).value.0;
    assert t'.positions[i] == Stored(c, Changed(t.positions[i], quantity, averageCost));
  }

  predicate Poisoned(t: Tables, p: Id) {
    p in t.portfolios && !PortfolioLoads(t, p)
  }

  /** A stored portfolio that does not load is out of everybody's reach: no request, whatever
      happens to it, makes it loadable again. */
  lemma PoisonStays(c: Column, db: Db, p: Id, req: Request, env: Env)
    requires Poisoned(db.tables, p)
    ensures Poisoned(After(c, db, req, env).tables, p)
  {
    hide Store, PositionValid;
    var t, t' := db.tables, After(c, db, req, env).tables;
    if !PortfolioValid(t.portfolios[p]) {
      assert t'.portfolios[p] == t.portfolios[p];
    } else {
      var i :| i in t.positions && t.positions[i].portfolio == p && !PositionValid(t.positions[i]);
      assert i in t'.positions && t'.positions[i] == t.positions[i];
    }
  }

  lemma {:induction false} PoisonStaysForever(c: Column, work: seq<(Request, Env)>, more: seq<(Request, Env)>, p: Id)
    requires Poisoned(Serial(c, work).tables, p)
    ensures Poisoned(Serial(c, work + more).tables, p)
  {
    hide After, Poisoned;
    if more == [] {
      assert work + more == work;
    } else {
      var n := |more| - 1;
      PoisonStaysForever(c, work, more[..n], p);
      assert (work + more)[..|work + more| - 1] == work + more[..n];
      PoisonStays(c, Serial(c, work + more[..n]), p, more[n].0, more[n].1);
    }
  }

  lemma TinyValueIsStoredAsZero(x: real)
    requires 0.0 < x
    ensures Store(Scale10, x) == 0.0 <==> x < HalfStep(Scale10)
  {
    var k := RoundHalfAway(InSteps(Scale10, x));
    assert k >= 0;
  }

  const TINY_POSITION: seq<(Request, Env)> := [
    (CreatePortfolio(1, PortfolioRow("u", "n", USD)), Env(Done, true, true)),
    (AddPosition(5, PositionRow(1, "A", "US", 0.00000000001, 1.0)), Env(Done, true, true))]

  /** A real run: a quantity of 10^-11 is accepted and stored as zero, so the event retells
      another position than the table holds, and the portfolio cannot be loaded any more. */
  lemma TinyPositionPoisonsPortfolio()
    ensures var db := Serial(Scale10, TINY_POSITION);
            |db.outbox| == 2 && !Replays(db) && !PortfolioLoads(db.tables, 1)
  {
    var x := 0.00000000001;
    TinyValueIsStoredAsZero(x);
    var (create, env) := TINY_POSITION[0];
    var (add, env2) := TINY_POSITION[1];
    var row := add.position;
    assert TINY_POSITION[..1] == [TINY_POSITION[0]] && TINY_POSITION[..1][..0] == [];
    hide Store;
    assert Serial(Scale10, []) == EMPTY;
    var created := Serial(Scale10, TINY_POSITION[..1]);
    assert created == After(Scale10, EMPTY, create, env);
    assert created.tables == Tables(map[1 := create.row], map[]) && created.outbox == [PortfolioCreated(1, create.row)];
    assert Handle(Scale10, created.tables, add).Ok?;
    AddedPositionLoadsIff(Scale10, created.tables, 5, row);
    var db := Serial(Scale10, TINY_POSITION);
    assert db == After(Scale10, created, add, env2);
    ReplayAppend(created.outbox, PositionAdded(5, row));
    assert Replay(db.outbox).positions[5].quantity == x;
    assert db.tables.positions[5].quantity == Store(Scale10, x);
  }
}
