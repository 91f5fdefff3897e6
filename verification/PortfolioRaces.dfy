/** Updates and deletes of positions as they interleave: loading the portfolio, locking the
    row, writing.  A session holds the rows it has loaded weakly, and a read, locking or not,
    does not refresh one that is still there; so a write may work from values that are out
    of date.  Whether a row is still there is up to the run. */
module PortfolioRaces {
  import opened Basics
  import opened Money
  import opened PortfolioEvents

  type Tid = nat

  /** loaded, seen: the target as the session knew it when the portfolio was loaded and when
      the row was locked; found: the row as it was when locked. */
  datatype Phase =
    | Loaded(loaded: Option<PositionRow>)
    | Locked(seen: PositionRow, found: PositionRow)

  datatype Txn = Txn(req: Request, phase: Phase)

  /** Transactions that have ended are forgotten; used: every position id ever given out. */
  datatype State = State(db: Db, txns: map<Tid, Txn>, locks: map<Id, Tid>, used: set<Id>)

  datatype Action =
    | Insert(req: Request, env: Env)
    | Load(t: Tid, req: Request)
    | Lock(t: Tid, kept: bool)
    | Finish(t: Tid, kept: bool, env: Env)
    | Crash(t: Tid)

  const INITIAL := State(EMPTY, map[], map[], {})

  predicate Targets(req: Request) {
    req.UpdatePosition? || req.DeletePosition?
  }

  /** The request asks for something, and its portfolio loads. */
  predicate Begins(t: Tables, req: Request) {
    && Targets(req) && LoadPortfolio(t, req.portfolio).Pass?
    && (req.UpdatePosition? ==> req.quantity.Some? || req.averageCost.Some?)
  }

  /** What loading the portfolio puts in the session for the target. */
  function SeenAtLoad(t: Tables, req: Request): Option<PositionRow>
    requires Targets(req)
  {
    if req.target in t.positions && t.positions[req.target].portfolio == req.portfolio
    then Some(t.positions[req.target])
    else None
  }

  /** An UPDATE writes the columns that differ from what the session had loaded. */
  function Merged(c: Column, seen: PositionRow, wanted: PositionRow, row: PositionRow): PositionRow {
    row.(quantity := if wanted.quantity == seen.quantity then row.quantity else Store(c, wanted.quantity),
         averageCost :=
           if wanted.averageCost == seen.averageCost then row.averageCost else Store(c, wanted.averageCost))
  }

  function End(s: State, t: Tid): State {
    s.(txns := s.txns - {t}, locks := map i | i in s.locks && s.locks[i] != t :: s.locks[i])
  }

  /** The row object the write works on: the one the lock gave, or one read again. */
  function Base(x: Txn, kept: bool): PositionRow
    requires x.phase.Locked?
  {
    if kept then x.phase.seen else x.phase.found
  }

  /** What an update sets, from the values the lock gave. */
  function WantedOf(x: Txn): PositionRow
    requires x.phase.Locked? && x.req.UpdatePosition?
  {
    Changed(x.phase.seen, x.req.quantity, x.req.averageCost)
  }

  /** The tables and event a locked transaction commits; None when its values are refused. */
  function Outcome(c: Column, t: Tables, x: Txn, kept: bool): Option<(Tables, Event)>
    requires x.phase.Locked? && Targets(x.req) && x.req.target in t.positions
  {
    var i, base := x.req.target, Base(x, kept);
    if x.req.DeletePosition? then Some((t.(positions := t.positions - {i}), PositionRemoved(i, base)))
    else if !PositionValid(WantedOf(x)) then None
    else
      Some((t.(positions := t.positions[i := Merged(c, base, WantedOf(x), t.positions[i])]),
            UpdateEvent(i, x.phase.seen, WantedOf(x))))
  }

  predicate MayFinish(s: State, t: Tid) {
    && t in s.txns && s.txns[t].phase.Locked? && Targets(s.txns[t].req)
    && s.txns[t].req.target in s.db.tables.positions
  }

  /** Creating a portfolio or adding a position, under an id never given out before. */
  predicate MayInsert(s: State, req: Request) {
    req.CreatePortfolio? || (req.AddPosition? && req.newPosition !in s.used)
  }

  /** One step; a step that is not possible changes nothing. */
  function Next(c: Column, s: State, a: Action): State {
    match a
    case Insert(req, env) =>
      if !MayInsert(s, req) then s
      else s.(db := After(c, s.db, req, env), used := if req.AddPosition? then s.used + {req.newPosition} else s.used)
    case Load(t, req) =>
      if t in s.txns || !Begins(s.db.tables, req) then s
      else s.(txns := s.txns[t := Txn(req, Loaded(SeenAtLoad(s.db.tables, req)))])
    case Lock(t, kept) =>
      if t !in s.txns || !s.txns[t].phase.Loaded? || !Targets(s.txns[t].req) then s
      else
        var req, loaded, rows := s.txns[t].req, s.txns[t].phase.loaded, s.db.tables.positions;
        if req.target in s.locks then s
        else if req.target !in rows || rows[req.target].portfolio != req.portfolio then End(s, t)
        else
          var row := rows[req.target];
          s.(txns := s.txns[t := Txn(req, Locked(if kept && loaded.Some? then loaded.value else row, row))],
             locks := s.locks[req.target := t])
    case Finish(t, kept, env) =>
      if !MayFinish(s, t) then s
      else
        var out := Outcome(c, s.db.tables, s.txns[t], kept);
        if out.None? || !env.Accepted() then End(s, t)
        else End(s, t).(db := Db(out.value.0, s.db.outbox + [out.value.1]))
    case Crash(t) => End(s, t)
  }

  function Exec(c: Column, s: State, acts: seq<Action>): State {
    if acts == [] then s else Next(c, Exec(c, s, acts[..|acts| - 1]), acts[|acts| - 1])
  }

  // ------------------------------------------------------------ invariant

  predicate TxnOk(s: State, t: Tid, x: Txn) {
    && Targets(x.req)
    && match x.phase
       case Loaded(seen) =>
         seen.Some? ==>
           && x.req.target in s.used && seen.value.portfolio == x.req.portfolio
           && (x.req.target in s.db.tables.positions ==>
                 SameInstrument(s.db.tables.positions[x.req.target], seen.value))
       case Locked(seen, found) =>
         && x.req.target in s.locks && s.locks[x.req.target] == t
         && x.req.target in s.db.tables.positions && s.db.tables.positions[x.req.target] == found
         && SameInstrument(found, seen)
  }

  predicate Inv(s: State) {
    && s.db.tables.positions.Keys <= s.used
    && (forall t :: t in s.txns ==> TxnOk(s, t, s.txns[t]))
    && (forall i :: i in s.locks ==>
          s.locks[i] in s.txns && s.txns[s.locks[i]].phase.Locked? && Targets(s.txns[s.locks[i]].req)
          && s.txns[s.locks[i]].req.target == i)
  }

  lemma InsertKeeps(c: Column, s: State, req: Request, env: Env)
    requires Inv(s)
    ensures Inv(Next(c, s, Insert(req, env)))
  {
    hide Store, PortfolioValid, PositionValid, LoadPortfolio, Held;
    var s' := Next(c, s, Insert(req, env));
    forall t | t in s'.txns ensures TxnOk(s', t, s'.txns[t]) { assert TxnOk(s, t, s.txns[t]); }
  }

  lemma EndKeeps(s: State, t: Tid)
    requires Inv(s)
    ensures Inv(End(s, t))
  {
    var s' := End(s, t);
    forall u | u in s'.txns ensures TxnOk(s', u, s'.txns[u]) { assert TxnOk(s, u, s.txns[u]); }
  }

  lemma LoadAndLockKeep(c: Column, s: State, a: Action)
    requires Inv(s) && (a.Load? || a.Lock?)
    ensures Inv(Next(c, s, a))
  {
    hide LoadPortfolio;
    if a.Lock? { EndKeeps(s, a.t); }
    var s' := Next(c, s, a);
    forall u | u in s'.txns ensures TxnOk(s', u, s'.txns[u]) {
      if u in s.txns { assert TxnOk(s, u, s.txns[u]); }
    }
  }

  lemma FinishKeeps(c: Column, s: State, t: Tid, kept: bool, env: Env)
    requires Inv(s)
    ensures Inv(Next(c, s, Finish(t, kept, env)))
  {
    hide Store, PositionValid;
    EndKeeps(s, t);
    if MayFinish(s, t) {
      var s' := Next(c, s, Finish(t, kept, env));
      assert TxnOk(s, t, s.txns[t]);
      forall u | u in s'.txns ensures TxnOk(s', u, s'.txns[u]) { assert TxnOk(s, u, s.txns[u]); }
    }
  }

  lemma {:induction false} EveryRunKeeps(c: Column, acts: seq<Action>)
    ensures Inv(Exec(c, INITIAL, acts))
  {
    hide Next, Inv, End;
    if acts == [] {
      InitiallyFine();
    } else {
      var n := |acts| - 1;
      EveryRunKeeps(c, acts[..n]);
      StepKeeps(c, Exec(c, INITIAL, acts[..n]), acts[n]);
    }
  }

  lemma InitiallyFine()
    ensures Inv(INITIAL)
  {}

  lemma StepKeeps(c: Column, s: State, a: Action)
    requires Inv(s)
    ensures Inv(Next(c, s, a))
  {
    hide Inv;
    match a
    case Insert(req, env) => InsertKeeps(c, s, req, env);
    case Finish(t, kept, env) => FinishKeeps(c, s, t, kept, env);
    case Crash(t) => EndKeeps(s, t);
    case _ => LoadAndLockKeep(c, s, a);
  }

  // ------------------------------------------------------------ stored values fit

  predicate RowOnGrid(c: Column, row: PositionRow) {
    OnGrid(c, row.quantity) && OnGrid(c, row.averageCost)
  }

  predicate SeenOnGrid(c: Column, x: Txn) {
    match x.phase
    case Loaded(loaded) => loaded.Some? ==> RowOnGrid(c, loaded.value)
    case Locked(seen, found) => RowOnGrid(c, seen) && RowOnGrid(c, found)
  }

  /** Whatever the tables hold or a session has loaded fits the columns. */
  predicate AllOnGrid(c: Column, s: State) {
    RowsOnGrid(c, s.db.tables) && forall t :: t in s.txns ==> SeenOnGrid(c, s.txns[t])
  }

  lemma StepKeepsGrid(c: Column, s: State, a: Action)
    requires AllOnGrid(c, s)
    ensures AllOnGrid(c, Next(c, s, a))
  {
    hide Store, OnGrid, Handle, LoadPortfolio;
    if a.Insert? && Handle(c, s.db.tables, a.req).Ok? {
      EventRetellsIffOnGrid(c, s.db.tables, a.req);
    } else if a.Finish? && MayFinish(s, a.t) && s.txns[a.t].req.UpdatePosition? {
      var x := s.txns[a.t];
      StoreLandsOnGrid(c, WantedOf(x).quantity);
      StoreLandsOnGrid(c, WantedOf(x).averageCost);
    }
  }

  lemma {:induction false} EveryRunOnGrid(c: Column, acts: seq<Action>)
    ensures AllOnGrid(c, Exec(c, INITIAL, acts))
  {
    hide Next;
    if acts != [] {
      EveryRunOnGrid(c, acts[..|acts| - 1]);
      StepKeepsGrid(c, Exec(c, INITIAL, acts[..|acts| - 1]), acts[|acts| - 1]);
    }
  }

  // ------------------------------------------------------------ when the events are right

  /** The step commits. */
  predicate Commits(c: Column, s: State, t: Tid, kept: bool, env: Env) {
    MayFinish(s, t) && env.Accepted() && Outcome(c, s.db.tables, s.txns[t], kept).Some?
  }

  /** What the event tells of the past is the row as it was when locked. */
  predicate ToldIsFound(s: State, t: Tid, kept: bool)
    requires MayFinish(s, t)
  {
    var x := s.txns[t];
    x.phase.found == if x.req.UpdatePosition? then x.phase.seen else Base(x, kept)
  }

  /** A column the UPDATE leaves alone holds what the transaction thinks it holds. */
  predicate UnwrittenIsFound(s: State, t: Tid, kept: bool)
    requires MayFinish(s, t)
  {
    var x := s.txns[t];
    x.req.UpdatePosition? ==>
      var base, found := Base(x, kept), x.phase.found;
      && (WantedOf(x).quantity == base.quantity ==> found.quantity == base.quantity)
      && (WantedOf(x).averageCost == base.averageCost ==> found.averageCost == base.averageCost)
  }

  /** In every reachable state: a committed event's previous (or removed) values are those of
      the tables exactly when they are those of the row as it was locked. */
  lemma EventFitsIff(c: Column, acts: seq<Action>, t: Tid, kept: bool, env: Env)
    ensures var s, s' := Exec(c, INITIAL, acts), Exec(c, INITIAL, acts + [Finish(t, kept, env)]);
            Commits(c, s, t, kept, env) ==>
              && |s'.db.outbox| == |s.db.outbox| + 1 && s'.db.outbox[..|s.db.outbox|] == s.db.outbox
              && (Fits(s.db.tables, s'.db.outbox[|s.db.outbox|]) <==> ToldIsFound(s, t, kept))
  {
    EveryRunKeeps(c, acts);
    ExecAppend(c, acts, Finish(t, kept, env));
    var s := Exec(c, INITIAL, acts);
    hide Exec, Store, PositionValid;
    if Commits(c, s, t, kept, env) {
      assert TxnOk(s, t, s.txns[t]);
      hide Inv;
    }
  }

  /** No session still holds at the lock what it loaded with the portfolio. */
  predicate NothingKept(acts: seq<Action>) {
    forall i :: 0 <= i < |acts| && acts[i].Lock? ==> !acts[i].kept
  }

  /** Then every event tells the past right and leaves only its own values to fit. */
  lemma {:induction false} RefreshedRunsTellThePast(c: Column, acts: seq<Action>, t: Tid, kept: bool)
    requires NothingKept(acts)
    ensures var s := Exec(c, INITIAL, acts);
            && (forall u :: u in s.txns && s.txns[u].phase.Locked? ==> s.txns[u].phase.seen == s.txns[u].phase.found)
            && (MayFinish(s, t) ==> ToldIsFound(s, t, kept) && UnwrittenIsFound(s, t, kept))
  {
    hide After, Begins, Outcome;
    if acts != [] {
      RefreshedRunsTellThePast(c, acts[..|acts| - 1], t, kept);
    }
  }

  /** In every reachable state whose events replay: after a commit they still do exactly when
      its values fit the columns and every column its UPDATE leaves alone holds what the
      transaction thinks it holds.  A delete always replays. */
  lemma CommitReplaysIff(c: Column, acts: seq<Action>, t: Tid, kept: bool, env: Env)
    ensures var s, s' := Exec(c, INITIAL, acts), Exec(c, INITIAL, acts + [Finish(t, kept, env)]);
            Commits(c, s, t, kept, env) && Replays(s.db) ==>
              (Replays(s'.db) <==> RequestOnGrid(c, s.txns[t].req) && UnwrittenIsFound(s, t, kept))
  {
    EveryRunKeeps(c, acts);
    EveryRunOnGrid(c, acts);
    ExecAppend(c, acts, Finish(t, kept, env));
    hide Exec;
    var s := Exec(c, INITIAL, acts);
    if Commits(c, s, t, kept, env) && Replays(s.db) {
      assert TxnOk(s, t, s.txns[t]) && SeenOnGrid(c, s.txns[t]);
      ReplayAppend(s.db.outbox, Outcome(c, s.db.tables, s.txns[t], kept).value.1);
      ReplaysAfterOutcomeIff(c, s, t, kept);
    }
  }

  lemma ReplaysAfterOutcomeIff(c: Column, s: State, t: Tid, kept: bool)
    requires MayFinish(s, t) && TxnOk(s, t, s.txns[t]) && SeenOnGrid(c, s.txns[t])
    requires Outcome(c, s.db.tables, s.txns[t], kept).Some?
    ensures var (t', e) := Outcome(c, s.db.tables, s.txns[t], kept).value;
            Apply(s.db.tables, e) == t' <==> RequestOnGrid(c, s.txns[t].req) && UnwrittenIsFound(s, t, kept)
  {
    hide Store, PositionValid;
    var x := s.txns[t];
    var (t', e) := Outcome(c, s.db.tables, x, kept).value;
    if x.req.UpdatePosition? {
      assert Apply(s.db.tables, e).positions[x.req.target] == WantedOf(x);
      assert t'.positions[x.req.target] == Merged(c, Base(x, kept), WantedOf(x), x.phase.found);
    }
  }

  /** A committed insert must fit the columns; a committed update must fit them and find what
      it leaves alone as it thinks it is. */
  predicate StepIsClean(c: Column, s: State, a: Action) {
    && (a.Insert? && MayInsert(s, a.req) && Run(c, s.db, a.req, a.env).Ok? ==> RequestOnGrid(c, a.req))
    && (a.Finish? && Commits(c, s, a.t, a.kept, a.env) ==>
          RequestOnGrid(c, s.txns[a.t].req) && UnwrittenIsFound(s, a.t, a.kept))
  }

  predicate RunIsClean(c: Column, acts: seq<Action>) {
    forall i :: 0 <= i < |acts| ==> StepIsClean(c, Exec(c, INITIAL, acts[..i]), acts[i])
  }

  ghost predicate AlwaysReplayed(c: Column, acts: seq<Action>) {
    forall n :: 0 <= n <= |acts| ==> Replays(Exec(c, INITIAL, acts[..n]).db)
  }

  /** An interleaved run replays at every moment exactly when all its commits are clean. */
  lemma RacesReplayIff(c: Column, acts: seq<Action>)
    ensures AlwaysReplayed(c, acts) <==> RunIsClean(c, acts)
  {
    hide Next, StepIsClean, Replays, Exec;
    forall i | 0 <= i < |acts|
      ensures Replays(Exec(c, INITIAL, acts[..i]).db) ==>
                (Replays(Exec(c, INITIAL, acts[..i + 1]).db) <==> StepIsClean(c, Exec(c, INITIAL, acts[..i]), acts[i]))
    {
      assert acts[..i + 1] == acts[..i] + [acts[i]];
      ExecAppend(c, acts[..i], acts[i]);
      if Replays(Exec(c, INITIAL, acts[..i]).db) { CleanStepReplaysIff(c, acts[..i], acts[i]); }
    }
    if AlwaysReplayed(c, acts) {
      forall i | 0 <= i < |acts| ensures StepIsClean(c, Exec(c, INITIAL, acts[..i]), acts[i]) {
        assert Replays(Exec(c, INITIAL, acts[..i]).db) && Replays(Exec(c, INITIAL, acts[..i + 1]).db);
      }
    }
    if RunIsClean(c, acts) {
      assert acts[..0] == [] && Replays(Exec(c, INITIAL, []).db) by { EmptyReplays(c); }
      var n := 0;
      while n < |acts|
        invariant 0 <= n <= |acts|
        invariant forall k :: 0 <= k <= n ==> Replays(Exec(c, INITIAL, acts[..k]).db)
      {
        assert StepIsClean(c, Exec(c, INITIAL, acts[..n]), acts[n]);
        n := n + 1;
      }
    }
  }

  lemma EmptyReplays(c: Column)
    ensures Replays(Exec(c, INITIAL, []).db)
  {}

  lemma CleanStepReplaysIff(c: Column, acts: seq<Action>, a: Action)
    requires Replays(Exec(c, INITIAL, acts).db)
    ensures Replays(Next(c, Exec(c, INITIAL, acts), a).db) <==> StepIsClean(c, Exec(c, INITIAL, acts), a)
  {
    var s := Exec(c, INITIAL, acts);
    EveryRunOnGrid(c, acts);
    hide Exec, Store, OnGrid, RequestOnGrid, UnwrittenIsFound, PositionValid, PortfolioValid, LoadPortfolio, Held;
    if a.Finish? {
      if Commits(c, s, a.t, a.kept, a.env) {
        CommitReplaysIff(c, acts, a.t, a.kept, a.env);
        ExecAppend(c, acts, a);
      }
    } else if a.Insert? {
      ReplaysAfterIff(c, s.db, a.req, a.env);
    }
  }

  lemma ExecAppend(c: Column, acts: seq<Action>, a: Action)
    ensures Exec(c, INITIAL, acts + [a]) == Next(c, Exec(c, INITIAL, acts), a)
  {
    assert (acts + [a])[..|acts|] == acts;
  }

  // ------------------------------------------------------------ one pass alone

  /** Whatever others have done so far: a request that finds its row unlocked and is not
      interrupted does exactly what the service's transaction does, whatever the session
      holds on to. */
  lemma LonePassIsRun(c: Column, acts: seq<Action>, t: Tid, req: Request, atLock: bool, atWrite: bool, env: Env)
    requires Targets(req) && t !in Exec(c, INITIAL, acts).txns && req.target !in Exec(c, INITIAL, acts).locks
    ensures var s := Exec(c, INITIAL, acts);
            var s' := Next(c, Next(c, Next(c, s, Load(t, req)), Lock(t, atLock)), Finish(t, atWrite, env));
            s'.db == After(c, s.db, req, env) && t !in s'.txns
  {
    EveryRunOnGrid(c, acts);
    var s := Exec(c, INITIAL, acts);
    hide Exec, Store, PositionValid, PortfolioValid;
    var s1 := Next(c, s, Load(t, req));
    if Begins(s.db.tables, req) {
      var s2 := Next(c, s1, Lock(t, atLock));
      if MayFinish(s2, t) {
        LoneFinish(c, s, s2, t, req, atWrite, env);
      }
    }
  }

  /** A crash gives up the transaction's lock, and changes nothing that is stored. */
  lemma CrashFreesRow(c: Column, acts: seq<Action>, t: Tid, i: Id)
    ensures var s := Exec(c, INITIAL, acts);
            var s' := Next(c, s, Crash(t));
            && s'.db == s.db && t !in s'.txns
            && (i in s'.locks <==> i in s.locks && s.locks[i] != t)
  {}

  /** With the row as it was loaded, merging it is storing it. */
  lemma LoneFinish(c: Column, s: State, s2: State, t: Tid, req: Request, kept: bool, env: Env)
    requires AllOnGrid(c, s) && Begins(s.db.tables, req) && s2.db == s.db && MayFinish(s2, t)
    requires req.target in s.db.tables.positions
    requires s2.txns[t] == Txn(req, Locked(s.db.tables.positions[req.target], s.db.tables.positions[req.target]))
    requires s.db.tables.positions[req.target].portfolio == req.portfolio
    ensures var s' := Next(c, s2, Finish(t, kept, env));
            s'.db == After(c, s.db, req, env) && t !in s'.txns
  {
    hide Store, PositionValid, PortfolioValid, LoadPortfolio;
    if req.UpdatePosition? {
      var row := s.db.tables.positions[req.target];
      var wanted := Changed(row, req.quantity, req.averageCost);
      assert Merged(c, row, wanted, row) == Stored(c, wanted);
    }
  }

  // ------------------------------------------------------------ a race

  const ROW := PositionRow(1, "A", "US", 1.0, 1.0)
  const OK := Env(Done, true, true)
  const SET_QUANTITY := UpdatePosition(1, 5, Some(2.0), None)
  const SET_COST := UpdatePosition(1, 5, None, Some(3.0))
  const CREATED: PortfolioRow := PortfolioRow("u", "n", USD)

  const PREPARED: seq<Action> := [] + [Insert(CreatePortfolio(1, CREATED), OK)] + [Insert(AddPosition(5, ROW), OK)]

  const BOTH_LOADED: seq<Action> := PREPARED + [Load(0, SET_QUANTITY)] + [Load(1, SET_COST)]

  const RACE: seq<Action> :=
    BOTH_LOADED + [Lock(0, true)] + [Finish(0, true, OK)] + [Lock(1, true)] + [Finish(1, true, OK)]

  function RaceState(row: PositionRow, events: seq<Event>, txns: map<Tid, Txn>, locks: map<Id, Tid>): State {
    State(Db(Tables(map[1 := CREATED], map[5 := row]), events), txns, locks, {5})
  }

  const EVENTS: seq<Event> := [] + [PortfolioCreated(1, CREATED)] + [PositionAdded(5, ROW)]
  const LOADED_0 := Txn(SET_QUANTITY, Loaded(Some(ROW)))
  const LOADED_1 := Txn(SET_COST, Loaded(Some(ROW)))
  const AFTER_0: PositionRow := ROW.(quantity := 2.0)

  lemma PreparedRuns()
    ensures Exec(Exact, INITIAL, PREPARED) == RaceState(ROW, EVENTS, map[], map[])
  {
    var create, add := Insert(CreatePortfolio(1, CREATED), OK), Insert(AddPosition(5, ROW), OK);
    var t := Tables(map[1 := CREATED], map[]);
    hide Exec;
    ExecAppend(Exact, [], create);
    ExecAppend(Exact, [] + [create], add);
    assert Exec(Exact, INITIAL, []) == INITIAL by { NothingRun(); }
    FirstPortfolio();
    FirstPosition(t);
    hide After, Handle;
    assert {} + {5} == {5};
  }

  lemma NothingRun()
    ensures Exec(Exact, INITIAL, []) == INITIAL
  {}

  lemma FirstPortfolio()
    ensures After(Exact, EMPTY, CreatePortfolio(1, CREATED), OK) ==
            Db(Tables(map[1 := CREATED], map[]), [] + [PortfolioCreated(1, CREATED)])
  {}

  lemma FirstPosition(t: Tables)
    requires t == Tables(map[1 := CREATED], map[])
    ensures After(Exact, Db(t, [] + [PortfolioCreated(1, CREATED)]), AddPosition(5, ROW), OK) ==
            Db(Tables(map[1 := CREATED], map[5 := ROW]), EVENTS)
  {
    assert LoadPortfolio(t, 1).Pass? && !Held(t, ROW) && Stored(Exact, ROW) == ROW;
    assert PositionValid(ROW);
    hide Held, LoadPortfolio, Stored, PositionValid;
    assert Handle(Exact, t, AddPosition(5, ROW)) ==
           Ok((Tables(map[1 := CREATED], map[5 := ROW]), PositionAdded(5, ROW)));
  }

  lemma BothLoad()
    ensures Exec(Exact, INITIAL, BOTH_LOADED) == RaceState(ROW, EVENTS, map[0 := LOADED_0, 1 := LOADED_1], map[])
  {
    hide Exec;
    PreparedRuns();
    ExecAppend(Exact, PREPARED, Load(0, SET_QUANTITY));
    ExecAppend(Exact, PREPARED + [Load(0, SET_QUANTITY)], Load(1, SET_COST));
  }

  /** One transaction locks, writes its column and commits, alone at the row. */
  lemma LockAndFinish(row: PositionRow, events: seq<Event>, txns: map<Tid, Txn>, t: Tid, seen: PositionRow)
    requires t in txns && txns[t].phase == Loaded(Some(seen)) && txns[t].req in {SET_QUANTITY, SET_COST}
    requires row.portfolio == 1 && PositionValid(seen)
    ensures var wanted := Changed(seen, txns[t].req.quantity, txns[t].req.averageCost);
            Next(Exact, Next(Exact, RaceState(row, events, txns, map[]), Lock(t, true)), Finish(t, true, OK)) ==
            RaceState(Merged(Exact, seen, wanted, row), events + [UpdateEvent(5, seen, wanted)], txns - {t}, map[])
  {
    var s := RaceState(row, events, txns, map[]);
    var s1 := Next(Exact, s, Lock(t, true));
    assert s1.locks == map[5 := t] && s1.db == s.db;
    assert txns[t := Txn(txns[t].req, Locked(seen, row))] - {t} == txns - {t};
    assert (map i | i in s1.locks && s1.locks[i] != t :: s1.locks[i]) == map[];
  }

  /** Both transactions load the row and hold on to it; the first then sets its quantity, the
      second its cost.  The second's event still tells the first quantity, before and after. */
  lemma RaceTellsOldValues()
    ensures var s := Exec(Exact, INITIAL, RACE);
            && s.db.tables.positions == map[5 := PositionRow(1, "A", "US", 2.0, 3.0)]
            && s.db.outbox == EVENTS + [UpdateEvent(5, ROW, AFTER_0)] + [UpdateEvent(5, ROW, ROW.(averageCost := 3.0))]
            && !Replays(s.db)
  {
    hide Exec, Next;
    BothLoad();
    ExecAppend(Exact, BOTH_LOADED, Lock(0, true));
    ExecAppend(Exact, BOTH_LOADED + [Lock(0, true)], Finish(0, true, OK));
    LockAndFinish(ROW, EVENTS, map[0 := LOADED_0, 1 := LOADED_1], 0, ROW);
    assert map[0 := LOADED_0, 1 := LOADED_1] - {0} == map[1 := LOADED_1];
    ExecAppend(Exact, BOTH_LOADED + [Lock(0, true)] + [Finish(0, true, OK)], Lock(1, true));
    ExecAppend(Exact, BOTH_LOADED + [Lock(0, true)] + [Finish(0, true, OK)] + [Lock(1, true)], Finish(1, true, OK));
    LockAndFinish(AFTER_0, EVENTS + [UpdateEvent(5, ROW, AFTER_0)], map[1 := LOADED_1], 1, ROW);
    var last := UpdateEvent(5, ROW, ROW.(averageCost := 3.0));
    ReplayAppend(EVENTS + [UpdateEvent(5, ROW, AFTER_0)], last);
    hide Replay;
    assert Replay(EVENTS + [UpdateEvent(5, ROW, AFTER_0)] + [last]).positions[5].quantity == 1.0;
  }
}
