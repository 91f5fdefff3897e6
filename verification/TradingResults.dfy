/** The trading results for concurrent runs: what serial runs keep, and what valuations say
    about them, carried over to every interleaving. */
module TradingResults {
  import opened Basics
  import opened Money
  import opened TradingModels
  import opened TradingLedger
  import opened LedgerInvariants
  import opened TradingLocks
  import Valuation

  predicate GridQuote(c: Column, env: Env) {
    env.quote.Some? ==> OnGrid(c, env.quote.value.bid) && OnGrid(c, env.quote.value.ask)
  }

  /** Every quote any transaction of the run is given fits the columns. */
  predicate QuotesFit(c: Column, acts: seq<Action>) {
    forall i :: 0 <= i < |acts| && acts[i].Begin? ==> GridQuote(c, acts[i].env)
  }

  predicate EnvsFit(c: Column, s: State) {
    && (forall t :: t in s.txns ==> GridQuote(c, s.txns[t].env))
    && (forall i :: 0 <= i < |s.commits| ==> GridQuote(c, s.commits[i].env))
  }

  lemma FinishKeepsEnvs(c: Column, s: State, t: Tid, a: Id, grant: Option<nat>, eff: Option<Effect>)
    requires t in s.txns && EnvsFit(c, s)
    ensures EnvsFit(c, Finish(c, s, t, a, grant, eff))
  {
    hide GridQuote, Settle, Freed;
  }

  lemma AdvanceKeepsEnvs(c: Column, s: State, t: Tid, s': State)
    requires t in s.txns && EnvsFit(c, s) && Advance(c, s, t) == Some(s')
    ensures EnvsFit(c, s')
  {
    hide GridQuote, Advance, EnvsFit;
    var x := s.txns[t];
    if x.phase.Ready? || (x.phase.Start? && x.req.OpenAccount?) {
      LastStepKeepsEnvs(c, s, t, s');
    } else if x.phase.HasAccount? {
      OrderStep(c, s, t, s');
    } else if x.phase.HasOrder? {
      PositionStep(c, s, t, s');
    } else {
      FirstSteps(c, s, t, s');
    }
  }

  lemma LastStepKeepsEnvs(c: Column, s: State, t: Tid, s': State)
    requires t in s.txns && EnvsFit(c, s) && Advance(c, s, t) == Some(s')
    requires s.txns[t].phase.Ready? || (s.txns[t].phase.Start? && s.txns[t].req.OpenAccount?)
    ensures EnvsFit(c, s')
  {
    hide GridQuote, Finish, EffectOf, Decide, EnvsFit;
    var x := s.txns[t];
    if x.phase.Ready? {
      FinishKeepsEnvs(c, s, t, x.phase.a, Some(x.phase.grant),
                      if Decidable(x.req, x.phase.view) then Decided(Decide(x.req, x.env, x.phase.view)) else None);
    } else {
      FinishKeepsEnvs(c, s, t, x.req.account, None, EffectOf(s.db, x.req, x.env));
    }
  }

  lemma FirstSteps(c: Column, s: State, t: Tid, s': State)
    requires t in s.txns && EnvsFit(c, s) && Advance(c, s, t) == Some(s')
    requires var x := s.txns[t];
             && !x.phase.HasAccount? && !x.phase.HasOrder? && !x.phase.Ready?
             && !(x.phase.Start? && x.req.OpenAccount?)
    ensures EnvsFit(c, s')
  {
    hide GridQuote, Route, ReadAccount, Freed, EnvsFit;
    MoveKeepsEnvs(c, s, s');
  }

  lemma OrderStep(c: Column, s: State, t: Tid, s': State)
    requires t in s.txns && EnvsFit(c, s) && Advance(c, s, t) == Some(s') && s.txns[t].phase.HasAccount?
    ensures EnvsFit(c, s')
  {
    hide GridQuote, ReadOrder, Freed, EnvsFit;
    MoveKeepsEnvs(c, s, s');
  }

  lemma PositionStep(c: Column, s: State, t: Tid, s': State)
    requires t in s.txns && EnvsFit(c, s) && Advance(c, s, t) == Some(s') && s.txns[t].phase.HasOrder?
    ensures EnvsFit(c, s')
  {
    hide GridQuote, ReadPosition, Freed, EnvsFit;
    MoveKeepsEnvs(c, s, s');
  }

  lemma MoveKeepsEnvs(c: Column, s: State, s': State)
    requires EnvsFit(c, s) && s'.commits == s.commits && s'.txns.Keys == s.txns.Keys
    requires forall t :: t in s.txns ==> s'.txns[t].env == s.txns[t].env
    ensures EnvsFit(c, s')
  {
    hide GridQuote;
  }

  lemma {:induction false} RunKeepsEnvs(c: Column, acts: seq<Action>)
    requires QuotesFit(c, acts)
    ensures EnvsFit(c, Exec(c, Initial(EMPTY), acts))
  {
    hide GridQuote, Advance, End;
    if acts != [] {
      var before, act := acts[..|acts| - 1], acts[|acts| - 1];
      RunKeepsEnvs(c, before);
      var s := Exec(c, Initial(EMPTY), before);
      match act
      case Begin(t, req, env) => assert GridQuote(c, acts[|acts| - 1].env);
      case Step(t) => if t in s.txns && Advance(c, s, t).Some? { AdvanceKeepsEnvs(c, s, t, Advance(c, s, t).value); }
      case Crash(t) => if t in s.txns { EndKeepsEnvs(c, s, t); }
    }
  }

  lemma EndKeepsEnvs(c: Column, s: State, t: Tid)
    requires t in s.txns && EnvsFit(c, s)
    ensures EnvsFit(c, End(s, t, RolledBack))
  {
    hide GridQuote, Freed;
  }

  /** The committed transactions, in commit order. */
  function Commits(c: Column, acts: seq<Action>): seq<(Request, Env)> {
    Work(Exec(c, Initial(EMPTY), acts).commits)
  }

  /** Quotes that fit are more than enough: it is the traded prices that count. */
  lemma FittingQuotesSuffice(c: Column, acts: seq<Action>)
    requires QuotesFit(c, acts)
    ensures TradesFit(c, Commits(c, acts))
  {
    hide Exec, Serial, EffectOf, OnGrid, EnvsFit;
    RunKeepsEnvs(c, acts);
    var work := Commits(c, acts);
    forall i | 0 <= i < |work| ensures RequestFits(c, Serial(c, EMPTY, work[..i]), work[i].0, work[i].1) {
      CommitEnvFits(c, Exec(c, Initial(EMPTY), acts), i);
      TradePriceIsQuoted(c, work, i);
    }
  }

  lemma CommitEnvFits(c: Column, s: State, i: nat)
    requires EnvsFit(c, s) && i < |s.commits|
    ensures GridQuote(c, Work(s.commits)[i].1)
  {
    hide GridQuote;
  }

  /** Under every interleaving whose committed trades are made at prices that fit the
      columns, the execution log explains every balance and position. */
  lemma ConcurrentReplay(c: Column, acts: seq<Action>)
    requires TradesFit(c, Commits(c, acts))
    ensures GridLedger(c, Exec(c, Initial(EMPTY), acts).db)
  {
    hide Exec, TradesFit;
    Serializable(c, EMPTY, acts);
    EveryGridRun(c, Commits(c, acts));
  }

  /** Under every interleaving, for every account and all positive prices: what the
      valuation loops report is the initial cash plus the gains, up to rounding; half a
      step per share held after each buy when the traded prices fit, and exactly so in
      exact arithmetic. */
  lemma ConcurrentEquity(c: Column, acts: seq<Action>, a: Id, rows: seq<PositionRow>, prices: Valuation.Prices)
    requires var db := Exec(c, Initial(EMPTY), acts).db;
             a in db.accounts && Valuation.ListsAccount(db, a, rows) && Valuation.Priced(rows, prices)
    ensures var db := Exec(c, Initial(EMPTY), acts).db;
            var gap := Valuation.Equity(db, a, rows, prices) - db.accounts[a].initialCash;
            var gains := Valuation.RealizedPnl(rows) + Valuation.UnrealizedPnl(rows, prices);
            && Within(gap, gains, DriftBound(c, db.executions, a, false))
            && (TradesFit(c, Commits(c, acts)) ==> Within(gap, gains, DriftBound(c, db.executions, a, true)))
            && (c == Exact ==> gap == gains)
  {
    hide Exec, DriftBound, Valuation.Equity, Valuation.ListsAccount, Valuation.Priced, Within, TradesFit;
    Serializable(c, EMPTY, acts);
    Valuation.EquityIdentity(c, Commits(c, acts), a, rows, prices);
    if c == Exact {
      Valuation.ExactEquityIdentity(Commits(c, acts), a, rows, prices);
    }
  }

  // ------------------------------------------------------------ history

  /** What a database keeps of an earlier one. */
  predicate Remembers(db: Db, db': Db) {
    && db.executions <= db'.executions
    && forall o :: o in db.orders ==>
         && o in db'.orders && db'.orders[o].accountId == db.orders[o].accountId
         && (db.orders[o].status in {Filled, Cancelled} ==> db'.orders[o] == db.orders[o])
  }

  /** The committed transactions only grow in number. */
  lemma {:induction false} CommitsGrow(c: Column, s: State, more: seq<Action>)
    ensures s.commits <= Exec(c, s, more).commits
  {
    hide Next;
    if more != [] {
      CommitsGrow(c, s, more[..|more| - 1]);
      StepGrows(c, Exec(c, s, more[..|more| - 1]), more[|more| - 1]);
    }
  }

  lemma StepGrows(c: Column, s: State, act: Action)
    ensures s.commits <= Next(c, s, act).commits
  {
    hide Advance, Freed;
    if act.Step? && act.t in s.txns && Advance(c, s, act.t).Some? {
      AdvanceGrows(c, s, act.t);
    }
  }

  lemma AdvanceGrows(c: Column, s: State, t: Tid)
    requires t in s.txns && Advance(c, s, t).Some?
    ensures s.commits <= Advance(c, s, t).value.commits
  {
    hide Finish, EffectOf, Decide, Route, ReadAccount, ReadOrder, ReadPosition, Freed;
    var x := s.txns[t];
    if x.phase.Ready? {
      FinishGrows(c, s, t, x.phase.a, Some(x.phase.grant),
                  if Decidable(x.req, x.phase.view) then Decided(Decide(x.req, x.env, x.phase.view)) else None);
    } else if x.req.OpenAccount? {
      FinishGrows(c, s, t, x.req.account, None, EffectOf(s.db, x.req, x.env));
    }
  }

  lemma FinishGrows(c: Column, s: State, t: Tid, a: Id, grant: Option<nat>, eff: Option<Effect>)
    requires t in s.txns
    ensures s.commits <= Finish(c, s, t, a, grant, eff).commits
  {
    hide Settle, Freed;
  }

  lemma {:induction false} ExecSplit(c: Column, s: State, acts: seq<Action>, more: seq<Action>)
    ensures Exec(c, s, acts + more) == Exec(c, Exec(c, s, acts), more)
  {
    hide Next;
    if more == [] {
      assert acts + more == acts;
    } else {
      var n := |more| - 1;
      ExecSplit(c, s, acts, more[..n]);
      assert (acts + more)[..|acts + more| - 1] == acts + more[..n];
    }
  }

  lemma RemembersAcross(a: Db, b: Db, d: Db)
    requires Remembers(a, b) && Remembers(b, d)
    ensures Remembers(a, d)
  {}

  lemma {:induction false} SerialRemembers(c: Column, work: seq<(Request, Env)>, more: seq<(Request, Env)>)
    ensures Remembers(Serial(c, EMPTY, work), Serial(c, EMPTY, work + more))
  {
    hide After, Remembers;
    if more == [] {
      assert work + more == work;
      assert Remembers(Serial(c, EMPTY, work), Serial(c, EMPTY, work)) by { SelfRemembers(Serial(c, EMPTY, work)); }
    } else {
      var n := |more| - 1;
      SerialRemembers(c, work, more[..n]);
      assert (work + more)[..|work + more| - 1] == work + more[..n];
      NextRemembers(c, work + more[..n], more[n].0, more[n].1);
      RemembersAcross(Serial(c, EMPTY, work), Serial(c, EMPTY, work + more[..n]), Serial(c, EMPTY, work + more));
    }
  }

  lemma SelfRemembers(db: Db)
    ensures Remembers(db, db)
  {}

  lemma NextRemembers(c: Column, work: seq<(Request, Env)>, req: Request, env: Env)
    ensures Remembers(Serial(c, EMPTY, work), After(c, Serial(c, EMPTY, work), req, env))
  {
    hide After, Serial, OrdersFine, LifeCycle, FillsReplay, SharesConserved, DriftBounded, OnGrid;
    EveryRun(c, work);
    HistoryStays(c, Serial(c, EMPTY, work), req, env);
  }

  /** Whatever concurrent workers go on to do: logged executions stay, every order keeps its
      account, a FILLED order never changes and a CANCELLED one never executes. */
  lemma ConcurrentHistoryStays(c: Column, acts: seq<Action>, more: seq<Action>, o: Id)
    ensures var db, db' := Exec(c, Initial(EMPTY), acts).db, Exec(c, Initial(EMPTY), acts + more).db;
            && Remembers(db, db')
            && (o in db.orders && db.orders[o].status == Cancelled ==>
                  forall i :: 0 <= i < |db'.executions| ==> db'.executions[i].orderId != o)
  {
    hide Exec, Remembers, RowsFine, OrdersFine, FillsReplay, SharesConserved, DriftBounded, LimitsOnGrid;
    var s, s' := Exec(c, Initial(EMPTY), acts), Exec(c, Initial(EMPTY), acts + more);
    ExecSplit(c, Initial(EMPTY), acts, more);
    CommitsGrow(c, s, more);
    Serializable(c, EMPTY, acts);
    Serializable(c, EMPTY, acts + more);
    var rest := Work(s'.commits)[|s.commits|..];
    assert Work(s'.commits) == Work(s.commits) + rest;
    SerialRemembers(c, Work(s.commits), rest);
    ConcurrentLedger(c, acts + more);
    if o in s.db.orders && s.db.orders[o].status == Cancelled {
      CancelledStays(s.db, s'.db, o);
    }
  }

  lemma CancelledStays(db: Db, db': Db, o: Id)
    requires Remembers(db, db') && LifeCycle(db') && o in db.orders && db.orders[o].status == Cancelled
    ensures forall i :: 0 <= i < |db'.executions| ==> db'.executions[i].orderId != o
  {
    forall i | 0 <= i < |db'.executions| ensures db'.executions[i].orderId != o {
      assert FullFill(db', db'.executions[i]);
    }
  }
}
