/** The steps of the lock protocol add up to the transaction: what a transaction commits under
    its locks is its request's outcome on the database as it then stands, and a transaction
    that meets no other runs to that outcome. */
module TradingProgress {
  import opened Basics
  import opened Money
  import opened TradingModels
  import opened TradingLedger
  import opened TradingLocks
  import LedgerInvariants

  /** t has ended as its request ends on db alone: committed, with the same result, or rolled
      back, with none. */
  predicate EndsAs(c: Column, db: Db, s: State, t: Tid, req: Request, env: Env) {
    && t in s.txns && s.db == After(c, db, req, env)
    && s.txns[t].phase == if Run(c, db, req, env).Some? then Committed else RolledBack
  }

  lemma FinishEndsAs(c: Column, s: State, t: Tid, a: Id, grant: Option<nat>, eff: Option<Effect>)
    requires t in s.txns && eff == EffectOf(s.db, s.txns[t].req, s.txns[t].env)
    ensures EndsAs(c, s.db, Finish(c, s, t, a, grant, eff), t, s.txns[t].req, s.txns[t].env)
  {
    hide EffectOf, Admits, Apply, Freed;
  }

  /** In every reachable state: with its rows locked, t's next step commits exactly when its
      request does on the current database, and then leaves exactly that. */
  lemma ReadyStepIsRun(c: Column, db0: Db, s: State, t: Tid)
    requires Inv(c, db0, s) && t in s.txns && s.txns[t].phase.Ready?
    ensures Advance(c, s, t).Some? && EndsAs(c, s.db, Advance(c, s, t).value, t, s.txns[t].req, s.txns[t].env)
  {
    SnapshotDecides(s, t);
    var x := s.txns[t];
    hide EffectOf, Decide, EndsAs, Finish, Inv;
    FinishEndsAs(c, s, t, x.phase.a, Some(x.phase.grant), Decided(Decide(x.req, x.env, x.phase.view)));
  }

  /** A transaction waits exactly for a row that another one has locked. */
  lemma StepWaitsIff(c: Column, s: State, t: Tid)
    requires t in s.txns && !s.txns[t].phase.Ended()
    ensures var req := s.txns[t].req;
            Advance(c, s, t).None? <==>
              match s.txns[t].phase
              case Routed(a) => a in s.accountLocks && s.accountLocks[a] != t
              case HasAccount(a, _, _) =>
                NeedsOrder(req) && req.order in s.orderLocks && s.orderLocks[req.order] != t
              case HasOrder(a, _, _, order) =>
                && NeedsPosition(req) && (a, SymbolOf(req, order)) in s.positionLocks
                && s.positionLocks[(a, SymbolOf(req, order))] != t
              case _ => false
  {
    hide ReadAccount, ReadOrder, ReadPosition, Finish;
  }

  /** A step that goes on locks the row it has read; a position not stored yet has none. */
  lemma StepTakesLock(c: Column, s: State, t: Tid)
    requires t in s.txns && TakesLock(s.txns[t].phase) && Proceeds(c, s, t)
    ensures var req, s' := s.txns[t].req, Advance(c, s, t).value;
            match s.txns[t].phase
            case Routed(a) => s'.accountLocks == s.accountLocks[a := t]
            case HasAccount(a, _, _) =>
              s'.orderLocks == if NeedsOrder(req) then s.orderLocks[req.order := t] else s.orderLocks
            case HasOrder(a, _, _, order) =>
              var k := (a, SymbolOf(req, order));
              s'.positionLocks ==
              if NeedsPosition(req) && k in s.db.positions then s.positionLocks[k := t] else s.positionLocks
  {
    hide ReadAccount, ReadOrder, ReadPosition, Freed;
  }

  /** Ending gives up all of t's locks and nobody else's. */
  lemma EndReleases<K>(locks: map<K, Tid>, t: Tid, k: K)
    ensures k in Freed(locks, t) <==> k in locks && locks[k] != t
    ensures k in Freed(locks, t) ==> Freed(locks, t)[k] == locks[k]
  {}

  /** A crash keeps nobody waiting: whoever waited for the account row of the crashed
      transaction, or for a later one, can go on. */
  lemma CrashUnblocks(c: Column, db0: Db, acts: seq<Action>, t: Tid, u: Tid)
    requires LedgerInvariants.SymbolsAgree(db0)
    requires var s := Exec(c, Initial(db0), acts);
             && t in s.txns && s.txns[t].phase.Routed? && s.txns[t].phase.a in s.accountLocks
             && u == s.accountLocks[s.txns[t].phase.a] && u != t
    ensures var s' := Exec(c, Initial(db0), acts + [Crash(u)]);
            && s'.db == Exec(c, Initial(db0), acts).db && s'.commits == Exec(c, Initial(db0), acts).commits
            && u in s'.txns && s'.txns[u].phase == RolledBack
            && t in s'.txns && s'.txns[t].phase.Routed? && Advance(c, s', t).Some?
  {
    Reachable(c, db0, acts);
    assert (acts + [Crash(u)])[..|acts|] == acts;
    var s := Exec(c, Initial(db0), acts);
    assert LocksOwned(s);
    hide LocksOwned, Inv, Advance, Next;
    CrashFreesAccount(c, s, t, u);
  }

  lemma CrashFreesAccount(c: Column, s: State, t: Tid, u: Tid)
    requires LocksOwned(s) && t in s.txns && s.txns[t].phase.Routed? && s.txns[t].phase.a in s.accountLocks
    requires u == s.accountLocks[s.txns[t].phase.a] && u != t
    ensures var s' := Next(c, s, Crash(u));
            && s'.db == s.db && s'.commits == s.commits && u in s'.txns && s'.txns[u].phase == RolledBack
            && t in s'.txns && s'.txns[t].phase.Routed? && Advance(c, s', t).Some?
  {
    hide ReadAccount;
  }

  function Steps(t: Tid, n: nat): seq<Action> {
    seq(n, i => Step(t))
  }

  lemma FirstStep(c: Column, s: State, t: Tid, n: nat)
    requires n > 0 && t in s.txns
    ensures Exec(c, s, Steps(t, n)) == Exec(c, Next(c, s, Step(t)), Steps(t, n - 1))
    decreases n
  {
    hide Next;
    assert Steps(t, n)[..n - 1] == Steps(t, n - 1);
    if n == 1 {
      assert Steps(t, 0) == [];
    } else {
      FirstStep(c, s, t, n - 1);
      assert Steps(t, n - 1)[..n - 2] == Steps(t, n - 2);
    }
  }

  /** A transaction that has ended takes no more steps. */
  lemma {:induction false} EndedStays(c: Column, s: State, t: Tid, n: nat)
    requires t in s.txns && s.txns[t].phase.Ended()
    ensures Exec(c, s, Steps(t, n)) == s
  {
    if n == 0 {
      assert Steps(t, 0) == [];
    } else {
      EndedStays(c, s, t, n - 1);
      assert Steps(t, n)[..n - 1] == Steps(t, n - 1);
    }
  }

  function StepsLeft(p: Phase): nat {
    match p
    case Start => 5
    case Routed(_) => 4
    case HasAccount(_, _, _) => 3
    case HasOrder(_, _, _, _) => 2
    case Ready(_, _, _) => 1
    case _ => 0
  }

  /** Nobody holds the account row t will ask for, or t holds it already. */
  predicate AccountIsFree(s: State, t: Tid)
    requires t in s.txns
  {
    match s.txns[t].phase
    case Start => var a := Route(s.db, s.txns[t].req); a.Some? ==> a.value !in s.accountLocks
    case Routed(a) => a !in s.accountLocks
    case _ => true
  }

  lemma FreeCanStep(c: Column, db0: Db, s: State, t: Tid)
    requires Inv(c, db0, s) && t in s.txns && !s.txns[t].phase.Ended() && AccountIsFree(s, t)
    ensures Advance(c, s, t).Some?
  {
    assert SnapshotStands(s, t);
    hide Serial, ReadAccount, ReadOrder, ReadPosition, Finish;
  }

  predicate GoesOn(s: State, s': State, t: Tid)
    requires t in s.txns && t in s'.txns
  {
    && s'.db == s.db && s'.txns[t].req == s.txns[t].req && s'.txns[t].env == s.txns[t].env
    && StepsLeft(s'.txns[t].phase) == StepsLeft(s.txns[t].phase) - 1 && AccountIsFree(s', t)
  }

  lemma RoutingGoesOn(c: Column, s: State, t: Tid)
    requires t in s.txns && Proceeds(c, s, t) && AccountIsFree(s, t)
    requires s.txns[t].phase.Start? && !s.txns[t].req.OpenAccount?
    ensures GoesOn(s, Advance(c, s, t).value, t)
  {
    hide Route, Freed, Finish;
  }

  lemma LockingGoesOn(c: Column, s: State, t: Tid)
    requires t in s.txns && Proceeds(c, s, t) && TakesLock(s.txns[t].phase)
    ensures GoesOn(s, Advance(c, s, t).value, t)
  {
    hide ReadAccount, ReadOrder, ReadPosition, Freed, Route;
  }

  /** A transaction ends early only where its request has no effect. */
  lemma EarlyEndIsRefusal(c: Column, s: State, t: Tid)
    requires t in s.txns && SnapshotStands(s, t) && Advance(c, s, t).Some? && !Proceeds(c, s, t)
    requires !s.txns[t].phase.Ready? && !(s.txns[t].phase.Start? && s.txns[t].req.OpenAccount?)
    ensures EffectOf(s.db, s.txns[t].req, s.txns[t].env).None?
  {
    hide Decide, AccountLoads, PositionLoads, Freed;
  }

  lemma ProceedingKeeps(c: Column, db0: Db, s: State, t: Tid)
    requires Inv(c, db0, s) && t in s.txns && Proceeds(c, s, t)
    ensures Inv(c, db0, Advance(c, s, t).value)
  {
    hide Inv;
    StepKeeps(c, db0, s, t);
  }

  lemma RefusedEndsAs(c: Column, s: State, t: Tid)
    requires t in s.txns && EffectOf(s.db, s.txns[t].req, s.txns[t].env).None?
    ensures EndsAs(c, s.db, End(s, t, RolledBack), t, s.txns[t].req, s.txns[t].env)
  {
    hide EffectOf, Freed;
  }

  predicate Decides(c: Column, s: State, t: Tid)
    requires t in s.txns
  {
    s.txns[t].phase.Ready? || (s.txns[t].phase.Start? && s.txns[t].req.OpenAccount?) || !Proceeds(c, s, t)
  }

  /** A step that decides, or that cannot go on, ends t as its request ends. */
  lemma DecidingStepEnds(c: Column, db0: Db, s: State, t: Tid)
    requires Inv(c, db0, s) && t in s.txns && Advance(c, s, t).Some? && Decides(c, s, t)
    ensures EndsAs(c, s.db, Advance(c, s, t).value, t, s.txns[t].req, s.txns[t].env)
  {
    var x := s.txns[t];
    assert SnapshotStands(s, t);
    hide Inv, EffectOf, Decide, EndsAs, SnapshotStands;
    if x.phase.Ready? {
      ReadyStepIsRun(c, db0, s, t);
    } else if x.phase.Start? && x.req.OpenAccount? {
      FinishEndsAs(c, s, t, x.req.account, None, EffectOf(s.db, x.req, x.env));
      hide Finish;
    } else {
      EarlyEndIsRefusal(c, s, t);
      StepEnds(c, s, t);
      RefusedEndsAs(c, s, t);
    }
  }

  lemma EndedAs(c: Column, db: Db, s: State, t: Tid, req: Request, env: Env)
    requires EndsAs(c, db, s, t, req, env)
    ensures t in s.txns && s.txns[t].phase.Ended()
  {
    hide Run, After;
  }

  lemma StepIsAdvance(c: Column, s: State, t: Tid)
    requires t in s.txns && Advance(c, s, t).Some?
    ensures Next(c, s, Step(t)) == Advance(c, s, t).value
    ensures Proceeds(c, s, t) ==> t in Advance(c, s, t).value.txns && !Advance(c, s, t).value.txns[t].phase.Ended()
  {
    hide Advance;
  }

  /** Left alone, t ends as its request does. */
  lemma {:induction false} RunsToItsEnd(c: Column, db0: Db, s: State, t: Tid, n: nat)
    requires Inv(c, db0, s) && t in s.txns && !s.txns[t].phase.Ended() && AccountIsFree(s, t)
    requires n >= StepsLeft(s.txns[t].phase)
    ensures EndsAs(c, s.db, Exec(c, s, Steps(t, n)), t, s.txns[t].req, s.txns[t].env)
    decreases n
  {
    hide Inv, Exec, Next, Advance, Proceeds, EndsAs, AccountIsFree;
    FreeCanStep(c, db0, s, t);
    FirstStep(c, s, t, n);
    StepIsAdvance(c, s, t);
    var s' := Advance(c, s, t).value;
    if Decides(c, s, t) {
      DecidingStepEnds(c, db0, s, t);
      EndedAs(c, s.db, s', t, s.txns[t].req, s.txns[t].env);
      EndedStays(c, s', t, n - 1);
    } else {
      ProceedingKeeps(c, db0, s, t);
      if s.txns[t].phase.Start? { RoutingGoesOn(c, s, t); } else { LockingGoesOn(c, s, t); }
      RunsToItsEnd(c, db0, s', t, n - 1);
    }
  }

  /** Whatever concurrent transactions have done so far: a new one that finds its account row
      unlocked and is not interrupted does what its request does on the current database. */
  lemma LoneTransactionIsRun(c: Column, db0: Db, acts: seq<Action>, t: Tid, req: Request, env: Env)
    requires LedgerInvariants.SymbolsAgree(db0)
    requires var s := Exec(c, Initial(db0), acts);
             t !in s.txns && (Route(s.db, req).Some? ==> Route(s.db, req).value !in s.accountLocks)
    ensures var s := Exec(c, Initial(db0), acts);
            EndsAs(c, s.db, Exec(c, Next(c, s, Begin(t, req, env)), Steps(t, 5)), t, req, env)
  {
    Reachable(c, db0, acts);
    var s := Exec(c, Initial(db0), acts);
    hide Exec, Inv, Route, EndsAs;
    BeginKeeps(c, db0, s, t, req, env);
    var begun := Next(c, s, Begin(t, req, env));
    assert begun.txns[t] == Txn(req, env, Start) && begun.db == s.db && begun.accountLocks == s.accountLocks;
    RunsToItsEnd(c, db0, begun, t, 5);
  }
}
