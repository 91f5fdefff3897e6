/** Concurrent trading transactions under row locks.  Each transaction takes its steps one
    at a time, interleaved with any others: routing read, account lock, order lock, position
    lock, then domain operation, writes and commit.  It may also crash between any two. */
module TradingLocks {
  import opened Basics
  import opened Money
  import opened TradingModels
  import opened TradingLedger
  import LedgerInvariants

  type Tid = nat

  /** How far a transaction got; what it read under its locks so far; which account-lock
      grant (counted over the whole run) it was given. */
  datatype Phase =
    | Start
    | Routed(a: Id)
    | HasAccount(a: Id, grant: nat, account: AccountRow)
    | HasOrder(a: Id, grant: nat, account: AccountRow, order: Option<OrderRow>)
    | Ready(a: Id, grant: nat, view: View)
    | Committed
    | RolledBack
  {
    predicate HoldsAccount() {
      HasAccount? || HasOrder? || Ready?
    }

    predicate Ended() {
      Committed? || RolledBack?
    }
  }

  datatype Txn = Txn(req: Request, env: Env, phase: Phase)

  /** A committed transaction; opening an account takes no lock. */
  datatype Commit = Commit(account: Id, grant: Option<nat>, req: Request, env: Env)

  datatype State = State(
    db: Db,
    txns: map<Tid, Txn>,
    accountLocks: map<Id, Tid>,
    orderLocks: map<Id, Tid>,
    positionLocks: map<(Id, Symbol), Tid>,
    grants: seq<Tid>,
    commits: seq<Commit>)

  datatype Action = Begin(t: Tid, req: Request, env: Env) | Step(t: Tid) | Crash(t: Tid)

  function Initial(db: Db): State {
    State(db, map[], map[], map[], map[], [], [])
  }

  predicate Taken<K>(locks: map<K, Tid>, k: K, t: Tid) {
    k in locks && locks[k] != t
  }

  function Freed<K>(locks: map<K, Tid>, t: Tid): map<K, Tid> {
    map k | k in locks && locks[k] != t :: locks[k]
  }

  function SetPhase(s: State, t: Tid, p: Phase): State
    requires t in s.txns
  {
    s.(txns := s.txns[t := s.txns[t].(phase := p)])
  }

  /** The transaction ends and every row lock it holds is released. */
  function End(s: State, t: Tid, p: Phase): State
    requires t in s.txns
  {
    SetPhase(s, t, p).(accountLocks := Freed(s.accountLocks, t), orderLocks := Freed(s.orderLocks, t),
                       positionLocks := Freed(s.positionLocks, t))
  }

  function Finish(c: Column, s: State, t: Tid, a: Id, grant: Option<nat>, eff: Option<Effect>): State
    requires t in s.txns
  {
    var out := Settle(c, s.db, eff, s.txns[t].env.accepted);
    if out.None? then End(s, t, RolledBack)
    else End(s, t, Committed).(db := out.value,
                               commits := s.commits + [Commit(a, grant, s.txns[t].req, s.txns[t].env)])
  }

  /** The next step of t; None while it waits for a row lock. */
  function Advance(c: Column, s: State, t: Tid): Option<State>
    requires t in s.txns
  {
    var req := s.txns[t].req;
    match s.txns[t].phase
    case Start =>
      if req.OpenAccount? then Some(Finish(c, s, t, req.account, None, EffectOf(s.db, req, s.txns[t].env)))
      else
        var a := Route(s.db, req);
        Some(if a.None? then End(s, t, RolledBack) else SetPhase(s, t, Routed(a.value)))
    case Routed(a) =>
      if Taken(s.accountLocks, a, t) then None
      else
        var account := ReadAccount(s.db, a);
        Some(if account.None? then End(s, t, RolledBack)
             else SetPhase(s, t, HasAccount(a, |s.grants|, account.value))
                  .(accountLocks := s.accountLocks[a := t], grants := s.grants + [t]))
    case HasAccount(a, g, account) =>
      if !NeedsOrder(req) then Some(SetPhase(s, t, HasOrder(a, g, account, None)))
      else if Taken(s.orderLocks, req.order, t) then None
      else
        var order := ReadOrder(s.db, req.order);
        Some(if order.None? || order.value.accountId != a then End(s, t, RolledBack)
             else SetPhase(s, t, HasOrder(a, g, account, order)).(orderLocks := s.orderLocks[req.order := t]))
    case HasOrder(a, g, account, order) =>
      if !NeedsPosition(req) then Some(SetPhase(s, t, Ready(a, g, View(a, account, order, None))))
      else
        var k := (a, SymbolOf(req, order));
        if Taken(s.positionLocks, k, t) then None
        else
          var position := ReadPosition(s.db, a, k.1);
          if position.None? then Some(End(s, t, RolledBack))
          else
            var s' := SetPhase(s, t, Ready(a, g, View(a, account, order, position)));
            Some(if k in s.db.positions then s'.(positionLocks := s.positionLocks[k := t]) else s')
    case Ready(a, g, v) =>
      Some(Finish(c, s, t, a, Some(g), if Decidable(req, v) then Decided(Decide(req, s.txns[t].env, v)) else None))
    case _ => None
  }

  predicate Decidable(req: Request, v: View) {
    && (NeedsOrder(req) ==> v.order.Some?)
    && (NeedsPosition(req) ==> v.position.Some? && PositionLoads(v.position.value))
  }

  /** One action of the environment; actions that are not possible change nothing. */
  function Next(c: Column, s: State, act: Action): State {
    match act
    case Begin(t, req, env) => if t in s.txns then s else s.(txns := s.txns[t := Txn(req, env, Start)])
    case Step(t) =>
      if t !in s.txns then s
      else
        var s' := Advance(c, s, t);
        if s'.Some? then s'.value else s
    case Crash(t) => if t in s.txns && !s.txns[t].phase.Ended() then End(s, t, RolledBack) else s
  }

  function Exec(c: Column, s: State, acts: seq<Action>): State {
    if acts == [] then s
    else Next(c, Exec(c, s, acts[..|acts| - 1]), acts[|acts| - 1])
  }

  function Work(commits: seq<Commit>): seq<(Request, Env)> {
    seq(|commits|, i requires 0 <= i < |commits| => (commits[i].req, commits[i].env))
  }

  // ------------------------------------------------------------ invariant

  predicate RouteStands(db: Db, req: Request, a: Id) {
    && !req.OpenAccount?
    && (NeedsOrder(req) ==> req.order in db.orders && db.orders[req.order].accountId == a)
    && (!NeedsOrder(req) ==> Route(db, req) == Some(a))
  }

  predicate GrantedBefore(k: Commit, a: Id, g: nat) {
    k.account == a && k.grant.Some? ==> k.grant.value < g
  }

  predicate HasGrant(s: State, t: Tid, a: Id, g: nat) {
    && a in s.accountLocks && s.accountLocks[a] == t
    && g < |s.grants| && s.grants[g] == t
    && forall i :: 0 <= i < |s.commits| ==> GrantedBefore(s.commits[i], a, g)
  }

  predicate OrderStands(db: Db, req: Request, order: Option<OrderRow>) {
    order == if NeedsOrder(req) then ReadOrder(db, req.order) else None
  }

  /** What t read under its locks is still what the tables hold. */
  predicate SnapshotStands(s: State, t: Tid)
    requires t in s.txns
  {
    var req := s.txns[t].req;
    match s.txns[t].phase
    case Routed(a) => RouteStands(s.db, req, a)
    case HasAccount(a, g, account) =>
      RouteStands(s.db, req, a) && HasGrant(s, t, a, g) && ReadAccount(s.db, a) == Some(account)
    case HasOrder(a, g, account, order) =>
      && RouteStands(s.db, req, a) && HasGrant(s, t, a, g) && ReadAccount(s.db, a) == Some(account)
      && OrderStands(s.db, req, order) && (NeedsOrder(req) ==> order.Some?)
    case Ready(a, g, v) =>
      RouteStands(s.db, req, a) && HasGrant(s, t, a, g) && Read(s.db, req, a) == Some(v)
    case _ => true
  }

  /** Every lock is held by a live transaction that holds the owning account's lock. */
  predicate LocksOwned(s: State) {
    && (forall a :: a in s.accountLocks ==>
          var t := s.accountLocks[a];
          t in s.txns && s.txns[t].phase.HoldsAccount() && s.txns[t].phase.a == a)
    && (forall o :: o in s.orderLocks ==>
          var t := s.orderLocks[o];
          && t in s.txns && (s.txns[t].phase.HasOrder? || s.txns[t].phase.Ready?)
          && o in s.db.orders && s.db.orders[o].accountId == s.txns[t].phase.a)
    && (forall k :: k in s.positionLocks ==>
          var t := s.positionLocks[k];
          t in s.txns && s.txns[t].phase.Ready? && s.txns[t].phase.a == k.0)
  }

  /** Commits on one account come in the order their account locks were granted. */
  predicate GrantOrder(commits: seq<Commit>) {
    forall i, j :: 0 <= i < j < |commits| && commits[j].grant.Some? ==>
      GrantedBefore(commits[i], commits[j].account, commits[j].grant.value)
  }

  ghost predicate Inv(c: Column, db0: Db, s: State) {
    && LedgerInvariants.SymbolsAgree(s.db)
    && (forall t :: t in s.txns ==> SnapshotStands(s, t))
    && LocksOwned(s)
    && GrantOrder(s.commits)
    && (forall i :: 0 <= i < |s.commits| && s.commits[i].grant.Some? ==> s.commits[i].grant.value < |s.grants|)
    && Serial(c, db0, Work(s.commits)) == s.db
  }

  // ------------------------------------------------------------ what a commit touches

  /** All rows an effect writes belong to account a, or are new. */
  predicate TouchesOnly(db: Db, a: Id, eff: Effect) {
    match eff
    case Nothing => true
    case Opened(b, _) => b !in db.accounts
    case Placed(o, row) => o !in db.orders
    case Retired(o, row) => o in db.orders && db.orders[o].accountId == a && row.accountId == a
    case Traded(o, insert, f, e) =>
      && e.accountId == a && f.order.accountId == a
      && (if insert then o !in db.orders else o in db.orders && db.orders[o].accountId == a)
  }

  ghost predicate Undisturbed(db: Db, db': Db, a: Id) {
    && (forall b :: b in db.accounts && b != a ==> b in db'.accounts && db'.accounts[b] == db.accounts[b])
    && (forall b, s :: b != a ==> PositionAt(db', b, s) == PositionAt(db, b, s))
    && (forall o :: o in db.orders ==>
          o in db'.orders && db'.orders[o].accountId == db.orders[o].accountId
          && (db.orders[o].accountId != a ==> db'.orders[o] == db.orders[o]))
  }

  lemma EffectsStayInside(db: Db, req: Request, env: Env, a: Id, eff: Effect)
    requires LedgerInvariants.SymbolsAgree(db) && RouteStands(db, req, a)
    requires EffectOf(db, req, env) == Some(eff) && (eff.Placed? || (eff.Traded? && eff.insert) ==> eff.o !in db.orders)
    ensures TouchesOnly(db, a, eff)
  {
    LedgerInvariants.EffectsAreSound(db, req, env);
  }

  lemma OthersUndisturbed(c: Column, db: Db, a: Id, eff: Effect)
    requires TouchesOnly(db, a, eff)
    ensures Undisturbed(db, Apply(c, db, eff), a)
  {
  }

  lemma SymbolsStayAgreed(c: Column, db: Db, req: Request, env: Env)
    requires LedgerInvariants.SymbolsAgree(db)
    ensures LedgerInvariants.SymbolsAgree(After(c, db, req, env))
  {
  }

  /** With its locks held, what t decides from its snapshot is what it would do alone now. */
  lemma SnapshotDecides(s: State, t: Tid)
    requires t in s.txns && s.txns[t].phase.Ready? && SnapshotStands(s, t)
    ensures var x := s.txns[t];
            && Decidable(x.req, x.phase.view)
            && EffectOf(s.db, x.req, x.env) == Decided(Decide(x.req, x.env, x.phase.view))
  {
  }

  lemma SerialAppend(c: Column, db0: Db, commits: seq<Commit>, k: Commit)
    ensures Serial(c, db0, Work(commits + [k])) == After(c, Serial(c, db0, Work(commits)), k.req, k.env)
  {
    var work := Work(commits + [k]);
    assert work[..|work| - 1] == Work(commits);
  }

  // ------------------------------------------------------------ preservation

  lemma EndKeeps(c: Column, db0: Db, s: State, t: Tid)
    requires Inv(c, db0, s) && t in s.txns && !s.txns[t].phase.Ended()
    ensures Inv(c, db0, End(s, t, RolledBack))
  {
    var s' := End(s, t, RolledBack);
    forall u | u in s'.txns ensures SnapshotStands(s', u) {
      assert u in s.txns && SnapshotStands(s, u);
    }
  }

  /** Whatever t commits, every other transaction's snapshot stays current. */
  lemma CommitKeepsOthers(c: Column, s: State, s': State, t: Tid, a: Id, k: Commit, eff: Effect)
    requires t in s.txns && LocksOwned(s) && (forall u :: u in s.txns ==> SnapshotStands(s, u))
    requires TouchesOnly(s.db, a, eff) && k.account == a
    requires eff.Opened? ==> a !in s.db.accounts && eff.a == a && k.grant.None?
    requires !eff.Opened? ==> a in s.accountLocks && s.accountLocks[a] == t
    requires s' == End(s, t, Committed).(db := Apply(c, s.db, eff), commits := s.commits + [k])
    ensures forall u :: u in s'.txns ==> SnapshotStands(s', u)
    ensures LocksOwned(s')
  {
    hide Apply, SnapshotStands, LocksOwned, Freed, TouchesOnly;
    OthersUndisturbed(c, s.db, a, eff);
    EndedLocksOwned(s, s', t, a);
    forall u | u in s'.txns ensures SnapshotStands(s', u) {
      if u != t {
        CommitKeepsSnapshot(s, s', t, a, k, eff, u);
      } else {
        EndedStands(s', t);
      }
    }
  }

  lemma EndedStands(s: State, t: Tid)
    requires t in s.txns && s.txns[t].phase.Ended()
    ensures SnapshotStands(s, t)
  {}

  lemma EndedLocksOwned(s: State, s': State, t: Tid, a: Id)
    requires t in s.txns && t in s'.txns && LocksOwned(s) && Undisturbed(s.db, s'.db, a)
    requires s'.txns == s.txns[t := s'.txns[t]] && s'.accountLocks == Freed(s.accountLocks, t)
    requires s'.orderLocks == Freed(s.orderLocks, t) && s'.positionLocks == Freed(s.positionLocks, t)
    ensures LocksOwned(s')
  {}

  lemma CommitKeepsSnapshot(s: State, s': State, t: Tid, a: Id, k: Commit, eff: Effect, u: Tid)
    requires t in s.txns && u in s.txns && u != t && u in s'.txns && s'.txns[u] == s.txns[u]
    requires SnapshotStands(s, u) && Undisturbed(s.db, s'.db, a) && k.account == a
    requires s'.accountLocks == Freed(s.accountLocks, t) && s'.grants == s.grants && s'.commits == s.commits + [k]
    requires (a in s.accountLocks && s.accountLocks[a] == t) || (a !in s.db.accounts && k.grant.None?)
    ensures SnapshotStands(s', u)
  {
    var phase := s.txns[u].phase;
    if phase.HoldsAccount() {
      assert phase.a in s'.accountLocks;
      if phase.a != a {
        assert HasGrant(s', u, phase.a, phase.grant);
      }
    }
  }

  lemma ReadyCommitKeeps(c: Column, db0: Db, s: State, t: Tid)
    requires Inv(c, db0, s) && t in s.txns && s.txns[t].phase.Ready?
    ensures Inv(c, db0, Advance(c, s, t).value)
  {
    SnapshotDecides(s, t);
    var x := s.txns[t];
    var a, g := x.phase.a, x.phase.grant;
    var eff := EffectOf(s.db, x.req, x.env);
    hide EffectOf, Decide, Apply;
    if Settle(c, s.db, eff, x.env.accepted).None? {
      EndKeeps(c, db0, s, t);
    } else {
      var k := Commit(a, Some(g), x.req, x.env);
      EffectsStayInside(s.db, x.req, x.env, a, eff.value);
      NotOpening(s.db, x.req, x.env);
      AppendKeeps(c, db0, s, Advance(c, s, t).value, t, a, k, eff.value);
    }
  }

  lemma AppendKeeps(c: Column, db0: Db, s: State, s': State, t: Tid, a: Id, k: Commit, eff: Effect)
    requires Inv(c, db0, s) && t in s.txns && k.account == a && TouchesOnly(s.db, a, eff)
    requires EffectOf(s.db, k.req, k.env) == Some(eff) && k.env.accepted && Admits(c, s.db, eff)
    requires eff.Opened? ==> a !in s.db.accounts && eff.a == a && k.grant.None?
    requires !eff.Opened? ==> k.grant.Some? && HasGrant(s, t, a, k.grant.value)
    requires s' == End(s, t, Committed).(db := Apply(c, s.db, eff), commits := s.commits + [k])
    ensures Inv(c, db0, s')
  {
    hide EffectOf, Apply;
    CommitKeepsOthers(c, s, s', t, a, k, eff);
    SerialAppend(c, db0, s.commits, k);
    SymbolsStayAgreed(c, s.db, k.req, k.env);
    assert GrantOrder(s'.commits);
  }

  lemma NotOpening(db: Db, req: Request, env: Env)
    requires !req.OpenAccount? && EffectOf(db, req, env).Some?
    ensures !EffectOf(db, req, env).value.Opened?
  {
  }

  lemma OpeningKeeps(c: Column, db0: Db, s: State, t: Tid)
    requires Inv(c, db0, s) && t in s.txns && s.txns[t].phase.Start? && s.txns[t].req.OpenAccount?
    ensures Inv(c, db0, Advance(c, s, t).value)
  {
    var x := s.txns[t];
    var a, eff := x.req.account, EffectOf(s.db, x.req, x.env);
    if Settle(c, s.db, eff, x.env.accepted).None? {
      EndKeeps(c, db0, s, t);
    } else {
      AppendKeeps(c, db0, s, Advance(c, s, t).value, t, a, Commit(a, None, x.req, x.env), eff.value);
    }
  }

  /** Nothing changed but t's phase, and locks and grants were at most added. */
  predicate Passes(s: State, s': State, t: Tid) {
    && t in s.txns && t in s'.txns
    && s'.txns == s.txns[t := s'.txns[t]] && s'.db == s.db && s'.commits == s.commits
    && s.grants <= s'.grants
    && forall a :: a in s.accountLocks ==> a in s'.accountLocks && s'.accountLocks[a] == s.accountLocks[a]
  }

  /** Taking a lock, or passing a phase, changes nobody else's snapshot. */
  lemma PassingKeeps(c: Column, db0: Db, s: State, s': State, t: Tid)
    requires Inv(c, db0, s) && Passes(s, s', t)
    requires SnapshotStands(s', t) && LocksOwned(s')
    ensures Inv(c, db0, s')
  {
    hide Serial, Read, Route, ReadOrder, ReadAccount;
    forall u | u in s'.txns && u != t ensures SnapshotStands(s', u) {
      assert SnapshotStands(s, u);
    }
  }

  /** t can take a step, and does not end with it. */
  predicate Proceeds(c: Column, s: State, t: Tid)
    requires t in s.txns
  {
    var next := Advance(c, s, t);
    next.Some? && t in next.value.txns && !next.value.txns[t].phase.Ended()
  }

  predicate TakesLock(p: Phase) {
    p.Routed? || p.HasAccount? || p.HasOrder?
  }

  lemma LockPasses(c: Column, s: State, t: Tid)
    requires t in s.txns && TakesLock(s.txns[t].phase)
    requires Proceeds(c, s, t)
    ensures Passes(s, Advance(c, s, t).value, t)
  {
    hide ReadAccount, ReadOrder, ReadPosition, Freed;
  }

  lemma AccountLockTaken(c: Column, s: State, t: Tid)
    requires t in s.txns && s.txns[t].phase.Routed? && SnapshotStands(s, t) && LocksOwned(s)
    requires forall i :: 0 <= i < |s.commits| && s.commits[i].grant.Some? ==> s.commits[i].grant.value < |s.grants|
    requires Proceeds(c, s, t)
    ensures SnapshotStands(Advance(c, s, t).value, t) && LocksOwned(Advance(c, s, t).value)
  {
    hide ReadAccount, ReadOrder, ReadPosition, Route;
  }

  lemma OrderSnapshot(c: Column, s: State, t: Tid)
    requires t in s.txns && s.txns[t].phase.HasAccount? && SnapshotStands(s, t)
    requires Proceeds(c, s, t)
    ensures var s' := Advance(c, s, t).value; SnapshotStands(s', t)
  {}

  lemma PositionSnapshot(c: Column, s: State, t: Tid)
    requires t in s.txns && s.txns[t].phase.HasOrder? && SnapshotStands(s, t)
    requires Proceeds(c, s, t)
    ensures var s' := Advance(c, s, t).value; SnapshotStands(s', t)
  {}

  /** The row locks t may hold after its next step, given those it held before. */
  predicate LocksAdded(s: State, s': State, t: Tid)
    requires t in s.txns && t in s'.txns && s.txns[t].phase.HoldsAccount() && s'.txns[t].phase.HoldsAccount()
  {
    var a := s.txns[t].phase.a;
    && s'.txns[t].phase.a == a && s'.accountLocks == s.accountLocks
    && (s.txns[t].phase.HasOrder? ==> s'.txns[t].phase.Ready?)
    && (forall o :: o in s'.orderLocks ==>
          || (o in s.orderLocks && s'.orderLocks[o] == s.orderLocks[o])
          || (s'.orderLocks[o] == t && o in s.db.orders && s.db.orders[o].accountId == a))
    && (forall k :: k in s'.positionLocks ==>
          || (k in s.positionLocks && s'.positionLocks[k] == s.positionLocks[k])
          || (s'.positionLocks[k] == t && k.0 == a && s'.txns[t].phase.Ready?))
  }

  lemma AddedLocksOwned(s: State, s': State, t: Tid)
    requires LocksOwned(s) && Passes(s, s', t)
    requires s.txns[t].phase.HasAccount? || s.txns[t].phase.HasOrder?
    requires s'.txns[t].phase.HasOrder? || s'.txns[t].phase.Ready?
    requires LocksAdded(s, s', t)
    ensures LocksOwned(s')
  {}

  lemma OrderStepAddsLocks(c: Column, s: State, t: Tid)
    requires t in s.txns && s.txns[t].phase.HasAccount? && SnapshotStands(s, t) && Proceeds(c, s, t)
    ensures var s' := Advance(c, s, t).value;
            s'.txns[t].phase.HasOrder? && LocksAdded(s, s', t)
  {
    hide ReadAccount, ReadPosition, Route, HasGrant, Freed;
  }

  lemma PositionStepAddsLocks(c: Column, s: State, t: Tid)
    requires t in s.txns && s.txns[t].phase.HasOrder? && Proceeds(c, s, t)
    ensures var s' := Advance(c, s, t).value;
            s'.txns[t].phase.Ready? && LocksAdded(s, s', t)
  {
    hide ReadAccount, ReadOrder, ReadPosition, Route, Freed;
  }

  lemma LockKeeps(c: Column, db0: Db, s: State, t: Tid)
    requires Inv(c, db0, s) && t in s.txns && TakesLock(s.txns[t].phase)
    requires Proceeds(c, s, t)
    ensures Inv(c, db0, Advance(c, s, t).value)
  {
    hide Advance, Serial, SnapshotStands, LocksOwned, GrantOrder, Passes, LocksAdded;
    var s' := Advance(c, s, t).value;
    LockPasses(c, s, t);
    if s.txns[t].phase.Routed? {
      AccountLockTaken(c, s, t);
    } else {
      if s.txns[t].phase.HasAccount? {
        OrderSnapshot(c, s, t);
        OrderStepAddsLocks(c, s, t);
      } else {
        PositionSnapshot(c, s, t);
        PositionStepAddsLocks(c, s, t);
      }
      AddedLocksOwned(s, s', t);
    }
    PassingKeeps(c, db0, s, s', t);
  }

  lemma RoutingKeeps(c: Column, db0: Db, s: State, t: Tid)
    requires Inv(c, db0, s) && t in s.txns && s.txns[t].phase.Start? && !s.txns[t].req.OpenAccount?
    requires Proceeds(c, s, t)
    ensures Inv(c, db0, Advance(c, s, t).value)
  {
    hide Advance, Serial, SnapshotStands, LocksOwned, GrantOrder;
    RoutingPasses(c, s, t);
    PassingKeeps(c, db0, s, Advance(c, s, t).value, t);
  }

  lemma RoutingPasses(c: Column, s: State, t: Tid)
    requires t in s.txns && s.txns[t].phase.Start? && !s.txns[t].req.OpenAccount?
    requires Proceeds(c, s, t) && LocksOwned(s)
    ensures var s' := Advance(c, s, t).value;
            Passes(s, s', t) && SnapshotStands(s', t) && LocksOwned(s')
  {
    hide Finish, EffectOf, Freed;
  }

  /** A step that neither proceeds nor decides ends the transaction. */
  lemma StepEnds(c: Column, s: State, t: Tid)
    requires t in s.txns && Advance(c, s, t).Some? && !Proceeds(c, s, t)
    requires !s.txns[t].phase.Ready? && !(s.txns[t].phase.Start? && s.txns[t].req.OpenAccount?)
    ensures Advance(c, s, t).value == End(s, t, RolledBack) && !s.txns[t].phase.Ended()
  {
    hide ReadAccount, ReadOrder, ReadPosition, Route, Freed;
  }

  lemma StepKeeps(c: Column, db0: Db, s: State, t: Tid)
    requires Inv(c, db0, s) && t in s.txns && Advance(c, s, t).Some?
    ensures Inv(c, db0, Advance(c, s, t).value)
  {
    var phase := s.txns[t].phase;
    assert !phase.Ended();
    hide Inv, Advance, Proceeds;
    if phase.Ready? {
      ReadyCommitKeeps(c, db0, s, t);
    } else if phase.Start? && s.txns[t].req.OpenAccount? {
      OpeningKeeps(c, db0, s, t);
    } else if !Proceeds(c, s, t) {
      StepEnds(c, s, t);
      EndKeeps(c, db0, s, t);
    } else if phase.Start? {
      RoutingKeeps(c, db0, s, t);
    } else {
      LockKeeps(c, db0, s, t);
    }
  }

  lemma BeginKeeps(c: Column, db0: Db, s: State, t: Tid, req: Request, env: Env)
    requires Inv(c, db0, s) && t !in s.txns
    ensures Inv(c, db0, s.(txns := s.txns[t := Txn(req, env, Start)]))
  {
    hide Serial, SnapshotStands, LocksOwned, GrantOrder;
    var s' := s.(txns := s.txns[t := Txn(req, env, Start)]);
    BegunLocksOwned(s, s', t);
    forall u | u in s'.txns ensures SnapshotStands(s', u) {
      BegunStands(s, s', t, u);
    }
  }

  lemma BegunLocksOwned(s: State, s': State, t: Tid)
    requires LocksOwned(s) && t !in s.txns && t in s'.txns
    requires s' == s.(txns := s.txns[t := s'.txns[t]])
    ensures LocksOwned(s')
  {}

  lemma BegunStands(s: State, s': State, t: Tid, u: Tid)
    requires t !in s.txns && t in s'.txns && u in s'.txns && s'.txns[t].phase.Start?
    requires s' == s.(txns := s.txns[t := s'.txns[t]]) && (u in s.txns ==> SnapshotStands(s, u))
    ensures SnapshotStands(s', u)
  {
    hide Read, Route, ReadOrder, ReadAccount;
  }

  lemma {:induction false} Reachable(c: Column, db0: Db, acts: seq<Action>)
    requires LedgerInvariants.SymbolsAgree(db0)
    ensures Inv(c, db0, Exec(c, Initial(db0), acts))
  {
    if acts == [] {
      assert Work([]) == [];
    } else {
      var before, act := acts[..|acts| - 1], acts[|acts| - 1];
      Reachable(c, db0, before);
      var s := Exec(c, Initial(db0), before);
      match act
      case Begin(t, req, env) => if t !in s.txns { BeginKeeps(c, db0, s, t, req, env); }
      case Step(t) => if t in s.txns && Advance(c, s, t).Some? { StepKeeps(c, db0, s, t); }
      case Crash(t) => if t in s.txns && !s.txns[t].phase.Ended() { EndKeeps(c, db0, s, t); }
    }
  }

  // ------------------------------------------------------------ main results

  /** Every interleaving, crashes and refusals included, leaves the database that running
      the committed transactions alone, one after another, leaves; and on each account they
      run in the order in which they were granted the account's lock. */
  lemma Serializable(c: Column, db0: Db, acts: seq<Action>)
    requires LedgerInvariants.SymbolsAgree(db0)
    ensures var s := Exec(c, Initial(db0), acts);
            s.db == Serial(c, db0, Work(s.commits)) && GrantOrder(s.commits)
  {
    Reachable(c, db0, acts);
  }

  /** So everything a serial run keeps holds of every concurrent one: no overdraft, no
      oversell, no order filled twice. */
  lemma ConcurrentLedger(c: Column, acts: seq<Action>)
    ensures LedgerInvariants.Ledger(c, Exec(c, Initial(EMPTY), acts).db)
  {
    Serializable(c, EMPTY, acts);
    LedgerInvariants.EveryRun(c, Work(Exec(c, Initial(EMPTY), acts).commits));
  }

  /** A transaction that holds its account row never waits again. */
  lemma HolderNeverWaits(c: Column, db0: Db, acts: seq<Action>, t: Tid)
    requires LedgerInvariants.SymbolsAgree(db0)
    requires var s := Exec(c, Initial(db0), acts); t in s.txns && s.txns[t].phase.HoldsAccount()
    ensures Advance(c, Exec(c, Initial(db0), acts), t).Some?
  {
    Reachable(c, db0, acts);
    var s := Exec(c, Initial(db0), acts);
    assert SnapshotStands(s, t);
  }

  /** While any transaction is unfinished, some transaction can take a step. */
  lemma NoDeadlock(c: Column, db0: Db, acts: seq<Action>, t: Tid) returns (u: Tid)
    requires LedgerInvariants.SymbolsAgree(db0)
    requires var s := Exec(c, Initial(db0), acts); t in s.txns && !s.txns[t].phase.Ended()
    ensures var s := Exec(c, Initial(db0), acts); u in s.txns && Advance(c, s, u).Some?
    ensures var s := Exec(c, Initial(db0), acts);
            || u == t
            || (s.txns[t].phase.Routed? && s.txns[t].phase.a in s.accountLocks
                && s.accountLocks[s.txns[t].phase.a] == u)
  {
    Reachable(c, db0, acts);
    var s := Exec(c, Initial(db0), acts);
    u := t;
    if s.txns[t].phase.Routed? {
      var a := s.txns[t].phase.a;
      if Taken(s.accountLocks, a, t) {
        u := s.accountLocks[a];
      }
    }
    if u != t || s.txns[t].phase.HoldsAccount() {
      HolderNeverWaits(c, db0, acts, u);
    }
  }

  /** The check that the order's account changed while locks were taken never fires. */
  lemma RoutingNeverMisleads(c: Column, db0: Db, acts: seq<Action>, t: Tid)
    requires LedgerInvariants.SymbolsAgree(db0)
    requires var s := Exec(c, Initial(db0), acts);
             t in s.txns && s.txns[t].phase.HasAccount? && NeedsOrder(s.txns[t].req)
    ensures var s := Exec(c, Initial(db0), acts);
            var x := s.txns[t];
            x.req.order in s.db.orders && s.db.orders[x.req.order].accountId == x.phase.a
  {
    Reachable(c, db0, acts);
    assert SnapshotStands(Exec(c, Initial(db0), acts), t);
  }
}
