/** The pending-order worker: finds pending limit orders without locking anything and puts
    each through the transactional service. */
module PendingOrders {
  import opened Basics
  import opened Money
  import opened TradingModels
  import opened TradingLedger

  datatype WorkerResult = WorkerResult(discovered: nat, filled: nat, stillPending: nat, failed: nat)

  predicate IsPendingLimit(db: Db, o: Id) {
    o in db.orders && db.orders[o].orderType == Limit && db.orders[o].status == Pending
  }

  /** Distinct pending limit orders, at most `limit` of them, and all there are when they fit. */
  ghost predicate IsDiscovery(db: Db, limit: int, ids: seq<Id>) {
    && |ids| <= limit
    && (forall i :: 0 <= i < |ids| ==>
          ids[i] in db.orders && db.orders[ids[i]].orderType == Limit && db.orders[ids[i]].status == Pending)
    && (forall i, j :: 0 <= i < j < |ids| ==> ids[i] != ids[j])
    && (|ids| < limit ==>
          forall o :: o in db.orders && db.orders[o].orderType == Limit && db.orders[o].status == Pending ==> o in ids)
  }

  /** The pass as a run: one process-limit transaction per order, in discovery order. */
  function PassWork(ids: seq<Id>, envs: nat -> Env): seq<(Request, Env)> {
    seq(|ids|, i requires 0 <= i < |ids| => (ProcessLimit(ids[i]), envs(i)))
  }

  /** The ledger as the i-th order's transaction finds it: what other workers have made of
      it since the one before. */
  function Found(db: Db, others: Option<Db>): Db {
    if others.Some? then others.value else db
  }

  /** The ledger after the first n orders of a pass. */
  function PassDb(c: Column, db: Db, ids: seq<Id>, envs: nat -> Env, others: nat -> Option<Db>, n: nat): Db
    requires n <= |ids|
  {
    if n == 0 then db
    else After(c, Found(PassDb(c, db, ids, envs, others, n - 1), others(n - 1)), ProcessLimit(ids[n - 1]), envs(n - 1))
  }

  /** The executions those n transactions have added. */
  function PassFills(c: Column, db: Db, ids: seq<Id>, envs: nat -> Env, others: nat -> Option<Db>, n: nat): int
    requires n <= |ids|
  {
    if n == 0 then 0
    else
      PassFills(c, db, ids, envs, others, n - 1) + |PassDb(c, db, ids, envs, others, n).executions|
      - |Found(PassDb(c, db, ids, envs, others, n - 1), others(n - 1)).executions|
  }

  /** How many of them commit. */
  function PassCommits(c: Column, db: Db, ids: seq<Id>, envs: nat -> Env, others: nat -> Option<Db>, n: nat): int
    requires n <= |ids|
  {
    if n == 0 then 0
    else
      var found := Found(PassDb(c, db, ids, envs, others, n - 1), others(n - 1));
      PassCommits(c, db, ids, envs, others, n - 1)
        + if Run(c, found, ProcessLimit(ids[n - 1]), envs(n - 1)).Some? then 1 else 0
  }

  /** Undisturbed, a pass is the run of its orders' transactions one at a time, and the
      fills it counts are all the executions the ledger gains. */
  lemma {:induction false} UndisturbedPass(c: Column, db: Db, ids: seq<Id>, envs: nat -> Env,
                                           others: nat -> Option<Db>, n: nat)
    requires n <= |ids| && forall i :: 0 <= i < n ==> others(i).None?
    ensures PassDb(c, db, ids, envs, others, n) == Serial(c, db, PassWork(ids[..n], envs))
    ensures |PassDb(c, db, ids, envs, others, n).executions| == |db.executions| + PassFills(c, db, ids, envs, others, n)
  {
    hide After;
    if n > 0 {
      UndisturbedPass(c, db, ids, envs, others, n - 1);
      OneMoreOrder(ids, envs, n - 1);
    }
  }

  class PendingOrderWorker {
    const service: PersistentPaperTradingService
    const batchSize: int

    constructor (service: PersistentPaperTradingService, batchSize: int)
      requires batchSize > 0
      ensures this.service == service && this.batchSize == batchSize
    {
      this.service, this.batchSize := service, batchSize;
    }

    /** SELECT ... LIMIT without an order: some batch of distinct pending limit orders, and
        all of them when they fit. */
    method DiscoverPendingOrderIds() returns (ids: seq<Id>)
      requires batchSize > 0
      ensures IsDiscovery(service.uow.durable, batchSize, ids)
    {
      var db := service.uow.durable;
      var rest := set o | o in db.orders && IsPendingLimit(db, o);
      ids := [];
      while |ids| < batchSize && rest != {}
        invariant |ids| <= batchSize
        invariant forall o :: o in rest ==> IsPendingLimit(db, o)
        invariant forall i :: 0 <= i < |ids| ==> IsPendingLimit(db, ids[i]) && ids[i] !in rest
        invariant forall i, j :: 0 <= i < j < |ids| ==> ids[i] != ids[j]
        invariant forall o :: IsPendingLimit(db, o) ==> o in ids || o in rest
        decreases rest
      {
        var o :| o in rest;
        ids, rest := ids + [o], rest - {o};
      }
    }

    /** Every discovered order is counted once, whatever other workers commit between two
        orders; the fills counted are the executions this pass added. */
    method RunOnce(envs: nat -> Env, others: nat -> Option<Db>) returns (r: WorkerResult, ids: seq<Id>)
      requires batchSize > 0 && service.Clean()
      modifies service.uow
      ensures service.Clean()
      ensures r.discovered == |ids| == r.filled + r.stillPending + r.failed
      ensures IsDiscovery(old(service.uow.durable), batchSize, ids)
      ensures service.uow.durable == PassDb(service.column, old(service.uow.durable), ids, envs, others, |ids|)
      ensures r.filled + r.stillPending ==
                PassCommits(service.column, old(service.uow.durable), ids, envs, others, |ids|)
      ensures r.filled == PassFills(service.column, old(service.uow.durable), ids, envs, others, |ids|)
    {
      hide Run, After;
      ids := DiscoverPendingOrderIds();
      var filled, stillPending, failed := 0, 0, 0;
      ghost var start := service.uow.durable;
      for i := 0 to |ids|
        invariant service.Clean() && i == filled + stillPending + failed
        invariant service.uow.durable == PassDb(service.column, start, ids, envs, others, i)
        invariant filled + stillPending == PassCommits(service.column, start, ids, envs, others, i)
        invariant filled == PassFills(service.column, start, ids, envs, others, i)
      {
        var found := Found(service.uow.durable, others(i));
        service.uow.durable, service.uow.working := found, found;
        var execution := service.ProcessLimitOrder(ids[i], envs(i));
        if execution.Err? {
          failed := failed + 1;
          continue;
        }
        if execution.value.None? {
          stillPending := stillPending + 1;
          continue;
        }
        filled := filled + 1;
      }
      r := WorkerResult(|ids|, filled, stillPending, failed);
    }
  }

  lemma OneMoreOrder(ids: seq<Id>, envs: nat -> Env, i: nat)
    requires i < |ids|
    ensures var work := PassWork(ids[..i + 1], envs);
            |work| == i + 1 && work[..i] == PassWork(ids[..i], envs) && work[i] == (ProcessLimit(ids[i]), envs(i))
  {}
}
