/** The transactional outbox table and one dispatcher's pass over it: claim a batch under a
    lease, publish each event, acknowledge success or schedule a retry. */
module OutboxTable {
  import opened Basics

  type EventId = nat
  type WorkerId = string
  type Time = int

  datatype Row = Row(
    id: nat, content: string, occurredAt: Time, publishedAt: Option<Time>, attempts: nat,
    nextAttemptAt: Time, lastError: Option<string>, lockedBy: Option<WorkerId>, lockedUntil: Option<Time>)

  type Rows = map<EventId, Row>

  /** What the dispatcher keeps of a claimed row after the claim transaction. */
  datatype Claimed = Claimed(event: EventId, attempts: nat)

  predicate Eligible(r: Row, now: Time) {
    r.publishedAt.None? && r.nextAttemptAt <= now && (r.lockedUntil.None? || r.lockedUntil.value <= now)
  }

  /** ORDER BY occurred_at, id. */
  predicate Before(rows: Rows, e: EventId, f: EventId)
    requires e in rows && f in rows
  {
    rows[e].occurredAt < rows[f].occurredAt || (rows[e].occurredAt == rows[f].occurredAt && rows[e].id < rows[f].id)
  }

  predicate UniqueIds(rows: Rows) {
    forall e, f :: e in rows && f in rows && e != f ==> rows[e].id != rows[f].id
  }

  predicate Selectable(rows: Rows, now: Time, skipped: set<EventId>, e: EventId) {
    e in rows && e !in skipped && Eligible(rows[e], now)
  }

  /** batch is the least `limit` selectable events in order; `skipped` are the rows other
      transactions have locked at that moment (SKIP LOCKED). */
  ghost predicate IsClaim(rows: Rows, now: Time, skipped: set<EventId>, limit: nat, batch: seq<EventId>) {
    && |batch| <= limit
    && (forall i :: 0 <= i < |batch| ==> Selectable(rows, now, skipped, batch[i]))
    && (forall i, j :: 0 <= i < j < |batch| ==> Before(rows, batch[i], batch[j]))
    && (forall e :: Selectable(rows, now, skipped, e) && e !in batch ==>
          |batch| == limit && forall i :: 0 <= i < |batch| ==> Before(rows, batch[i], e))
  }

  /** The claim is determined: there is only one least batch. */
  lemma ClaimIsDetermined(rows: Rows, now: Time, skipped: set<EventId>, limit: nat, b1: seq<EventId>, b2: seq<EventId>)
    requires IsClaim(rows, now, skipped, limit, b1) && IsClaim(rows, now, skipped, limit, b2)
    ensures b1 == b2
  {
    if |b1| <= |b2| {
      SamePrefix(rows, now, skipped, limit, b1, b2, |b1|);
      PrefixIsWhole(rows, now, skipped, limit, b1, b2);
    } else {
      SamePrefix(rows, now, skipped, limit, b1, b2, |b2|);
      PrefixIsWhole(rows, now, skipped, limit, b2, b1);
    }
  }

  lemma ClaimIsDistinct(rows: Rows, now: Time, skipped: set<EventId>, limit: nat, b: seq<EventId>)
    requires IsClaim(rows, now, skipped, limit, b)
    ensures forall i, j :: 0 <= i < j < |b| ==> b[i] != b[j]
  {
    forall i, j | 0 <= i < j < |b| ensures b[i] != b[j] {
      assert Before(rows, b[i], b[j]);
    }
  }

  lemma PrefixIsWhole(rows: Rows, now: Time, skipped: set<EventId>, limit: nat, b1: seq<EventId>, b2: seq<EventId>)
    requires IsClaim(rows, now, skipped, limit, b1) && IsClaim(rows, now, skipped, limit, b2)
    requires b1 <= b2
    ensures |b1| == |b2|
  {
    ClaimIsDistinct(rows, now, skipped, limit, b2);
    ShorterIsFull(rows, now, skipped, limit, b1, b2);
  }

  lemma ShorterIsFull(rows: Rows, now: Time, skipped: set<EventId>, limit: nat, b1: seq<EventId>, b2: seq<EventId>)
    requires IsClaim(rows, now, skipped, limit, b1) && b1 <= b2
    requires forall i :: 0 <= i < |b2| ==> Selectable(rows, now, skipped, b2[i])
    requires forall i, j :: 0 <= i < j < |b2| ==> b2[i] != b2[j]
    ensures |b1| < |b2| ==> |b1| == limit
  {
    if |b1| < |b2| {
      assert forall i :: 0 <= i < |b1| ==> b1[i] == b2[i];
      assert Selectable(rows, now, skipped, b2[|b1|]) && b2[|b1|] !in b1;
    }
  }

  lemma {:induction false} SamePrefix(rows: Rows, now: Time, skipped: set<EventId>, limit: nat,
                                      b1: seq<EventId>, b2: seq<EventId>, n: nat)
    requires IsClaim(rows, now, skipped, limit, b1) && IsClaim(rows, now, skipped, limit, b2)
    requires n <= |b1| && n <= |b2|
    ensures b1[..n] == b2[..n]
  {
    if n > 0 {
      SamePrefix(rows, now, skipped, limit, b1, b2, n - 1);
      NotEarlier(rows, now, skipped, limit, b1, b2, n - 1);
      NotEarlier(rows, now, skipped, limit, b2, b1, n - 1);
    }
  }

  /** With equal prefixes, b1's next event cannot be missing from b2 and yet precede b2's. */
  lemma NotEarlier(rows: Rows, now: Time, skipped: set<EventId>, limit: nat, b1: seq<EventId>, b2: seq<EventId>, n: nat)
    requires IsClaim(rows, now, skipped, limit, b1) && IsClaim(rows, now, skipped, limit, b2)
    requires n < |b1| && n < |b2| && b1[..n] == b2[..n]
    ensures b1[n] == b2[n] || Before(rows, b2[n], b1[n])
  {
    ClaimIsDistinct(rows, now, skipped, limit, b1);
    assert forall i :: 0 <= i < n ==> b1[i] == b1[..n][i] == b2[i];
    assert Selectable(rows, now, skipped, b1[n]);
  }

  /** A claim takes the oldest events: everything in it is unpublished, due and not under a
      running lease; it is ordered by occurred_at, then id; and whatever it leaves out is
      younger than all of a full batch. */
  lemma ClaimTakesOldest(rows: Rows, now: Time, skipped: set<EventId>, limit: nat, batch: seq<EventId>)
    requires IsClaim(rows, now, skipped, limit, batch)
    ensures forall i :: 0 <= i < |batch| ==>
              && batch[i] in rows && batch[i] !in skipped
              && rows[batch[i]].publishedAt == None && rows[batch[i]].nextAttemptAt <= now
              && (rows[batch[i]].lockedUntil == None || rows[batch[i]].lockedUntil.value <= now)
    ensures forall i, j :: 0 <= i < j < |batch| ==>
              || rows[batch[i]].occurredAt < rows[batch[j]].occurredAt
              || (rows[batch[i]].occurredAt == rows[batch[j]].occurredAt && rows[batch[i]].id < rows[batch[j]].id)
    ensures forall e :: e in rows && e !in skipped && e !in batch
                        && rows[e].publishedAt == None && rows[e].nextAttemptAt <= now
                        && (rows[e].lockedUntil == None || rows[e].lockedUntil.value <= now) ==>
              && |batch| == limit
              && forall i :: 0 <= i < |batch| ==>
                   || rows[batch[i]].occurredAt < rows[e].occurredAt
                   || (rows[batch[i]].occurredAt == rows[e].occurredAt && rows[batch[i]].id < rows[e].id)
  {
    forall i, j | 0 <= i < j < |batch|
      ensures || rows[batch[i]].occurredAt < rows[batch[j]].occurredAt
              || (rows[batch[i]].occurredAt == rows[batch[j]].occurredAt && rows[batch[i]].id < rows[batch[j]].id)
    {
      assert Before(rows, batch[i], batch[j]);
    }
    forall e | Selectable(rows, now, skipped, e) && e !in batch
      ensures |batch| == limit && forall i :: 0 <= i < |batch| ==> Before(rows, batch[i], e)
    {
    }
  }

  /** With two events due and room for one, the earlier one is claimed. */
  lemma EarlierIsClaimedFirst(rows: Rows, now: Time, e: EventId, f: EventId, batch: seq<EventId>)
    requires rows.Keys == {e, f} && rows[e].occurredAt < rows[f].occurredAt
    requires Eligible(rows[e], now) && Eligible(rows[f], now) && IsClaim(rows, now, {}, 1, batch)
    ensures batch == [e]
  {
    ClaimTakesOldest(rows, now, {}, 1, batch);
    assert batch != [] && batch[0] in rows;
    assert batch[0] != e ==> e !in batch;
  }

  // ------------------------------------------------------------ row updates

  function Leased(r: Row, w: WorkerId, until: Time): Row {
    r.(lockedBy := Some(w), lockedUntil := Some(until))
  }

  function LeaseAll(rows: Rows, batch: seq<EventId>, w: WorkerId, until: Time): Rows {
    map e | e in rows :: if e in batch then Leased(rows[e], w, until) else rows[e]
  }

  /** A claim writes nothing but the batch's lease. */
  lemma LeaseWritesOnlyLocks(rows: Rows, batch: seq<EventId>, w: WorkerId, until: Time, e: EventId)
    requires e in rows
    ensures LeaseAll(rows, batch, w, until).Keys == rows.Keys
    ensures LeaseAll(rows, batch, w, until)[e] ==
            if e !in batch then rows[e]
            else Row(rows[e].id, rows[e].content, rows[e].occurredAt, rows[e].publishedAt, rows[e].attempts,
                     rows[e].nextAttemptAt, rows[e].lastError, Some(w), Some(until))
  {}

  function MarkedPublished(r: Row, at: Time): Row {
    r.(publishedAt := Some(at), lockedBy := None, lockedUntil := None, lastError := None)
  }

  function MarkedFailed(r: Row, attempts: nat, error: string, next: Time): Row {
    r.(attempts := attempts + 1, lastError := Some(if error == "" then "unknown publish failure" else error),
       nextAttemptAt := next, lockedBy := None, lockedUntil := None)
  }

  predicate OwnedBy(r: Row, w: WorkerId) {
    r.lockedBy == Some(w) && r.publishedAt.None?
  }

  const RETRY_DELAYS: seq<int> := [5, 30, 120, 600]

  /** Seconds to wait after a failure that was preceded by n others. */
  function RetryDelay(n: nat): int {
    if n < |RETRY_DELAYS| then RETRY_DELAYS[n] else RETRY_DELAYS[|RETRY_DELAYS| - 1]
  }

  // ------------------------------------------------------------ the repository

  class OutboxRepository {
    var rows: Rows

    constructor ()
      ensures rows == map[]
    {
      rows := map[];
    }

    /** A new event is due at once and unlocked; it must name its aggregate. */
    method AddEvent(e: EventId, id: nat, aggregateType: string, aggregateId: string, content: string, occurredAt: Time)
      returns (r: Outcome)
      modifies this
      ensures r.Pass? <==> aggregateType != "" && aggregateId != "" && e !in old(rows)
      ensures r.Fail? ==> r.error == if aggregateType == "" || aggregateId == "" then InvalidValue else Duplicate
      ensures r.Pass? ==> rows == old(rows)[e := Row(id, content, occurredAt, None, 0, occurredAt, None, None, None)]
                          && Eligible(rows[e], occurredAt)
      ensures r.Fail? ==> rows == old(rows)
    {
      if aggregateType == "" { return Fail(InvalidValue); }
      if aggregateId == "" { return Fail(InvalidValue); }
      if e in rows { return Fail(Duplicate); }
      rows := rows[e := Row(id, content, occurredAt, None, 0, occurredAt, None, None, None)];
      return Pass;
    }

    method ClaimPending(w: WorkerId, batchSize: int, leaseSeconds: int, now: Time, skipped: set<EventId>)
      returns (r: Result<seq<Claimed>>)
      requires UniqueIds(rows)
      modifies this
      ensures r.Ok? <==> w != "" && batchSize >= 1 && leaseSeconds >= 1
      ensures r.Err? ==> rows == old(rows)
      ensures r.Ok? ==>
                && IsClaim(old(rows), now, skipped, batchSize, Events(r.value))
                && rows == LeaseAll(old(rows), Events(r.value), w, now + leaseSeconds)
                && AttemptsMatch(old(rows), r.value)
    {
      if w == "" { return Err(InvalidValue); }
      if batchSize < 1 { return Err(InvalidValue); }
      if leaseSeconds < 1 { return Err(InvalidValue); }
      var batch := Select(now, skipped, batchSize);
      rows := LeaseAll(rows, batch, w, now + leaseSeconds);
      var claimed: seq<Claimed> := [];
      for i := 0 to |batch|
        invariant Events(claimed) == batch[..i]
        invariant forall j :: 0 <= j < i ==> claimed[j].attempts == old(rows)[batch[j]].attempts
      {
        claimed := claimed + [Claimed(batch[i], rows[batch[i]].attempts)];
      }
      assert batch[..|batch|] == batch;
      return Ok(claimed);
    }

    /** SELECT ... ORDER BY ... LIMIT ... FOR UPDATE SKIP LOCKED. */
    method Select(now: Time, skipped: set<EventId>, limit: nat) returns (batch: seq<EventId>)
      requires UniqueIds(rows)
      ensures IsClaim(rows, now, skipped, limit, batch)
    {
      hide Eligible, UniqueIds;
      batch := [];
      var rest := set e | e in rows && e !in skipped && Eligible(rows[e], now);
      while |batch| < limit && rest != {}
        invariant |batch| <= limit && Selecting(rows, now, skipped, batch, rest)
        decreases rest
      {
        LeastExists(rows, rest);
        ghost var least :| IsLeast(rows, rest, least);
        var e :| e in rest && forall f :: f in rest && f != e ==> Before(rows, e, f);
        OneMoreSelected(rows, now, skipped, batch, rest, e);
        batch, rest := batch + [e], rest - {e};
      }
    }

    method MarkPublished(e: EventId, w: WorkerId, at: Time) returns (updated: bool)
      modifies this
      ensures updated <==> e in old(rows) && old(rows)[e].lockedBy == Some(w) && old(rows)[e].publishedAt == None
      ensures !updated ==> rows == old(rows)
      ensures updated ==>
                var r := old(rows)[e];
                rows == old(rows)[e := Row(r.id, r.content, r.occurredAt, Some(at), r.attempts, r.nextAttemptAt,
                                           None, None, None)]
    {
      if e !in rows || rows[e].lockedBy != Some(w) || rows[e].publishedAt.Some? { return false; }
      rows := rows[e := MarkedPublished(rows[e], at)];
      return true;
    }

    method MarkFailed(e: EventId, w: WorkerId, error: string, next: Time) returns (updated: bool)
      modifies this
      ensures updated <==> e in old(rows) && old(rows)[e].lockedBy == Some(w) && old(rows)[e].publishedAt == None
      ensures !updated ==> rows == old(rows)
      ensures updated ==>
                var r := old(rows)[e];
                var message := if error == "" then "unknown publish failure" else error;
                rows == old(rows)[e := Row(r.id, r.content, r.occurredAt, None, r.attempts + 1, next,
                                           Some(message), None, None)]
    {
      if e !in rows || rows[e].lockedBy != Some(w) || rows[e].publishedAt.Some? { return false; }
      rows := rows[e := MarkedFailed(rows[e], rows[e].attempts, error, next)];
      return true;
    }
  }

  function Events(claimed: seq<Claimed>): (events: seq<EventId>)
    ensures |events| == |claimed| && forall i :: 0 <= i < |events| ==> events[i] == claimed[i].event
  {
    seq(|claimed|, i requires 0 <= i < |claimed| => claimed[i].event)
  }

  /** `batch` is in order, and everything selectable that it lacks is in `rest`, after it. */
  ghost predicate Selecting(rows: Rows, now: Time, skipped: set<EventId>, batch: seq<EventId>, rest: set<EventId>) {
    && (forall e :: e in rest ==> Selectable(rows, now, skipped, e))
    && (forall i :: 0 <= i < |batch| ==> Selectable(rows, now, skipped, batch[i]))
    && (forall i, j :: 0 <= i < j < |batch| ==> Before(rows, batch[i], batch[j]))
    && (forall e :: Selectable(rows, now, skipped, e) && e !in batch ==> e in rest)
    && (forall e, i :: e in rest && 0 <= i < |batch| ==> Before(rows, batch[i], e))
  }

  lemma OneMoreSelected(rows: Rows, now: Time, skipped: set<EventId>, batch: seq<EventId>, rest: set<EventId>,
                        e: EventId)
    requires Selecting(rows, now, skipped, batch, rest) && IsLeast(rows, rest, e)
    ensures Selecting(rows, now, skipped, batch + [e], rest - {e})
  {
    hide Eligible, Before;
  }

  ghost predicate IsLeast(rows: Rows, s: set<EventId>, e: EventId)
    requires forall f :: f in s ==> f in rows
  {
    e in s && forall f :: f in s && f != e ==> Before(rows, e, f)
  }

  lemma {:induction false} LeastExists(rows: Rows, s: set<EventId>)
    requires UniqueIds(rows) && s != {} && forall e :: e in s ==> e in rows
    ensures exists e :: IsLeast(rows, s, e)
    decreases |s|
  {
    var x :| x in s;
    if s == {x} {
      assert IsLeast(rows, s, x);
    } else {
      LeastExists(rows, s - {x});
      var e :| IsLeast(rows, s - {x}, e);
      LesserIsLeast(rows, s, x, e);
    }
  }

  lemma LesserIsLeast(rows: Rows, s: set<EventId>, x: EventId, e: EventId)
    requires UniqueIds(rows) && (forall f :: f in s ==> f in rows) && x in s && IsLeast(rows, s - {x}, e)
    ensures IsLeast(rows, s, if Before(rows, x, e) then x else e)
  {
    if Before(rows, x, e) {
      forall f | f in s && f != x ensures Before(rows, x, f) {
        assert f == e || Before(rows, e, f);
      }
    }
  }

  // ------------------------------------------------------------ one dispatch

  /** What happens to one claimed event: whether the bus accepted it, what others have made
      of the table by the time of its acknowledgement, whether the acknowledgement commits. */
  datatype Delivery = Delivery(accepted: bool, error: string, others: Option<Rows>, commits: bool)

  datatype DispatchResult = DispatchResult(claimed: nat, published: nat, failed: nat)

  /** The table an acknowledgement finds. */
  function Found(rows: Rows, d: Delivery): Rows {
    if d.others.Some? then d.others.value else rows
  }

  predicate AckSucceeds(rows: Rows, w: WorkerId, x: Claimed, d: Delivery) {
    x.event in Found(rows, d) && OwnedBy(Found(rows, d)[x.event], w) && d.commits
  }

  function Settled(r: Row, attempts: nat, now: Time, accepted: bool, error: string): Row {
    if accepted then MarkedPublished(r, now)
    else MarkedFailed(r, r.attempts, error, now + RetryDelay(attempts))
  }

  /** The table after one acknowledgement. */
  function Acknowledged(rows: Rows, w: WorkerId, x: Claimed, now: Time, d: Delivery): Rows {
    var t, e := Found(rows, d), x.event;
    if AckSucceeds(rows, w, x, d) then t[e := Settled(t[e], x.attempts, now, d.accepted, d.error)] else t
  }

  /** The table after the first n acknowledgements of a pass. */
  function PassRows(rows: Rows, w: WorkerId, batch: seq<Claimed>, now: Time, world: nat -> Delivery, n: nat): Rows
    requires n <= |batch|
  {
    if n == 0 then rows
    else Acknowledged(PassRows(rows, w, batch, now, world, n - 1), w, batch[n - 1], now, world(n - 1))
  }

  predicate PassAcks(rows: Rows, w: WorkerId, batch: seq<Claimed>, now: Time, world: nat -> Delivery, n: nat)
    requires n < |batch|
  {
    AckSucceeds(PassRows(rows, w, batch, now, world, n), w, batch[n], world(n))
  }

  class OutboxDispatcher {
    const repository: OutboxRepository
    const workerId: WorkerId
    const batchSize: int
    const leaseSeconds: int

    constructor (repository: OutboxRepository, workerId: WorkerId, batchSize: int, leaseSeconds: int)
      requires workerId != "" && batchSize >= 1 && leaseSeconds >= 1
      ensures this.repository == repository && this.workerId == workerId
      ensures this.batchSize == batchSize && this.leaseSeconds == leaseSeconds
    {
      this.repository, this.workerId := repository, workerId;
      this.batchSize, this.leaseSeconds := batchSize, leaseSeconds;
    }

    /** One acknowledgement transaction: rolled back unless the row is still ours and the
        commit goes through. */
    method Acknowledge(event: Claimed, d: Delivery, now: Time) returns (ok: bool)
      modifies repository
      ensures ok <==> AckSucceeds(old(repository.rows), workerId, event, d)
      ensures repository.rows == Acknowledged(old(repository.rows), workerId, event, now, d)
    {
      if d.others.Some? {
        repository.rows := d.others.value;
      }
      var before := repository.rows;
      if d.accepted {
        ok := repository.MarkPublished(event.event, workerId, now);
      } else {
        ok := repository.MarkFailed(event.event, workerId, d.error, now + RetryDelay(event.attempts));
      }
      if !ok || !d.commits {
        repository.rows := before;
        ok := false;
      }
    }

    /** dispatch_once.  `done` events are settled, in claim order, whatever others do to the
        table in between; when an acknowledgement is rejected the pass stops there. */
    method DispatchOnce(now: Time, skipped: set<EventId>, world: nat -> Delivery)
      returns (r: Result<DispatchResult>, batch: seq<Claimed>, done: nat, delivered: set<EventId>)
      requires workerId != "" && batchSize >= 1 && leaseSeconds >= 1 && UniqueIds(repository.rows)
      modifies repository
      ensures IsClaim(old(repository.rows), now, skipped, batchSize, Events(batch)) && done <= |batch|
      ensures AttemptsMatch(old(repository.rows), batch)
      ensures r.Ok? <==> done == |batch|
      ensures r.Err? ==> r.error == Unavailable
      ensures r.Ok? ==> r.value.claimed == |batch| == r.value.published + r.value.failed
                        && r.value.published == CountAccepted(world, done)
      ensures var leased := LeaseAll(old(repository.rows), Events(batch), workerId, now + leaseSeconds);
              && (forall i :: 0 <= i < done ==> PassAcks(leased, workerId, batch, now, world, i))
              && (done < |batch| ==> !PassAcks(leased, workerId, batch, now, world, done))
              && repository.rows == PassRows(leased, workerId, batch, now, world, if r.Ok? then done else done + 1)
      ensures IsDelivered(delivered, batch, world, if r.Ok? then done else done + 1)
    {
      hide Acknowledged, AckSucceeds, IsClaim, LeaseAll, UniqueIds, AttemptsMatch, IsDelivered;
      var claimed := repository.ClaimPending(workerId, batchSize, leaseSeconds, now, skipped);
      batch, delivered, done := claimed.value, {}, 0;
      NothingDeliveredYet(batch, world);
      ghost var leased := repository.rows;
      var published, failed := 0, 0;
      while done < |batch|
        invariant 0 <= done <= |batch| && published + failed == done && published == CountAccepted(world, done)
        invariant repository.rows == PassRows(leased, workerId, batch, now, world, done)
        invariant forall i :: 0 <= i < done ==> PassAcks(leased, workerId, batch, now, world, i)
        invariant IsDelivered(delivered, batch, world, done)
      {
        var d := world(done);
        OneMoreDelivered(delivered, batch, world, done);
        if d.accepted {
          delivered := delivered + {batch[done].event};
        }
        var ok := Acknowledge(batch[done], d, now);
        if !ok {
          return Err(Unavailable), batch, done, delivered;
        }
        if d.accepted { published := published + 1; } else { failed := failed + 1; }
        done := done + 1;
      }
      return Ok(DispatchResult(|batch|, published, failed)), batch, done, delivered;
    }
  }

  /** The bus has accepted exactly these events of the first n tried. */
  ghost predicate IsDelivered(delivered: set<EventId>, batch: seq<Claimed>, world: nat -> Delivery, n: nat) {
    n <= |batch| && forall e :: e in delivered <==> exists i :: 0 <= i < n && world(i).accepted && batch[i].event == e
  }

  lemma NothingDeliveredYet(batch: seq<Claimed>, world: nat -> Delivery)
    ensures IsDelivered({}, batch, world, 0)
  {}

  lemma OneMoreDelivered(delivered: set<EventId>, batch: seq<Claimed>, world: nat -> Delivery, n: nat)
    requires IsDelivered(delivered, batch, world, n) && n < |batch|
    ensures IsDelivered(if world(n).accepted then delivered + {batch[n].event} else delivered, batch, world, n + 1)
  {}

  /** The claimed snapshots carry the rows' own failure counts. */
  ghost predicate AttemptsMatch(rows: Rows, batch: seq<Claimed>) {
    forall i :: 0 <= i < |batch| ==> batch[i].event in rows && batch[i].attempts == rows[batch[i].event].attempts
  }

  function CountAccepted(world: nat -> Delivery, n: nat): nat {
    if n == 0 then 0 else CountAccepted(world, n - 1) + if world(n - 1).accepted then 1 else 0
  }

  /** It is the number of deliveries the bus accepted. */
  lemma {:induction false} CountAcceptedCounts(world: nat -> Delivery, n: nat)
    ensures CountAccepted(world, n) == |set i | 0 <= i < n && world(i).accepted|
  {
    if n > 0 {
      CountAcceptedCounts(world, n - 1);
      var before := set i | 0 <= i < n - 1 && world(i).accepted;
      assert (set i | 0 <= i < n && world(i).accepted) ==
             if world(n - 1).accepted then before + {n - 1} else before;
    }
  }

  // ------------------------------------------------------------ what a pass leaves

  /** A settled row has no lease and is either published, or due again exactly from the
      retry time the claimed failure count calls for. */
  lemma SettledRowIsFreed(r: Row, attempts: nat, now: Time, accepted: bool, error: string)
    requires r.publishedAt.None?
    ensures var settled := Settled(r, attempts, now, accepted, error);
            var wait := if attempts == 0 then 5 else if attempts == 1 then 30 else if attempts == 2 then 120 else 600;
            && settled.lockedBy.None? && settled.lockedUntil.None?
            && (accepted ==>
                  && settled == r.(publishedAt := Some(now), lastError := None, lockedBy := None, lockedUntil := None)
                  && forall t :: !Eligible(settled, t))
            && (!accepted ==>
                  && settled.attempts == r.attempts + 1 && settled.nextAttemptAt == now + wait
                  && settled.lastError == Some(if error == "" then "unknown publish failure" else error)
                  && forall t :: Eligible(settled, t) <==> t >= now + wait)
  {}

  /** The waits after the first, second, third and any later failure. */
  lemma RetryDelays(n: nat)
    ensures RetryDelay(n) == if n == 0 then 5 else if n == 1 then 30 else if n == 2 then 120 else 600
  {}

  /** Nobody else touches the table during the first n acknowledgements. */
  predicate Undisturbed(world: nat -> Delivery, n: nat) {
    forall i :: 0 <= i < n ==> world(i).others.None?
  }

  predicate Claimable(rows: Rows, w: WorkerId, batch: seq<Claimed>) {
    && (forall i :: 0 <= i < |batch| ==> batch[i].event in rows && OwnedBy(rows[batch[i].event], w))
    && (forall i, j :: 0 <= i < j < |batch| ==> batch[i].event != batch[j].event)
  }

  /** What a claim leaves is owned, event by event. */
  lemma LeaseMakesClaimable(rows: Rows, now: Time, skipped: set<EventId>, limit: nat, batch: seq<Claimed>, w: WorkerId,
                            until: Time)
    requires IsClaim(rows, now, skipped, limit, Events(batch))
    ensures Claimable(LeaseAll(rows, Events(batch), w, until), w, batch)
  {
    hide Before;
    assert forall i :: 0 <= i < |batch| ==> Selectable(rows, now, skipped, Events(batch)[i]);
    ClaimIsDistinctly(rows, now, skipped, limit, batch);
    forall i | 0 <= i < |batch|
      ensures batch[i].event in rows && OwnedBy(LeaseAll(rows, Events(batch), w, until)[batch[i].event], w)
    {
      assert Events(batch)[i] in Events(batch);
    }
  }

  lemma ClaimIsDistinctly(rows: Rows, now: Time, skipped: set<EventId>, limit: nat, batch: seq<Claimed>)
    requires IsClaim(rows, now, skipped, limit, Events(batch))
    ensures forall i, j :: 0 <= i < j < |batch| ==> batch[i].event != batch[j].event
  {
    ClaimIsDistinct(rows, now, skipped, limit, Events(batch));
    forall i, j | 0 <= i < j < |batch| ensures batch[i].event != batch[j].event {
      assert Events(batch)[i] != Events(batch)[j];
    }
  }

  /** The first n events of the batch are settled, the others keep the lease just taken, and
      no other row has changed. */
  predicate SettledUpTo(leased: Rows, rows: Rows, batch: seq<Claimed>, now: Time, world: nat -> Delivery, n: nat)
    requires n <= |batch| && forall i :: 0 <= i < |batch| ==> batch[i].event in leased
  {
    && rows.Keys == leased.Keys
    && (forall i :: 0 <= i < n ==>
          rows[batch[i].event] ==
          Settled(leased[batch[i].event], batch[i].attempts, now, world(i).accepted, world(i).error))
    && (forall e :: e in leased && (forall i :: 0 <= i < n ==> batch[i].event != e) ==> rows[e] == leased[e])
  }

  lemma OneMoreSettled(leased: Rows, rows: Rows, batch: seq<Claimed>, now: Time, world: nat -> Delivery, n: nat)
    requires n < |batch| && forall i :: 0 <= i < |batch| ==> batch[i].event in leased
    requires forall i, j :: 0 <= i < j < |batch| ==> batch[i].event != batch[j].event
    requires SettledUpTo(leased, rows, batch, now, world, n)
    ensures rows[batch[n].event] == leased[batch[n].event]
    ensures var d := world(n);
            var settled := Settled(leased[batch[n].event], batch[n].attempts, now, d.accepted, d.error);
            SettledUpTo(leased, rows[batch[n].event := settled], batch, now, world, n + 1)
  {
    hide Settled;
  }

  /** An undisturbed acknowledgement of an owned row takes effect exactly when it commits. */
  lemma OwnedAck(rows: Rows, w: WorkerId, x: Claimed, now: Time, d: Delivery)
    requires d.others.None? && x.event in rows && OwnedBy(rows[x.event], w)
    ensures AckSucceeds(rows, w, x, d) <==> d.commits
    ensures d.commits ==>
              Acknowledged(rows, w, x, now, d) ==
              rows[x.event := Settled(rows[x.event], x.attempts, now, d.accepted, d.error)]
  {
    hide Settled;
  }

  /** An undisturbed pass, up to its n-th acknowledgement; that one then goes through exactly
      when its commit does. */
  lemma {:induction false} UndisturbedPass(leased: Rows, w: WorkerId, batch: seq<Claimed>, now: Time,
                                           world: nat -> Delivery, n: nat)
    requires Claimable(leased, w, batch) && n <= |batch| && Undisturbed(world, n)
    requires forall i :: 0 <= i < n ==> world(i).commits
    ensures SettledUpTo(leased, PassRows(leased, w, batch, now, world, n), batch, now, world, n)
    ensures n < |batch| && Undisturbed(world, n + 1) ==>
              (PassAcks(leased, w, batch, now, world, n) <==> world(n).commits)
  {
    hide SettledUpTo, AckSucceeds, Acknowledged, Settled, OwnedBy;
    if n == 0 {
      NothingSettledYet(leased, batch, now, world);
    } else {
      UndisturbedPass(leased, w, batch, now, world, n - 1);
      OneMoreSettled(leased, PassRows(leased, w, batch, now, world, n - 1), batch, now, world, n - 1);
      SameKeysUpTo(leased, PassRows(leased, w, batch, now, world, n - 1), batch, now, world, n - 1);
      OwnedAck(PassRows(leased, w, batch, now, world, n - 1), w, batch[n - 1], now, world(n - 1));
    }
    if n < |batch| && Undisturbed(world, n + 1) {
      OneMoreSettled(leased, PassRows(leased, w, batch, now, world, n), batch, now, world, n);
      SameKeysUpTo(leased, PassRows(leased, w, batch, now, world, n), batch, now, world, n);
      OwnedAck(PassRows(leased, w, batch, now, world, n), w, batch[n], now, world(n));
    }
  }

  lemma NothingSettledYet(leased: Rows, batch: seq<Claimed>, now: Time, world: nat -> Delivery)
    requires forall i :: 0 <= i < |batch| ==> batch[i].event in leased
    ensures SettledUpTo(leased, leased, batch, now, world, 0)
  {}

  lemma SameKeysUpTo(leased: Rows, rows: Rows, batch: seq<Claimed>, now: Time, world: nat -> Delivery, n: nat)
    requires n <= |batch| && forall i :: 0 <= i < |batch| ==> batch[i].event in leased
    requires SettledUpTo(leased, rows, batch, now, world, n)
    ensures rows.Keys == leased.Keys
  {}

  /** An undisturbed pass that returns leaves no lease behind: every claimed event is
      published, or due again exactly from its retry time. */
  lemma DispatchFreesAll(leased: Rows, w: WorkerId, batch: seq<Claimed>, now: Time, world: nat -> Delivery, i: nat)
    requires Claimable(leased, w, batch) && Undisturbed(world, |batch|) && i < |batch|
    requires forall j :: 0 <= j < |batch| ==> world(j).commits
    ensures var rows, e := PassRows(leased, w, batch, now, world, |batch|), batch[i].event;
            && e in rows && rows[e].lockedBy.None? && rows[e].lockedUntil.None?
            && (world(i).accepted ==> rows[e].publishedAt == Some(now))
            && (!world(i).accepted ==>
                  forall t :: Eligible(rows[e], t) <==> t >= now + RetryDelay(batch[i].attempts))
  {
    UndisturbedPass(leased, w, batch, now, world, |batch|);
    SettledRowIsFreed(leased[batch[i].event], batch[i].attempts, now, world(i).accepted, world(i).error);
    hide Settled, PassRows;
  }

  /** A row left behind under the lease is claimable again exactly when the lease ends. */
  lemma LeaseOnlyDelays(r: Row, w: WorkerId, until: Time, now: Time)
    requires Eligible(r, now)
    ensures forall t :: t >= now ==> (Eligible(Leased(r, w, until), t) <==> t >= until)
  {}
}
