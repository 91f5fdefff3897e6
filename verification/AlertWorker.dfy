/** The alert worker: an idempotency table with conditional writes, the service that claims,
    notifies and completes, and the queue consumer that decides whether to delete a message. */
module AlertWorker {
  import opened Basics

  type EventId = nat
  type ClaimId = nat
  type Time = int

  datatype Status = Processing | Completed

  datatype Record = Record(status: Status, claimId: ClaimId, createdAt: Time, updatedAt: Time, expiresAt: Time)

  type Table = map<EventId, Record>

  /** The condition of the claiming put. */
  predicate Claimable(t: Table, e: EventId, now: Time) {
    e !in t || t[e].expiresAt < now
  }

  /** The condition of completing and of releasing. */
  predicate Owns(t: Table, e: EventId, claim: ClaimId) {
    e in t && t[e].claimId == claim && t[e].status == Processing
  }

  function StatusOf(t: Table, e: EventId): Option<Status> {
    if e in t then Some(t[e].status) else None
  }

  function WithClaim(t: Table, e: EventId, claim: ClaimId, now: Time, lease: int): Table {
    t[e := Record(Processing, claim, now, now, now + lease)]
  }

  function WithCompletion(t: Table, e: EventId, now: Time, retention: int): Table
    requires e in t
  {
    t[e := t[e].(status := Completed, updatedAt := now, expiresAt := now + retention)]
  }

  class IdempotencyStore {
    var records: Table
    const lease: int
    const retention: int

    constructor (lease: int, retention: int)
      requires lease > 0 && retention > 0
      ensures records == map[] && this.lease == lease && this.retention == retention
    {
      this.records, this.lease, this.retention := map[], lease, retention;
    }

    method Claim(e: EventId, newId: ClaimId, now: Time) returns (claim: Option<ClaimId>)
      modifies this
      ensures claim == if e in old(records) && old(records)[e].expiresAt >= now then None else Some(newId)
      ensures records == if claim.None? then old(records)
                         else old(records)[e := Record(Processing, newId, now, now, now + lease)]
    {
      if e in records && records[e].expiresAt >= now { return None; }
      records := WithClaim(records, e, newId, now, lease);
      return Some(newId);
    }

    method GetStatus(e: EventId) returns (status: Option<Status>)
      ensures status == if e in records then Some(records[e].status) else None
    {
      if e !in records { return None; }
      return Some(records[e].status);
    }

    /** Raises when the claim is no longer the processing one. */
    method Complete(e: EventId, claim: ClaimId, now: Time) returns (r: Outcome)
      modifies this
      ensures r.Pass? <==> e in old(records) && old(records)[e].claimId == claim && old(records)[e].status == Processing
      ensures r.Fail? ==> r.error == WrongState && records == old(records)
      ensures r.Pass? ==>
                records == old(records)[e := Record(Completed, claim, old(records)[e].createdAt, now, now + retention)]
    {
      if e !in records || records[e].claimId != claim || records[e].status != Processing { return Fail(WrongState); }
      records := WithCompletion(records, e, now, retention);
      return Pass;
    }

    /** Silently leaves a record that is not this claim's. */
    method Release(e: EventId, claim: ClaimId)
      modifies this
      ensures records ==
              if e in old(records) && old(records)[e].claimId == claim && old(records)[e].status == Processing
              then old(records) - {e} else old(records)
    {
      if e !in records || records[e].claimId != claim || records[e].status != Processing { return; }
      records := records - {e};
    }
  }

  datatype AlertStatus = Published | Duplicate | InProgress

  /** Everything one message meets that is not the worker's own doing: the new claim id,
      clock readings, what other workers made of the table before the status query and
      before the settling write, whether the notification publisher returns normally and
      whether the settling write gets through. */
  datatype Circumstances = Circumstances(
    claimId: ClaimId, claimTime: Time, beforeStatus: Option<Table>, publishes: bool,
    beforeSettle: Option<Table>, settleTime: Time, settleReaches: bool)

  function Meanwhile(t: Table, others: Option<Table>): Table {
    if others.Some? then others.value else t
  }

  /** The table as the settling write finds it. */
  function AtSettle(t: Table, e: EventId, w: Circumstances, lease: int): Table {
    Meanwhile(WithClaim(t, e, w.claimId, w.claimTime, lease), w.beforeSettle)
  }

  class AlertWorkerService {
    const store: IdempotencyStore

    constructor (store: IdempotencyStore)
      ensures this.store == store
    {
      this.store := store;
    }

    /** `sent` tells whether the notification publisher was called and returned normally. */
    method ProcessEvent(e: EventId, w: Circumstances) returns (r: Result<AlertStatus>, sent: bool)
      modifies store
      ensures sent <==> Claimable(old(store.records), e, w.claimTime) && w.publishes
      ensures r == Ok(Published) <==>
                sent && w.settleReaches && Owns(AtSettle(old(store.records), e, w, store.lease), e, w.claimId)
      ensures r == Ok(AlertStatus.Duplicate) <==>
                !Claimable(old(store.records), e, w.claimTime)
                && StatusOf(Meanwhile(old(store.records), w.beforeStatus), e) == Some(Completed)
      ensures r == Ok(InProgress) <==>
                !Claimable(old(store.records), e, w.claimTime)
                && StatusOf(Meanwhile(old(store.records), w.beforeStatus), e) != Some(Completed)
      ensures r.Err? ==> r.error == if sent && w.settleReaches then WrongState else Unavailable
      ensures !Claimable(old(store.records), e, w.claimTime) ==>
                store.records == Meanwhile(old(store.records), w.beforeStatus)
      ensures Claimable(old(store.records), e, w.claimTime) ==>
                var t := AtSettle(old(store.records), e, w, store.lease);
                store.records == if !w.settleReaches || !Owns(t, e, w.claimId) then t
                                 else if w.publishes then WithCompletion(t, e, w.settleTime, store.retention)
                                 else t - {e}
    {
      var claim := store.Claim(e, w.claimId, w.claimTime);
      if claim.None? {
        if w.beforeStatus.Some? { store.records := w.beforeStatus.value; }
        var status := store.GetStatus(e);
        if status == Some(Completed) { return Ok(AlertStatus.Duplicate), false; }
        return Ok(InProgress), false;
      }
      if w.beforeSettle.Some? { store.records := w.beforeSettle.value; }
      if !w.publishes {
        if w.settleReaches { store.Release(e, claim.value); }
        return Err(Unavailable), false;
      }
      if !w.settleReaches { return Err(Unavailable), true; }
      var done := store.Complete(e, claim.value, w.settleTime);
      if done.Fail? { return Err(done.error), true; }
      return Ok(Published), true;
    }
  }

  /** A received message: `event` is None when its body does not parse. */
  datatype Message = Message(event: Option<EventId>, hasReceipt: bool)

  predicate Usable(message: Option<Message>) {
    message.Some? && message.value.hasReceipt && message.value.event.Some?
  }

  class SqsAlertConsumer {
    const service: AlertWorkerService

    constructor (service: AlertWorkerService)
      ensures this.service == service
    {
      this.service := service;
    }

    /** A usable message is processed, and deleted exactly when it was notified and settled
        by this worker, or its event is COMPLETED already, and the delete reaches the queue.
        `deleted` tells whether the message was removed. */
    method PollOnce(message: Option<Message>, w: Circumstances, deleteReaches: bool)
      returns (r: Result<Option<AlertStatus>>, deleted: bool, sent: bool)
      modifies service.store
      ensures message.None? ==> r == Ok(None)
      ensures message.Some? && !Usable(message) ==> r == Err(InvalidValue)
      ensures !Usable(message) ==> service.store.records == old(service.store.records) && !sent && !deleted
      ensures Usable(message) ==>
                var e, t := message.value.event.value, old(service.store.records);
                var granted := e !in t || t[e].expiresAt < w.claimTime;
                var claimed := t[e := Record(Processing, w.claimId, w.claimTime, w.claimTime,
                                             w.claimTime + service.store.lease)];
                var found := Meanwhile(if granted then claimed else t,
                                       if granted then w.beforeSettle else w.beforeStatus);
                var mine := e in found && found[e].claimId == w.claimId && found[e].status == Processing;
                var published := granted && w.publishes && w.settleReaches && mine;
                var duplicate := !granted && e in found && found[e].status == Completed;
                && sent == (granted && w.publishes)
                && deleted == (deleteReaches && (published || duplicate))
                && r == (if (published || duplicate) && !deleteReaches then Err(Unavailable)
                         else if published then Ok(Some(Published))
                         else if duplicate then Ok(Some(AlertStatus.Duplicate))
                         else if !granted then Ok(Some(InProgress))
                         else Err(if w.publishes && w.settleReaches then WrongState else Unavailable))
                && service.store.records ==
                   (if !granted || !w.settleReaches || !mine then found
                    else if w.publishes then found[e := Record(Completed, w.claimId, found[e].createdAt, w.settleTime,
                                                               w.settleTime + service.store.retention)]
                    else found - {e})
    {
      deleted, sent := false, false;
      if message.None? { return Ok(None), deleted, sent; }
      if !message.value.hasReceipt { return Err(InvalidValue), deleted, sent; }
      if message.value.event.None? { return Err(InvalidValue), deleted, sent; }
      var result;
      result, sent := service.ProcessEvent(message.value.event.value, w);
      if result.Err? { return Err(result.error), deleted, sent; }
      if result.value == Published || result.value == AlertStatus.Duplicate {
        if !deleteReaches { return Err(Unavailable), deleted, sent; }
        deleted := true;
      }
      return Ok(Some(result.value)), deleted, sent;
    }
  }
}
