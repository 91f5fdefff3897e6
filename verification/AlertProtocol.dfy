/** Many alert workers, redelivered messages, crashes and leases that run out, over one
    idempotency table and one clock. */
module AlertProtocol {
  import opened Basics
  import opened AlertWorker

  type WorkerId = string

  datatype Config = Config(lease: int, retention: int)

  datatype Phase =
    | Refused
    | Claimed(claim: ClaimId)
    | Notified(claim: ClaimId)
    | Failed(claim: ClaimId)
    | Deletable

  datatype Job = Job(event: EventId, phase: Phase)

  /** Claim ids are positions in the list of grants. */
  datatype Grant = Grant(event: EventId, worker: WorkerId, at: Time)

  /** sent: claims whose publish returned normally; lastSent: the last of them, for each
      event that has one; notified: events some publish of which
      was accepted; completed: when a claim was completed; deleted: events of deleted messages. */
  datatype State = State(
    now: Time,
    records: Table,
    jobs: map<WorkerId, Job>,
    grants: seq<Grant>,
    sent: set<ClaimId>,
    lastSent: map<EventId, ClaimId>,
    notified: set<EventId>,
    completed: map<ClaimId, Time>,
    deleted: set<EventId>)

  datatype Action =
    | Tick(seconds: nat)
    | Receive(w: WorkerId, e: EventId)
    | Publish(w: WorkerId, accepted: bool, reported: bool)
    | Complete(w: WorkerId, reported: bool)
    | Release(w: WorkerId)
    | Check(w: WorkerId)
    | Delete(w: WorkerId)
    | Sweep(e: EventId)
    | Crash(w: WorkerId)

  function Initial(now: Time): State {
    State(now, map[], map[], [], {}, map[], {}, map[], {})
  }

  function At(s: State, w: WorkerId, phase: Phase): State
    requires w in s.jobs
  {
    s.(jobs := s.jobs[w := Job(s.jobs[w].event, phase)])
  }

  function Leave(s: State, w: WorkerId): State {
    s.(jobs := s.jobs - {w})
  }

  predicate Doing(s: State, w: WorkerId) {
    w in s.jobs
  }

  /** w's claim of e is granted. */
  function Granted(c: Config, s: State, w: WorkerId, e: EventId): State {
    s.(records := WithClaim(s.records, e, |s.grants|, s.now, c.lease),
       jobs := s.jobs[w := Job(e, Claimed(|s.grants|))],
       grants := s.grants + [Grant(e, w, s.now)])
  }

  /** w's publish returns, or raises whether or not the notification went out. */
  function Published(s: State, w: WorkerId, accepted: bool, reported: bool): State
    requires w in s.jobs && s.jobs[w].phase.Claimed?
  {
    var claim := s.jobs[w].phase.claim;
    At(s, w, if reported then Notified(claim) else Failed(claim)).(
      sent := if reported then s.sent + {claim} else s.sent,
      lastSent := if reported then s.lastSent[s.jobs[w].event := claim] else s.lastSent,
      notified := if accepted then s.notified + {s.jobs[w].event} else s.notified)
  }

  /** One step; a step that is not possible changes nothing.  Sweep is the table's own
      removal of an expired record, which may or may not happen. */
  function Next(c: Config, s: State, a: Action): State {
    match a
    case Tick(seconds) => s.(now := s.now + seconds)
    case Receive(w, e) =>
      if w in s.jobs then s
      else if !Claimable(s.records, e, s.now) then s.(jobs := s.jobs[w := Job(e, Refused)])
      else Granted(c, s, w, e)
    case Publish(w, accepted, reported) =>
      if w !in s.jobs || !s.jobs[w].phase.Claimed? || (reported && !accepted) then s
      else Published(s, w, accepted, reported)
    case Complete(w, reported) =>
      if w !in s.jobs || !s.jobs[w].phase.Notified? then s
      else
        var e, claim := s.jobs[w].event, s.jobs[w].phase.claim;
        if !Owns(s.records, e, claim) then Leave(s, w)
        else (if reported then At(s, w, Deletable) else Leave(s, w)).(
               records := WithCompletion(s.records, e, s.now, c.retention),
               completed := s.completed[claim := s.now])
    case Release(w) =>
      if w !in s.jobs || !s.jobs[w].phase.Failed? then s
      else
        var e, claim := s.jobs[w].event, s.jobs[w].phase.claim;
        Leave(s, w).(records := if Owns(s.records, e, claim) then s.records - {e} else s.records)
    case Check(w) =>
      if w !in s.jobs || !s.jobs[w].phase.Refused? then s
      else if StatusOf(s.records, s.jobs[w].event) == Some(Completed) then At(s, w, Deletable)
      else Leave(s, w)
    case Delete(w) =>
      if w !in s.jobs || !s.jobs[w].phase.Deletable? then s
      else Leave(s, w).(deleted := s.deleted + {s.jobs[w].event})
    case Sweep(e) =>
      if e in s.records && s.records[e].expiresAt < s.now then s.(records := s.records - {e}) else s
    case Crash(w) => Leave(s, w)
  }

  function Exec(c: Config, s: State, acts: seq<Action>): State {
    if acts == [] then s else Next(c, Exec(c, s, acts[..|acts| - 1]), acts[|acts| - 1])
  }

  // ------------------------------------------------------------ invariant

  function Min(a: int, b: int): int {
    if a < b then a else b
  }

  /** The claim's notification was sent, or its holder may still send it. */
  predicate Counts(s: State, k: ClaimId) {
    k in s.sent || (k < |s.grants| && Doing(s, s.grants[k].worker) && s.jobs[s.grants[k].worker].phase == Claimed(k))
  }

  predicate RecordOk(c: Config, s: State, e: EventId)
    requires e in s.records
  {
    var r := s.records[e];
    && r.claimId < |s.grants| && s.grants[r.claimId].event == e
    && (forall d :: r.claimId < d < |s.grants| ==> s.grants[d].event != e)
    && s.grants[r.claimId].at <= s.now
    && (r.status == Processing ==> r.expiresAt == s.grants[r.claimId].at + c.lease && r.claimId !in s.completed)
    && (r.status == Completed ==>
          && r.claimId in s.sent && r.claimId in s.completed && e in s.lastSent
          && s.grants[r.claimId].at <= s.completed[r.claimId] <= s.now
          && r.expiresAt == s.completed[r.claimId] + c.retention)
  }

  predicate JobOk(s: State, w: WorkerId, j: Job) {
    match j.phase
    case Refused => true
    case Claimed(k) => Held(s, w, j.event, k) && k !in s.sent
    case Notified(k) => Held(s, w, j.event, k) && k in s.sent && j.event in s.lastSent
    case Failed(k) => Held(s, w, j.event, k) && k !in s.sent
    case Deletable => j.event in s.lastSent
  }

  /** k is a claim of e whose notification was sent. */
  predicate IsSent(s: State, k: ClaimId, e: EventId) {
    k in s.sent && k < |s.grants| && s.grants[k].event == e
  }

  predicate Held(s: State, w: WorkerId, e: EventId, k: ClaimId) {
    k < |s.grants| && s.grants[k].event == e && s.grants[k].worker == w && s.grants[k].at <= s.now && k !in s.completed
  }

  predicate HasRecord(s: State, k: ClaimId)
    requires k < |s.grants|
  {
    s.grants[k].event in s.records && s.records[s.grants[k].event].claimId == k
  }

  /** A claim that counts and is not completed has its record as long as its lease runs. */
  predicate LeaseGuards(c: Config, s: State, k: ClaimId)
    requires k < |s.grants|
  {
    Counts(s, k) && k !in s.completed && s.now <= s.grants[k].at + c.lease ==> HasRecord(s, k)
  }

  /** A completed claim has its record as long as its retention runs. */
  predicate RetentionGuards(c: Config, s: State, k: ClaimId)
    requires k < |s.grants|
  {
    k in s.completed ==>
      && k in s.sent && s.grants[k].at <= s.completed[k] <= s.now
      && (s.now <= s.completed[k] + c.retention ==> HasRecord(s, k))
  }

  /** A later grant for the same event comes after the earlier claim's time is over. */
  predicate Apart(c: Config, s: State, k: ClaimId, d: ClaimId)
    requires k < |s.grants| && d < |s.grants|
  {
    s.grants[k].event == s.grants[d].event ==>
      && (Counts(s, k) && k !in s.completed ==> s.grants[d].at > s.grants[k].at + c.lease)
      && (k in s.completed ==> s.grants[d].at > s.completed[k] + c.retention)
  }

  ghost predicate Inv(c: Config, s: State) {
    && c.lease > 0 && c.retention > 0
    && (forall e :: e in s.records ==> RecordOk(c, s, e))
    && (forall w :: w in s.jobs ==> JobOk(s, w, s.jobs[w]))
    && (forall k :: k in s.sent || k in s.completed ==> k < |s.grants|)
    && (forall k :: 0 <= k < |s.grants| ==> LeaseGuards(c, s, k) && RetentionGuards(c, s, k))
    && (forall k, d :: 0 <= k < d < |s.grants| ==> Apart(c, s, k, d))
    && (forall e :: e in s.lastSent ==> e in s.notified && IsSent(s, s.lastSent[e], e))
    && s.deleted <= s.lastSent.Keys
  }

  lemma TickKeeps(c: Config, s: State, seconds: nat)
    requires Inv(c, s)
    ensures Inv(c, Next(c, s, Tick(seconds)))
  {
    var s' := Next(c, s, Tick(seconds));
    forall k, d | 0 <= k < d < |s'.grants| ensures Apart(c, s', k, d) {
      assert Apart(c, s, k, d);
    }
    forall k | 0 <= k < |s'.grants| ensures LeaseGuards(c, s', k) && RetentionGuards(c, s', k) {
      assert LeaseGuards(c, s, k) && RetentionGuards(c, s, k);
    }
    forall e | e in s'.records ensures RecordOk(c, s', e) { assert RecordOk(c, s, e); }
    forall w | w in s'.jobs ensures JobOk(s', w, s'.jobs[w]) { assert JobOk(s, w, s.jobs[w]); }
  }

  lemma OldClaimIsOver(c: Config, s: State, e: EventId, k: ClaimId)
    requires Inv(c, s) && Claimable(s.records, e, s.now) && k < |s.grants| && s.grants[k].event == e
    ensures Counts(s, k) && k !in s.completed ==> s.now > s.grants[k].at + c.lease
    ensures k in s.completed ==> s.now > s.completed[k] + c.retention
  {
    hide JobOk, Apart;
    assert LeaseGuards(c, s, k) && RetentionGuards(c, s, k);
    if e in s.records { assert RecordOk(c, s, e); }
  }

  lemma GrantKeepsClaim(c: Config, s: State, w: WorkerId, e: EventId, k: ClaimId)
    requires Inv(c, s) && Claimable(s.records, e, s.now) && w !in s.jobs && k < |s.grants|
    ensures LeaseGuards(c, Granted(c, s, w, e), k) && RetentionGuards(c, Granted(c, s, w, e), k)
    ensures Counts(Granted(c, s, w, e), k) == Counts(s, k)
  {
    hide JobOk, Apart, RecordOk;
    assert LeaseGuards(c, s, k) && RetentionGuards(c, s, k);
    if s.grants[k].event == e { OldClaimIsOver(c, s, e, k); }
  }

  lemma GrantKeepsApart(c: Config, s: State, w: WorkerId, e: EventId, k: ClaimId, d: ClaimId)
    requires Inv(c, s) && Claimable(s.records, e, s.now) && w !in s.jobs && k < d <= |s.grants|
    ensures Apart(c, Granted(c, s, w, e), k, d)
  {
    hide JobOk, RecordOk, LeaseGuards, RetentionGuards, Counts;
    GrantKeepsClaim(c, s, w, e, k);
    if d < |s.grants| {
      assert Apart(c, s, k, d);
    } else if s.grants[k].event == e {
      OldClaimIsOver(c, s, e, k);
    }
  }

  lemma GrantKeepsRecord(c: Config, s: State, w: WorkerId, e: EventId, f: EventId)
    requires Inv(c, s) && w !in s.jobs && f in Granted(c, s, w, e).records
    ensures RecordOk(c, Granted(c, s, w, e), f)
  {
    hide JobOk, Apart, LeaseGuards, RetentionGuards;
    if f in s.records { assert RecordOk(c, s, f); }
  }

  lemma GrantKeepsJob(c: Config, s: State, w: WorkerId, e: EventId, v: WorkerId)
    requires Inv(c, s) && w !in s.jobs && v in Granted(c, s, w, e).jobs
    ensures JobOk(Granted(c, s, w, e), v, Granted(c, s, w, e).jobs[v])
  {
    hide RecordOk, Apart, LeaseGuards, RetentionGuards;
    if v in s.jobs { assert JobOk(s, v, s.jobs[v]); }
  }

  lemma GrantKeeps(c: Config, s: State, w: WorkerId, e: EventId)
    requires Inv(c, s) && Claimable(s.records, e, s.now) && w !in s.jobs
    ensures Inv(c, Granted(c, s, w, e))
  {
    hide RecordOk, Apart, JobOk;
    var s' := Granted(c, s, w, e);
    forall k, d | 0 <= k < d < |s'.grants| ensures Apart(c, s', k, d) { GrantKeepsApart(c, s, w, e, k, d); }
    forall k | 0 <= k < |s'.grants| ensures LeaseGuards(c, s', k) && RetentionGuards(c, s', k) {
      if k < |s.grants| { GrantKeepsClaim(c, s, w, e, k); }
    }
    forall f | f in s'.records ensures RecordOk(c, s', f) { GrantKeepsRecord(c, s, w, e, f); }
    forall v | v in s'.jobs ensures JobOk(s', v, s'.jobs[v]) { GrantKeepsJob(c, s, w, e, v); }
  }

  // ------------------------------------------------------------ steps that grant nothing

  /** w's job changes to one that sends nothing, or ends. */
  lemma JobMoves(c: Config, s: State, s': State, w: WorkerId)
    requires Inv(c, s) && s' == s.(jobs := s'.jobs) && s'.jobs - {w} == s.jobs - {w}
    requires w in s'.jobs ==> JobOk(s, w, s'.jobs[w]) && !s'.jobs[w].phase.Claimed?
    ensures Inv(c, s')
  {
    hide RecordOk;
    forall f | f in s'.records ensures RecordOk(c, s', f) { RecordFrame(c, s, s', f); }
    forall k | 0 <= k < |s.grants| ensures Counts(s', k) ==> Counts(s, k) {
      CountsLess(s, s', w, k);
    }
    hide Counts;
    forall k, d | 0 <= k < d < |s'.grants| ensures Apart(c, s', k, d) { assert Apart(c, s, k, d); }
    forall k | 0 <= k < |s'.grants| ensures LeaseGuards(c, s', k) && RetentionGuards(c, s', k) {
      assert LeaseGuards(c, s, k) && RetentionGuards(c, s, k);
    }
    forall v | v in s'.jobs ensures JobOk(s', v, s'.jobs[v]) {
      if v != w { assert v in s'.jobs - {w} && JobOk(s, v, s.jobs[v]); }
    }
  }

  lemma CountsLess(s: State, s': State, w: WorkerId, k: ClaimId)
    requires s' == s.(jobs := s'.jobs) && s'.jobs - {w} == s.jobs - {w}
    requires w in s'.jobs ==> !s'.jobs[w].phase.Claimed?
    ensures Counts(s', k) ==> Counts(s, k)
  {
    if k < |s.grants| && Doing(s', s.grants[k].worker) && s.grants[k].worker != w {
      assert s.grants[k].worker in s'.jobs - {w};
    }
  }

  lemma RecordFrame(c: Config, s: State, s': State, e: EventId)
    requires e in s.records && RecordOk(c, s, e) && s' == s.(jobs := s'.jobs)
    ensures RecordOk(c, s', e)
  {}

  /** The record of a claim whose time is over, or that sends nothing, disappears. */
  lemma RecordGoes(c: Config, s: State, e: EventId)
    requires Inv(c, s) && e in s.records
    requires var k := s.records[e].claimId;
             k < |s.grants| ==>
               && (Counts(s, k) && k !in s.completed ==> s.now > s.grants[k].at + c.lease)
               && (k in s.completed ==> s.now > s.completed[k] + c.retention)
    ensures Inv(c, s.(records := s.records - {e}))
  {
    hide JobOk;
    var s' := s.(records := s.records - {e});
    forall f | f in s'.records ensures RecordOk(c, s', f) { assert RecordOk(c, s, f); }
    hide RecordOk;
    forall k, d | 0 <= k < d < |s'.grants| ensures Apart(c, s', k, d) { assert Apart(c, s, k, d); }
    forall k | 0 <= k < |s'.grants| ensures LeaseGuards(c, s', k) && RetentionGuards(c, s', k) {
      assert LeaseGuards(c, s, k) && RetentionGuards(c, s, k);
    }
    forall v | v in s'.jobs ensures JobOk(s', v, s'.jobs[v]) {
      assert JobOk(s, v, s.jobs[v]);
      JobFrame(s, s', v, s.jobs[v]);
    }
  }

  lemma JobFrame(s: State, s': State, v: WorkerId, j: Job)
    requires JobOk(s, v, j) && s'.grants == s.grants && s'.now == s.now && s'.lastSent == s.lastSent
    requires (j.phase.Claimed? || j.phase.Notified? || j.phase.Failed?) ==>
               && (j.phase.claim in s'.sent <==> j.phase.claim in s.sent)
               && (j.phase.claim in s'.completed <==> j.phase.claim in s.completed)
    ensures JobOk(s', v, j)
  {}

  function Completion(c: Config, s: State, e: EventId, claim: ClaimId): State
    requires e in s.records
  {
    s.(records := WithCompletion(s.records, e, s.now, c.retention), completed := s.completed[claim := s.now])
  }

  /** A sent claim that still owns its record is completed, after its holder has moved on. */
  lemma CompletionKeeps(c: Config, s: State, e: EventId, claim: ClaimId)
    requires Inv(c, s) && Owns(s.records, e, claim) && claim in s.sent && e in s.lastSent
    requires forall v :: v in s.jobs ==> s.jobs[v].phase !in {Claimed(claim), Notified(claim), Failed(claim)}
    ensures Inv(c, Completion(c, s, e, claim))
  {
    hide JobOk, Apart, LeaseGuards, RetentionGuards;
    var s' := Completion(c, s, e, claim);
    assert RecordOk(c, s, e);
    forall f | f in s'.records ensures RecordOk(c, s', f) { CompletionKeepsRecord(c, s, e, claim, f); }
    hide RecordOk;
    forall k, d | 0 <= k < d < |s'.grants| ensures Apart(c, s', k, d) { CompletionKeepsApart(c, s, e, claim, k, d); }
    forall k | 0 <= k < |s'.grants| ensures LeaseGuards(c, s', k) && RetentionGuards(c, s', k) {
      CompletionKeepsClaim(c, s, e, claim, k);
    }
    forall v | v in s'.jobs ensures JobOk(s', v, s'.jobs[v]) {
      assert JobOk(s, v, s.jobs[v]);
      JobFrame(s, s', v, s.jobs[v]);
    }
  }

  lemma CompletionKeepsRecord(c: Config, s: State, e: EventId, claim: ClaimId, f: EventId)
    requires Inv(c, s) && Owns(s.records, e, claim) && claim in s.sent && e in s.lastSent && f in s.records
    ensures RecordOk(c, Completion(c, s, e, claim), f)
  {
    hide JobOk, Apart, LeaseGuards, RetentionGuards;
    assert RecordOk(c, s, f) && RecordOk(c, s, e);
  }

  lemma CompletionKeepsApart(c: Config, s: State, e: EventId, claim: ClaimId, k: ClaimId, d: ClaimId)
    requires Inv(c, s) && Owns(s.records, e, claim) && k < d < |s.grants|
    ensures Apart(c, Completion(c, s, e, claim), k, d)
  {
    hide JobOk, LeaseGuards, RetentionGuards;
    assert Apart(c, s, k, d) && RecordOk(c, s, e);
  }

  lemma CompletionKeepsClaim(c: Config, s: State, e: EventId, claim: ClaimId, k: ClaimId)
    requires Inv(c, s) && Owns(s.records, e, claim) && claim in s.sent && k < |s.grants|
    ensures LeaseGuards(c, Completion(c, s, e, claim), k) && RetentionGuards(c, Completion(c, s, e, claim), k)
  {
    hide JobOk, Apart;
    assert LeaseGuards(c, s, k) && RetentionGuards(c, s, k) && RecordOk(c, s, e);
  }

  lemma PublishKeepsRows(c: Config, s: State, w: WorkerId, accepted: bool, reported: bool)
    requires Inv(c, s) && w in s.jobs && s.jobs[w].phase.Claimed? && (reported ==> accepted)
    ensures var s' := Published(s, w, accepted, reported);
            && (forall f :: f in s'.records ==> RecordOk(c, s', f))
            && (forall v :: v in s'.jobs ==> JobOk(s', v, s'.jobs[v]))
  {
    var s' := Published(s, w, accepted, reported);
    hide LeaseGuards, RetentionGuards, Apart, IsSent;
    assert JobOk(s, w, s.jobs[w]);
    forall f | f in s'.records ensures RecordOk(c, s', f) { assert RecordOk(c, s, f); }
    hide RecordOk;
    forall v | v in s'.jobs && v != w ensures JobOk(s', v, s'.jobs[v]) { assert JobOk(s, v, s.jobs[v]); }
  }

  lemma PublishKeepsClaims(c: Config, s: State, w: WorkerId, accepted: bool, reported: bool)
    requires Inv(c, s) && w in s.jobs && s.jobs[w].phase.Claimed? && (reported ==> accepted)
    ensures var s' := Published(s, w, accepted, reported);
            && (forall k :: k in s'.sent ==> k < |s'.grants|)
            && (forall k :: 0 <= k < |s.grants| ==> Counts(s', k) ==> Counts(s, k))
            && (forall k :: k in s.sent ==> k in s'.sent)
            && (forall e :: e in s'.lastSent ==> e in s'.notified && IsSent(s', s'.lastSent[e], e))
  {
    hide LeaseGuards, RetentionGuards, Apart, RecordOk;
    assert JobOk(s, w, s.jobs[w]);
    var s' := Published(s, w, accepted, reported);
    forall e | e in s'.lastSent ensures e in s'.notified && IsSent(s', s'.lastSent[e], e) {
      assert e in s.lastSent ==> IsSent(s, s.lastSent[e], e);
    }
  }

  lemma PublishKeeps(c: Config, s: State, w: WorkerId, accepted: bool, reported: bool)
    requires Inv(c, s) && w in s.jobs && s.jobs[w].phase.Claimed? && (reported ==> accepted)
    ensures Inv(c, Published(s, w, accepted, reported))
  {
    var s' := Published(s, w, accepted, reported);
    PublishKeepsRows(c, s, w, accepted, reported);
    PublishKeepsClaims(c, s, w, accepted, reported);
    hide RecordOk, JobOk, Counts, IsSent;
    forall k, d | 0 <= k < d < |s'.grants| ensures Apart(c, s', k, d) { assert Apart(c, s, k, d); }
    hide Apart;
    forall k | 0 <= k < |s'.grants| ensures LeaseGuards(c, s', k) && RetentionGuards(c, s', k) {
      assert LeaseGuards(c, s, k) && RetentionGuards(c, s, k);
    }
  }

  lemma LeaveKeeps(c: Config, s: State, w: WorkerId)
    requires Inv(c, s)
    ensures Inv(c, Leave(s, w))
  {
    hide RecordOk, JobOk, Inv;
    assert Leave(s, w).jobs - {w} == s.jobs - {w};
    JobMoves(c, s, Leave(s, w), w);
  }

  /** Nobody but its holder works with a claim. */
  lemma HolderIsAlone(c: Config, s: State, w: WorkerId, claim: ClaimId)
    requires Inv(c, s) && w in s.jobs && s.jobs[w].phase in {Claimed(claim), Notified(claim), Failed(claim)}
    ensures forall v :: v in s.jobs && v != w ==> s.jobs[v].phase !in {Claimed(claim), Notified(claim), Failed(claim)}
  {
    hide RecordOk, Apart, LeaseGuards, RetentionGuards;
    assert JobOk(s, w, s.jobs[w]);
    forall v | v in s.jobs && v != w ensures s.jobs[v].phase !in {Claimed(claim), Notified(claim), Failed(claim)} {
      assert JobOk(s, v, s.jobs[v]);
    }
  }

  lemma CompleteKeeps(c: Config, s: State, w: WorkerId, reported: bool)
    requires Inv(c, s) && w in s.jobs && s.jobs[w].phase.Notified?
    ensures Inv(c, Next(c, s, Complete(w, reported)))
  {
    var e, claim := s.jobs[w].event, s.jobs[w].phase.claim;
    assert JobOk(s, w, s.jobs[w]) by { hide RecordOk, Apart, LeaseGuards, RetentionGuards; }
    hide RecordOk, Inv, WithCompletion;
    LeaveKeeps(c, s, w);
    if Owns(s.records, e, claim) {
      HolderIsAlone(c, s, w, claim);
      CompletionKeeps(c, Leave(s, w), e, claim);
      var s1 := Completion(c, Leave(s, w), e, claim);
      var s' := Next(c, s, Complete(w, reported));
      assert s' == s1.(jobs := s'.jobs) && s'.jobs - {w} == s1.jobs - {w};
      JobMoves(c, s1, s', w);
    }
  }

  lemma ReleaseKeeps(c: Config, s: State, w: WorkerId)
    requires Inv(c, s) && w in s.jobs && s.jobs[w].phase.Failed?
    ensures Inv(c, Next(c, s, Release(w)))
  {
    var e, claim := s.jobs[w].event, s.jobs[w].phase.claim;
    assert JobOk(s, w, s.jobs[w]) by { hide RecordOk, Apart, LeaseGuards, RetentionGuards; }
    LeaveKeeps(c, s, w);
    hide RecordOk, Inv;
    if Owns(s.records, e, claim) { RecordGoes(c, Leave(s, w), e); }
  }

  lemma CheckKeeps(c: Config, s: State, w: WorkerId)
    requires Inv(c, s) && w in s.jobs && s.jobs[w].phase.Refused?
    ensures Inv(c, Next(c, s, Check(w)))
  {
    var e := s.jobs[w].event;
    if e in s.records { assert RecordOk(c, s, e); }
    LeaveKeeps(c, s, w);
    hide RecordOk, Inv;
    var s' := Next(c, s, Check(w));
    assert s'.jobs - {w} == s.jobs - {w};
    JobMoves(c, s, s', w);
  }

  lemma DeleteKeeps(c: Config, s: State, w: WorkerId)
    requires Inv(c, s) && w in s.jobs && s.jobs[w].phase.Deletable?
    ensures Inv(c, Next(c, s, Delete(w)))
  {
    LeaveKeeps(c, s, w);
    assert JobOk(s, w, s.jobs[w]);
    hide RecordOk, JobOk, Apart, LeaseGuards, RetentionGuards;
    DeletedFrame(c, Leave(s, w), s.jobs[w].event);
  }

  lemma DeletedFrame(c: Config, s: State, e: EventId)
    requires Inv(c, s) && e in s.lastSent
    ensures Inv(c, s.(deleted := s.deleted + {e}))
  {
    var s' := s.(deleted := s.deleted + {e});
    forall f | f in s'.records ensures RecordOk(c, s', f) { assert RecordOk(c, s, f); }
    hide RecordOk;
    forall v | v in s'.jobs ensures JobOk(s', v, s'.jobs[v]) { assert JobOk(s, v, s.jobs[v]); }
    hide JobOk;
    forall k, d | 0 <= k < d < |s'.grants| ensures Apart(c, s', k, d) { assert Apart(c, s, k, d); }
    hide Apart;
    forall k | 0 <= k < |s'.grants| ensures LeaseGuards(c, s', k) && RetentionGuards(c, s', k) {
      assert LeaseGuards(c, s, k) && RetentionGuards(c, s, k);
    }
  }

  lemma SweepKeeps(c: Config, s: State, e: EventId)
    requires Inv(c, s) && e in s.records && s.records[e].expiresAt < s.now
    ensures Inv(c, Next(c, s, Sweep(e)))
  {
    assert RecordOk(c, s, e);
    hide RecordOk, JobOk, Apart;
    OldClaimIsOver(c, s, e, s.records[e].claimId);
    RecordGoes(c, s, e);
  }

  lemma StepKeeps(c: Config, s: State, a: Action)
    requires Inv(c, s)
    ensures Inv(c, Next(c, s, a))
  {
    hide Inv, Granted, Published, WithCompletion;
    match a
    case Tick(seconds) => TickKeeps(c, s, seconds);
    case Receive(w, e) =>
      if w !in s.jobs {
        if Claimable(s.records, e, s.now) { GrantKeeps(c, s, w, e); }
        else {
          assert Next(c, s, a).jobs - {w} == s.jobs - {w};
          JobMoves(c, s, Next(c, s, a), w);
        }
      }
    case Publish(w, accepted, reported) =>
      if w in s.jobs && s.jobs[w].phase.Claimed? && (reported ==> accepted) {
        PublishKeeps(c, s, w, accepted, reported);
      }
    case Complete(w, reported) => if w in s.jobs && s.jobs[w].phase.Notified? { CompleteKeeps(c, s, w, reported); }
    case Release(w) => if w in s.jobs && s.jobs[w].phase.Failed? { ReleaseKeeps(c, s, w); }
    case Check(w) => if w in s.jobs && s.jobs[w].phase.Refused? { CheckKeeps(c, s, w); }
    case Delete(w) => if w in s.jobs && s.jobs[w].phase.Deletable? { DeleteKeeps(c, s, w); }
    case Sweep(e) => if e in s.records && s.records[e].expiresAt < s.now { SweepKeeps(c, s, e); }
    case Crash(w) => LeaveKeeps(c, s, w);
  }

  lemma {:induction false} EveryRunKeeps(c: Config, start: Time, acts: seq<Action>)
    requires c.lease > 0 && c.retention > 0
    ensures Inv(c, Exec(c, Initial(start), acts))
  {
    if acts != [] {
      EveryRunKeeps(c, start, acts[..|acts| - 1]);
      StepKeeps(c, Exec(c, Initial(start), acts[..|acts| - 1]), acts[|acts| - 1]);
    }
  }

  // ------------------------------------------------------------ every run

  /** A message is deleted only if some claim's notification for its event was sent, and a
      record says COMPLETED only if its own claim's notification was. */
  lemma AckSafety(c: Config, start: Time, acts: seq<Action>, e: EventId)
    requires c.lease > 0 && c.retention > 0
    ensures var s := Exec(c, Initial(start), acts);
            && (e in s.deleted ==> e in s.notified && exists k :: IsSent(s, k, e))
            && (e in s.records && s.records[e].status == Completed ==>
                e in s.notified && IsSent(s, s.records[e].claimId, e))
  {
    EveryRunKeeps(c, start, acts);
    var s := Exec(c, Initial(start), acts);
    if e in s.records { assert RecordOk(c, s, e); }
  }

  predicate Latest(s: State, k: ClaimId) {
    k < |s.grants| && forall d :: k < d < |s.grants| ==> s.grants[d].event != s.grants[k].event
  }

  /** The claim w works with. */
  predicate WorksOn(s: State, w: WorkerId, k: ClaimId) {
    w in s.jobs && s.jobs[w].phase in {Notified(k), Failed(k)}
  }

  /** Completing or releasing touches no record but that of its own event, and that one
      only while its claim is the latest granted for the event and still PROCESSING. */
  lemma Fencing(c: Config, start: Time, acts: seq<Action>, w: WorkerId, k: ClaimId, a: Action, e: EventId)
    requires c.lease > 0 && c.retention > 0
    ensures var s := Exec(c, Initial(start), acts);
            WorksOn(s, w, k) && (a == Release(w) || (a.Complete? && a.w == w)) ==>
              var s' := Next(c, s, a);
              && (e != s.jobs[w].event ==>
                  (e in s'.records <==> e in s.records) && (e in s.records ==> s'.records[e] == s.records[e]))
              && (s'.records != s.records ==> Latest(s, k) && Owns(s.records, s.jobs[w].event, k))
  {
    EveryRunKeeps(c, start, acts);
    var s := Exec(c, Initial(start), acts);
    hide Exec, Inv, Next, Owns, Latest;
    if WorksOn(s, w, k) && (a == Release(w) || (a.Complete? && a.w == w)) {
      SettlingTouchesOwn(c, s, w, k, a, e);
      if Owns(s.records, s.jobs[w].event, k) { OwnerIsLatest(c, s, s.jobs[w].event, k); }
    }
  }

  lemma SettlingTouchesOwn(c: Config, s: State, w: WorkerId, k: ClaimId, a: Action, e: EventId)
    requires WorksOn(s, w, k) && (a == Release(w) || (a.Complete? && a.w == w))
    ensures var s' := Next(c, s, a);
            && (e != s.jobs[w].event ==>
                  (e in s'.records <==> e in s.records) && (e in s.records ==> s'.records[e] == s.records[e]))
            && (s'.records != s.records ==> Owns(s.records, s.jobs[w].event, k))
  {}

  lemma OwnerIsLatest(c: Config, s: State, e: EventId, k: ClaimId)
    requires Inv(c, s) && Owns(s.records, e, k)
    ensures Latest(s, k)
  {
    assert RecordOk(c, s, e);
  }

  /** A holder that completes before its lease ends is never refused. */
  lemma InTimeCompletionSucceeds(c: Config, start: Time, acts: seq<Action>, w: WorkerId, k: ClaimId, reported: bool)
    requires c.lease > 0 && c.retention > 0
    ensures var s := Exec(c, Initial(start), acts);
            w in s.jobs && s.jobs[w].phase == Notified(k) && k < |s.grants| && s.now <= s.grants[k].at + c.lease ==>
              Owns(s.records, s.jobs[w].event, k) && k in Next(c, s, Complete(w, reported)).completed
  {
    EveryRunKeeps(c, start, acts);
    var s := Exec(c, Initial(start), acts);
    if w in s.jobs && s.jobs[w].phase == Notified(k) && k < |s.grants| {
      assert JobOk(s, w, s.jobs[w]);
      assert LeaseGuards(c, s, k);
      if s.jobs[w].event in s.records { assert RecordOk(c, s, s.jobs[w].event); }
    }
  }

  function Spacing(c: Config): int {
    Min(c.lease, c.retention) + 1
  }

  predicate BothSent(s: State, k: ClaimId, d: ClaimId) {
    k < d < |s.grants| && s.grants[k].event == s.grants[d].event && k in s.sent && d in s.sent
  }

  /** Two notified claims of one event were granted more than min(lease, retention) seconds
      apart; more than a full retention when the earlier one was completed. */
  lemma NotifiedClaimsApart(c: Config, start: Time, acts: seq<Action>, k: ClaimId, d: ClaimId)
    requires c.lease > 0 && c.retention > 0
    ensures var s := Exec(c, Initial(start), acts);
            BothSent(s, k, d) ==>
              && s.grants[d].at >= s.grants[k].at + Spacing(c)
              && (k in s.completed ==> s.grants[d].at > s.grants[k].at + c.retention)
  {
    EveryRunKeeps(c, start, acts);
    var s := Exec(c, Initial(start), acts);
    if BothSent(s, k, d) {
      assert Apart(c, s, k, d) && RetentionGuards(c, s, k);
    }
  }

  /** Claims of event e, all notified, in the order they were granted. */
  predicate NotifiedClaims(s: State, e: EventId, ids: seq<ClaimId>) {
    && (forall i :: 0 <= i < |ids| ==> ids[i] < |s.grants| && s.grants[ids[i]].event == e && ids[i] in s.sent)
    && (forall i, j :: 0 <= i < j < |ids| ==> ids[i] < ids[j])
  }

  lemma {:induction false} NotifiedClaimsAddUp(c: Config, start: Time, acts: seq<Action>, e: EventId,
                                               ids: seq<ClaimId>, n: nat)
    requires c.lease > 0 && c.retention > 0 && NotifiedClaims(Exec(c, Initial(start), acts), e, ids) && n < |ids|
    ensures var s := Exec(c, Initial(start), acts);
            s.grants[ids[n]].at >= s.grants[ids[0]].at + n * Spacing(c)
  {
    if n > 0 {
      NotifiedClaimsAddUp(c, start, acts, e, ids, n - 1);
      NotifiedClaimsApart(c, start, acts, ids[n - 1], ids[n]);
      assert n * Spacing(c) == (n - 1) * Spacing(c) + Spacing(c);
    }
  }

  lemma PositiveFactor(a: int, b: int)
    requires b > 0 && a * b > 0
    ensures a > 0
  {}

  lemma CountInWindow(count: nat, step: int, width: nat)
    requires step > 0 && (count - 1) * step <= width
    ensures count <= 1 + width / step
  {
    var q := width / step;
    assert (q + 1) * step > width;
    assert (q + 1 - (count - 1)) * step == (q + 1) * step - (count - 1) * step;
    PositiveFactor(q + 1 - (count - 1), step);
  }

  predicate SentWithin(s: State, e: EventId, ids: seq<ClaimId>, from: Time, width: nat) {
    NotifiedClaims(s, e, ids) && forall i :: 0 <= i < |ids| ==> from <= s.grants[ids[i]].at <= from + width
  }

  /** A window of `width` seconds holds at most 1 + width / (min(lease, retention) + 1)
      notified claims of one event. */
  lemma NotificationsPerWindow(c: Config, start: Time, acts: seq<Action>, e: EventId, ids: seq<ClaimId>,
                               from: Time, width: nat)
    requires c.lease > 0 && c.retention > 0
    ensures SentWithin(Exec(c, Initial(start), acts), e, ids, from, width) ==> |ids| <= 1 + width / Spacing(c)
  {
    hide Exec;
    if SentWithin(Exec(c, Initial(start), acts), e, ids, from, width) && ids != [] {
      NotifiedClaimsAddUp(c, start, acts, e, ids, |ids| - 1);
      hide Spacing;
      assert Spacing(c) > 0 by { SpacingPositive(c); }
      CountInWindow(|ids|, Spacing(c), width);
    }
  }

  lemma SpacingPositive(c: Config)
    requires c.lease > 0 && c.retention > 0
    ensures Spacing(c) > 0
  {}

  /** When every notified claim of an event but the last was completed, as each holder does
      that completes before its lease ends, one retention period holds at most one of them. */
  lemma OncePerRetention(c: Config, start: Time, acts: seq<Action>, e: EventId, ids: seq<ClaimId>, from: Time)
    requires c.lease > 0 && c.retention > 0
    ensures var s := Exec(c, Initial(start), acts);
            SentWithin(s, e, ids, from, c.retention) && (forall i :: 0 <= i < |ids| - 1 ==> ids[i] in s.completed) ==>
              |ids| <= 1
  {
    var s := Exec(c, Initial(start), acts);
    hide Exec;
    if |ids| > 1 && NotifiedClaims(s, e, ids) {
      NotifiedClaimsApart(c, start, acts, ids[0], ids[1]);
      assert ids[0] in s.completed ==> s.grants[ids[1]].at > s.grants[ids[0]].at + c.retention;
    }
  }

  /** No event is ever stuck: whatever has happened, its next message is granted a claim
      once the longer of lease and retention has passed. */
  lemma AlwaysClaimableAgain(c: Config, start: Time, acts: seq<Action>, e: EventId, t: Time)
    requires c.lease > 0 && c.retention > 0
    ensures var s := Exec(c, Initial(start), acts);
            t > s.now + c.lease && t > s.now + c.retention ==> e !in s.records || s.records[e].expiresAt < t
  {
    EveryRunKeeps(c, start, acts);
    var s := Exec(c, Initial(start), acts);
    if e in s.records { assert RecordOk(c, s, e); }
  }

  /** After a crash, whatever the worker was doing, the redelivered message of any event is
      granted a claim, to that same worker too, once both times have passed. */
  lemma CrashedEventIsRetried(c: Config, start: Time, acts: seq<Action>, w: WorkerId, e: EventId, wait: nat)
    requires c.lease > 0 && c.retention > 0 && wait > c.lease && wait > c.retention
    ensures var s := Exec(c, Initial(start), acts);
            var s' := Next(c, Next(c, Next(c, s, Crash(w)), Tick(wait)), Receive(w, e));
            && s'.grants == s.grants + [Grant(e, w, s.now + wait)]
            && w in s'.jobs && s'.jobs[w] == Job(e, Claimed(|s.grants|))
            && e in s'.records && s'.records[e] == Record(Processing, |s.grants|, s.now + wait, s.now + wait,
                                                          s.now + wait + c.lease)
  {
    AlwaysClaimableAgain(c, start, acts, e, Exec(c, Initial(start), acts).now + wait);
  }

  // ------------------------------------------------------------ the consumer's pass is a run

  /** The steps of one undisturbed pass over a message: claim or query, then notify and
      complete or release, then delete. */
  function PassSteps(s: State, w: WorkerId, e: EventId, publishes: bool): seq<Action> {
    if !Claimable(s.records, e, s.now) then [Receive(w, e), Check(w), Delete(w)]
    else if publishes then [Receive(w, e), Publish(w, true, true), Complete(w, true), Delete(w)]
    else [Receive(w, e), Publish(w, false, false), Release(w)]
  }

  function PassCircumstances(s: State, publishes: bool): Circumstances {
    Circumstances(|s.grants|, s.now, None, publishes, None, s.now, true)
  }

  lemma SentPass(c: Config, s: State, w: WorkerId, e: EventId)
    requires w !in s.jobs && Claimable(s.records, e, s.now)
    ensures var sent := Next(c, Next(c, s, Receive(w, e)), Publish(w, true, true));
            var s' := Next(c, Next(c, sent, Complete(w, true)), Delete(w));
            && w !in s'.jobs && e in s'.deleted
            && s'.records == WithCompletion(AtSettle(s.records, e, PassCircumstances(s, true), c.lease),
                                            e, s.now, c.retention)
  {}

  lemma FailedPass(c: Config, s: State, w: WorkerId, e: EventId)
    requires w !in s.jobs && Claimable(s.records, e, s.now)
    ensures var s' := Next(c, Next(c, Next(c, s, Receive(w, e)), Publish(w, false, false)), Release(w));
            && w !in s'.jobs && s'.deleted == s.deleted
            && s'.records == AtSettle(s.records, e, PassCircumstances(s, false), c.lease) - {e}
  {}

  lemma RefusedPass(c: Config, s: State, w: WorkerId, e: EventId)
    requires w !in s.jobs && !Claimable(s.records, e, s.now)
    ensures var s' := Next(c, Next(c, Next(c, s, Receive(w, e)), Check(w)), Delete(w));
            && w !in s'.jobs && s'.records == s.records
            && s'.deleted == s.deleted + if StatusOf(s.records, e) == Some(Completed) then {e} else {}
  {}

  /** An undisturbed pass leaves the records the service's own method leaves, and deletes
      the message exactly when the consumer does. */
  lemma PassIsARun(c: Config, s: State, w: WorkerId, e: EventId, publishes: bool)
    requires w !in s.jobs && e !in s.deleted
    ensures var s' := Exec(c, s, PassSteps(s, w, e, publishes));
            && w !in s'.jobs
            && (Claimable(s.records, e, s.now) ==>
                  var t := AtSettle(s.records, e, PassCircumstances(s, publishes), c.lease);
                  && s'.records == (if publishes then WithCompletion(t, e, s.now, c.retention) else t - {e})
                  && (e in s'.deleted <==> publishes))
            && (!Claimable(s.records, e, s.now) ==>
                  && s'.records == s.records
                  && (e in s'.deleted <==> StatusOf(s.records, e) == Some(Completed)))
  {
    ExecThree(c, s, PassSteps(s, w, e, publishes));
    hide Next, Exec, Claimable, AtSettle, StatusOf;
    if !Claimable(s.records, e, s.now) {
      RefusedPass(c, s, w, e);
    } else if publishes {
      SentPass(c, s, w, e);
    } else {
      FailedPass(c, s, w, e);
    }
  }

  /** A publish that raises although the notification went out is taken back: the event can be
      claimed, and notified, again at once. */
  lemma LostReportIsRetried(c: Config, s: State, w: WorkerId, e: EventId)
    requires w !in s.jobs && Claimable(s.records, e, s.now)
    ensures var s' := Next(c, Next(c, Next(c, s, Receive(w, e)), Publish(w, true, false)), Release(w));
            && e in s'.notified && s'.sent == s.sent && e !in s'.records && s'.deleted == s.deleted
            && w !in s'.jobs
  {}

  /** A completion whose report is lost stands: the message stays in the queue, and its
      redelivery is deleted without another notification. */
  lemma LostCompletionIsDuplicate(c: Config, s: State, w: WorkerId, v: WorkerId, e: EventId)
    requires w !in s.jobs && v !in s.jobs && v != w && Claimable(s.records, e, s.now) && c.retention > 0
    ensures var sent := Next(c, Next(c, s, Receive(w, e)), Publish(w, true, true));
            var lost := Next(c, sent, Complete(w, false));
            var s' := Next(c, Next(c, Next(c, lost, Receive(v, e)), Check(v)), Delete(v));
            && lost.deleted == s.deleted && w !in lost.jobs && StatusOf(lost.records, e) == Some(Completed)
            && s'.deleted == s.deleted + {e} && s'.sent == sent.sent && s'.records == lost.records
  {
    var lost := Next(c, Next(c, Next(c, s, Receive(w, e)), Publish(w, true, true)), Complete(w, false));
    assert StatusOf(lost.records, e) == Some(Completed) && !Claimable(lost.records, e, lost.now);
    RefusedPass(c, lost, v, e);
  }

  /** The table's own removal of expired records goes unnoticed by every later claim. */
  lemma SweepIsInvisible(c: Config, s: State, e: EventId, f: EventId, t: Time)
    requires t >= s.now
    ensures var s' := Next(c, s, Sweep(e));
            && (e in s'.records <==> e in s.records && s.records[e].expiresAt >= s.now)
            && (f != e && f in s.records ==> f in s'.records && s'.records[f] == s.records[f])
            && (Claimable(s'.records, f, t) <==> Claimable(s.records, f, t))
  {}

  lemma ExecThree(c: Config, s: State, acts: seq<Action>)
    requires |acts| == 3 || |acts| == 4
    ensures var s3 := Next(c, Next(c, Next(c, s, acts[0]), acts[1]), acts[2]);
            Exec(c, s, acts) == if |acts| == 4 then Next(c, s3, acts[3]) else s3
  {
    ExecAppend(c, s, [], acts[0]);
    ExecAppend(c, s, acts[..1], acts[1]);
    ExecAppend(c, s, acts[..2], acts[2]);
    assert [] + [acts[0]] == acts[..1] && acts[..1] + [acts[1]] == acts[..2] && acts[..2] + [acts[2]] == acts[..3];
    if |acts| == 4 {
      ExecAppend(c, s, acts[..3], acts[3]);
      assert acts[..3] + [acts[3]] == acts;
    } else {
      assert acts[..3] == acts;
    }
  }

  // ------------------------------------------------------------ the bound is tight

  lemma ExecAppend(c: Config, s: State, acts: seq<Action>, a: Action)
    ensures Exec(c, s, acts + [a]) == Next(c, Exec(c, s, acts), a)
  {
    assert (acts + [a])[..|acts|] == acts;
  }

  const FIRST_SENT: seq<Action> := [] + [Receive("a", 0)] + [Publish("a", true, true)]
  const SENT_TWICE: seq<Action> := FIRST_SENT + [Tick(61)] + [Receive("b", 0)] + [Publish("b", true, true)]
  const DEFAULTS := Config(60, 86400)

  lemma FirstIsSent()
    ensures var s := Exec(DEFAULTS, Initial(0), FIRST_SENT);
            && s.now == 0 && s.grants == [Grant(0, "a", 0)] && s.sent == {0} && s.jobs.Keys == {"a"}
            && s.records == map[0 := Record(Processing, 0, 0, 0, 60)]
  {
    ExecAppend(DEFAULTS, Initial(0), [], Receive("a", 0));
    ExecAppend(DEFAULTS, Initial(0), [] + [Receive("a", 0)], Publish("a", true, true));
  }

  /** A holder that sends but never completes leaves room for a second notification one
      second after its lease, long before the retention is over. */
  lemma UncompletedClaimRepeats()
    ensures var s := Exec(DEFAULTS, Initial(0), SENT_TWICE);
            BothSent(s, 0, 1) && s.grants[1].at == s.grants[0].at + Spacing(DEFAULTS)
  {
    FirstIsSent();
    hide Exec;
    ExecAppend(DEFAULTS, Initial(0), FIRST_SENT, Tick(61));
    ExecAppend(DEFAULTS, Initial(0), FIRST_SENT + [Tick(61)], Receive("b", 0));
    ExecAppend(DEFAULTS, Initial(0), FIRST_SENT + [Tick(61)] + [Receive("b", 0)], Publish("b", true, true));
  }
}
