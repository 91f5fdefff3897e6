/** Acknowledgements that read a row and update it later: exactly which writes keep the
    leases exclusive, the failure counter right and the claims spaced. */
module OutboxAcks {
  import opened Basics
  import opened OutboxTable
  import opened OutboxProtocol

  // ------------------------------------------------------------ the read

  /** The ownership test at the read passes only for the last worker that was granted the
      lease, and only with its claimed failure count still the row's; in a run without
      stale writes it passes for exactly that worker. */
  lemma StaleAckIsRejected(c: Config, start: Time, acts: seq<Action>, w: WorkerId)
    requires c.lease >= 1
    ensures var s := Exec(c, Initial(start), acts);
            IsBusy(s, w) ==>
              var r, claims := s.rows[Head(s, w)], s.claims[Head(s, w)];
              && (OwnedBy(r, w) ==> LastIs(claims, w) && r.attempts == s.workers[w].queue[0].attempts)
              && (EveryWrite(c, start, acts, Fresh) && LastIs(claims, w) ==> OwnedBy(r, w))
  {
    EveryRunKeeps(c, false, start, acts);
    var s := Exec(c, Initial(start), acts);
    if IsBusy(s, w) {
      HeadFacts(c, false, s, w);
      if EveryWrite(c, start, acts, Fresh) {
        EveryRunKeeps(c, true, start, acts);
        HeadFacts(c, true, s, w);
      }
    }
  }

  /** A write made after a separate read lands on the writer's own lease exactly when the
      event was not claimed again between the two. */
  lemma WriteIsStaleIff(c: Config, start: Time, acts: seq<Action>, w: WorkerId)
    requires c.lease >= 1
    ensures var s := Exec(c, Initial(start), acts);
            MayWrite(s, w) ==> (LastIs(s.claims[Head(s, w)], w) <==> !IsStale(s, w))
  {
    EveryRunKeeps(c, false, start, acts);
    var s := Exec(c, Initial(start), acts);
    if MayWrite(s, w) {
      HeadFacts(c, false, s, w);
    }
  }

  // ------------------------------------------------------------ the write

  /** What a write leaves, in every reachable state. */
  lemma AfterWrite(c: Config, s: State, w: WorkerId)
    requires Inv(c, false, s) && MayWrite(s, w)
    ensures var e, k, s' := Head(s, w), s.workers[w], Next(c, s, AckWrite(w));
            && SameKeys(s') && s'.rows.Keys == s.rows.Keys && s'.claims == s.claims && s'.now == s.now
            && s'.workers - {w} == s.workers - {w} && !WorksOn(s', w, e) && s.claims[e] != []
            && (forall f :: f in s.rows && f != e ==> TrackOf(s', f) == TrackOf(s, f))
            && s'.rows[e].lockedBy.None? && s'.rows[e].lockedUntil.None?
            && (k.stage.ok ==>
                  && s'.rows[e].publishedAt.Some? && s'.rows[e].attempts == s.rows[e].attempts
                  && s'.rows[e].nextAttemptAt == s.rows[e].nextAttemptAt && s'.failures[e] == s.failures[e])
            && (!k.stage.ok ==>
                  && s'.rows[e].publishedAt == s.rows[e].publishedAt
                  && s'.rows[e].attempts == k.stage.read.attempts + 1 == k.queue[0].attempts + 1
                  && s'.rows[e].nextAttemptAt == RetryAt(s, w) && s'.failures[e] == s.failures[e] + [k.at])
  {
    HeadFacts(c, false, s, w);
    var e, k := Head(s, w), s.workers[w];
    assert Distinct(k.queue) by { assert WorkerOk(c, false, s, w, k); }
    hide Inv, RowOk, EntryOk, Distinct;
    WriteEffect(c, s.now, e in s.bus, TrackOf(s, e), w, k);
    WrittenIsTrack(c, s, w);
    RestIsDistinct(k.queue);
    WriterMovesOn(c, s, w);
    hide Next, Merge, Wanted;
  }

  lemma RestIsDistinct(queue: seq<Claimed>)
    requires queue != [] && Distinct(queue)
    ensures forall i :: 0 <= i < |queue[1..]| ==> queue[1..][i].event != queue[0].event
  {
    assert forall i :: 0 <= i < |queue[1..]| ==> queue[1..][i] == queue[i + 1];
  }

  lemma WriterMovesOn(c: Config, s: State, w: WorkerId)
    requires MayWrite(s, w)
    requires forall i :: 0 <= i < |s.workers[w].queue[1..]| ==> s.workers[w].queue[1..][i].event != Head(s, w)
    ensures !WorksOn(Next(c, s, AckWrite(w)), w, Head(s, w))
    ensures w in Next(c, s, AckWrite(w)).workers ==>
              Next(c, s, AckWrite(w)).workers[w] == Busy(s.workers[w].at, s.workers[w].queue[1..], Publishing)
  {
    hide IsClaim, Merge, Wanted;
  }

  /** Workers other than the writer are as they were. */
  lemma OthersStay(s: State, s': State, w: WorkerId, v: WorkerId)
    requires s'.workers - {w} == s.workers - {w} && v != w
    ensures v in s'.workers <==> v in s.workers
    ensures v in s.workers ==> s'.workers[v] == s.workers[v]
  {
    assert v in s'.workers <==> v in s'.workers - {w};
    assert v in s.workers <==> v in s.workers - {w};
  }

  /** The last worker granted e, if it still works on e, owns e's row. */
  predicate LastHolderOwns(s: State, e: EventId) {
    e in s.rows && e in s.claims && s.claims[e] != [] && WorksOn(s, LastClaim(s.claims[e]).worker, e) ==>
      s.rows[e].lockedBy == Some(LastClaim(s.claims[e]).worker)
  }

  /** In every reachable state: a write leaves the last holder in possession exactly when the
      event was not claimed again since the writer's read, or that claimer is gone. */
  lemma WriteKeepsOwnershipIff(c: Config, start: Time, acts: seq<Action>, w: WorkerId)
    requires c.lease >= 1
    ensures var s := Exec(c, Initial(start), acts);
            MayWrite(s, w) ==>
              var e := Head(s, w);
              && s.claims[e] != []
              && (LastHolderOwns(Exec(c, Initial(start), acts + [AckWrite(w)]), e) <==>
                    !IsStale(s, w) || !WorksOn(s, LastClaim(s.claims[e]).worker, e))
  {
    EveryRunKeeps(c, false, start, acts);
    ExecAppend(c, Initial(start), acts, AckWrite(w));
    WriteIsStaleIff(c, start, acts, w);
    hide Exec, Inv, Next, IsStale;
    var s := Exec(c, Initial(start), acts);
    if MayWrite(s, w) {
      AfterWrite(c, s, w);
      var v := LastClaim(s.claims[Head(s, w)]).worker;
      if v != w { OthersStay(s, Next(c, s, AckWrite(w)), w, v); }
    }
  }

  // ------------------------------------------------------------ one lease holder

  /** A worker whose lease still runs was granted it last, and nobody else can be granted
      the event before that lease ends: it is published, locked, or not due. */
  predicate LeaseSafeFor(c: Config, now: Time, v: WorkerId, at: Time, t: Track) {
    now < at + c.lease ==>
      LastIs(t.claims, v)
      && (t.row.publishedAt.Some? || t.row.lockedBy == Some(v) || t.row.nextAttemptAt >= at + c.lease)
  }

  predicate BatchSafe(c: Config, s: State, v: WorkerId, k: Worker)
    requires SameKeys(s)
  {
    k.Busy? ==>
      forall i :: 0 <= i < |k.queue| ==>
        k.queue[i].event in s.rows && LeaseSafeFor(c, s.now, v, k.at, TrackOf(s, k.queue[i].event))
  }

  predicate LeasesSafe(c: Config, s: State) {
    SameKeys(s) && forall v :: v in s.workers ==> BatchSafe(c, s, v, s.workers[v])
  }

  lemma GrantIsSafe(c: Config, tidy: bool, now: Time, t: Track, w: WorkerId, at: Time, v: WorkerId, at': Time,
                    x: Claimed)
    requires LockMatches(c, t) && Eligible(t.row, at) && at <= now
    requires v != w ==> EntryOk(c, tidy, now, v, at', x, t) && LeaseSafeFor(c, now, v, at', t)
    requires v == w ==> at' == at
    ensures LeaseSafeFor(c, now, v, at', TrackGranted(c, t, w, at))
  {}

  lemma ClaimIsSafe(c: Config, s: State, w: WorkerId, skipped: set<EventId>, batch: seq<EventId>)
    requires Inv(c, false, s) && LeasesSafe(c, s) && w in s.workers && s.workers[w].Started?
    requires IsClaim(s.rows, s.workers[w].at, skipped, c.limit, batch)
    ensures LeasesSafe(c, Lease(c, s, w, s.workers[w].at, batch))
  {
    hide RowOk, StageOk, EntryOk, LeaseSafeFor, Eligible, Before, LockMatches, TrackGranted;
    var at := s.workers[w].at;
    assert forall i :: 0 <= i < |batch| ==> Selectable(s.rows, at, skipped, batch[i]);
    assert at <= s.now by { assert WorkerOk(c, false, s, w, s.workers[w]); }
    var s' := Lease(c, s, w, at, batch);
    LeasedIsTrack(c, s, w, at, batch);
    hide IsClaim, TrackOf;
    forall v | v in s'.workers ensures BatchSafe(c, s', v, s'.workers[v]) {
      if v != w {
        OthersStay(s, s', w, v);
        OtherBatchSafe(c, s, s', w, at, batch, v);
      } else {
        OwnBatchSafe(c, s, s', w, at, batch);
      }
    }
  }

  lemma OtherBatchSafe(c: Config, s: State, s': State, w: WorkerId, at: Time, batch: seq<EventId>, v: WorkerId)
    requires Inv(c, false, s) && LeasesSafe(c, s) && v in s.workers && v != w && at <= s.now
    requires forall i :: 0 <= i < |batch| ==> batch[i] in s.rows && Eligible(s.rows[batch[i]], at)
    requires SameKeys(s') && s'.rows.Keys == s.rows.Keys && s'.now == s.now
    requires forall f :: f in s.rows ==>
               TrackOf(s', f) == if f in batch then TrackGranted(c, TrackOf(s, f), w, at) else TrackOf(s, f)
    ensures BatchSafe(c, s', v, s.workers[v])
  {
    hide RowOk, StageOk, EntryOk, LeaseSafeFor, Eligible, LockMatches, TrackGranted;
    assert WorkerOk(c, false, s, v, s.workers[v]) && BatchSafe(c, s, v, s.workers[v]);
    var k := s.workers[v];
    if k.Busy? {
      forall i | 0 <= i < |k.queue|
        ensures k.queue[i].event in s'.rows && LeaseSafeFor(c, s'.now, v, k.at, TrackOf(s', k.queue[i].event))
      {
        var f := k.queue[i].event;
        if f in batch {
          RowLock(c, s.now, f in s.bus, TrackOf(s, f));
          GrantIsSafe(c, false, s.now, TrackOf(s, f), w, at, v, k.at, k.queue[i]);
        }
      }
    }
  }

  lemma OwnBatchSafe(c: Config, s: State, s': State, w: WorkerId, at: Time, batch: seq<EventId>)
    requires Inv(c, false, s) && at <= s.now
    requires forall i :: 0 <= i < |batch| ==> batch[i] in s.rows && Eligible(s.rows[batch[i]], at)
    requires SameKeys(s') && s'.rows.Keys == s.rows.Keys && s'.now == s.now
    requires forall f :: f in s.rows ==>
               TrackOf(s', f) == if f in batch then TrackGranted(c, TrackOf(s, f), w, at) else TrackOf(s, f)
    ensures BatchSafe(c, s', w, Busy(at, Snapshots(s.rows, batch), Publishing))
  {
    hide StageOk, EntryOk, LeaseSafeFor, Eligible, LockMatches, TrackGranted;
    forall i | 0 <= i < |batch| ensures LeaseSafeFor(c, s'.now, w, at, TrackOf(s', batch[i])) {
      var f := batch[i];
      assert f in batch;
      RowLock(c, s.now, f in s.bus, TrackOf(s, f));
      GrantIsSafe(c, false, s.now, TrackOf(s, f), w, at, w, at, Claimed(f, 0));
    }
  }

  /** The written event, for a worker other than the writer. */
  lemma WriteIsSafeFor(c: Config, s: State, w: WorkerId, v: WorkerId, i: nat)
    requires Inv(c, false, s) && MayWrite(s, w) && v in s.workers && v != w && s.workers[v].Busy?
    requires i < |s.workers[v].queue| && s.workers[v].queue[i].event == Head(s, w) && !HarmsLease(c, s, w)
    requires LeaseSafeFor(c, s.now, v, s.workers[v].at, TrackOf(s, Head(s, w)))
    ensures LeaseSafeFor(c, s.now, v, s.workers[v].at, TrackOf(Next(c, s, AckWrite(w)), Head(s, w)))
  {
    AfterWrite(c, s, w);
    assert WorkerOk(c, false, s, v, s.workers[v]);
    hide Inv, RowOk, StageOk, Next;
    assert WorksOn(s, v, Head(s, w));
  }

  lemma WriteIsSafe(c: Config, s: State, w: WorkerId)
    requires Inv(c, false, s) && LeasesSafe(c, s) && MayWrite(s, w) && !HarmsLease(c, s, w)
    ensures LeasesSafe(c, Next(c, s, AckWrite(w)))
  {
    AfterWrite(c, s, w);
    assert WorkerOk(c, false, s, w, s.workers[w]);
    RestIsDistinct(s.workers[w].queue);
    WriterMovesOn(c, s, w);
    hide RowOk, StageOk, EntryOk, Next, LeaseSafeFor, HarmsLease, Distinct;
    var e, s' := Head(s, w), Next(c, s, AckWrite(w));
    forall v | v in s'.workers ensures BatchSafe(c, s', v, s'.workers[v]) {
      assert BatchSafe(c, s, w, s.workers[w]);
      if v != w {
        OthersStay(s, s', w, v);
        assert WorkerOk(c, false, s, v, s.workers[v]) && BatchSafe(c, s, v, s.workers[v]);
        if s.workers[v].Busy? {
          forall i | 0 <= i < |s.workers[v].queue| && s.workers[v].queue[i].event == e
            ensures LeaseSafeFor(c, s'.now, v, s.workers[v].at, TrackOf(s', e))
          {
            WriteIsSafeFor(c, s, w, v, i);
          }
        }
      } else {
        assert forall i :: 0 <= i < |s.workers[w].queue[1..]| ==>
                 s.workers[w].queue[1..][i] == s.workers[w].queue[i + 1];
      }
    }
  }

  /** Steps other than claims and writes leave the tracks alone, but for a new event, and
      the clock only moves on. */
  lemma QuietStepTracks(c: Config, s: State, a: Action)
    requires SameKeys(s) && !a.Claim? && !a.AckWrite?
    ensures var s' := Next(c, s, a);
            && SameKeys(s') && s'.now >= s.now
            && (forall e :: e in s.rows ==> e in s'.rows && TrackOf(s', e) == TrackOf(s, e))
            && (forall e :: e in s'.rows && e !in s.rows ==>
                  s'.rows[e].attempts == 0 && s'.claims[e] == [] && s'.failures[e] == [])
  {
    hide IsClaim, Write, Lease, Merge, Wanted, Written, OwnedBy;
  }

  /** Nor do they change a batch or an old clock reading. */
  lemma QuietStepWorkers(c: Config, s: State, a: Action)
    requires !a.Claim? && !a.AckWrite?
    ensures var s' := Next(c, s, a);
            && (forall v :: v in s'.workers && s'.workers[v].Busy? ==>
                  && v in s.workers && s.workers[v].Busy?
                  && s'.workers[v].at == s.workers[v].at && s'.workers[v].queue == s.workers[v].queue)
            && (forall v :: v in s'.workers && s'.workers[v].Started? ==>
                  if v in s.workers then s'.workers[v] == s.workers[v] else s'.workers[v].at == s.now)
  {
    hide IsClaim, Write, Lease, Merge, Wanted, Written, OwnedBy;
  }

  lemma QuietStepIsSafe(c: Config, s: State, a: Action)
    requires Inv(c, false, s) && LeasesSafe(c, s) && !a.Claim? && !a.AckWrite?
    ensures LeasesSafe(c, Next(c, s, a))
  {
    QuietStepTracks(c, s, a);
    QuietStepWorkers(c, s, a);
    hide Next, Inv, TrackOf;
    var s' := Next(c, s, a);
    forall v | v in s'.workers ensures BatchSafe(c, s', v, s'.workers[v]) {
      if s'.workers[v].Busy? { assert BatchSafe(c, s, v, s.workers[v]); }
    }
  }

  /** Every other step keeps the leases safe; a write does exactly when it harms none. */
  lemma StepIsSafeIff(c: Config, s: State, a: Action)
    requires Inv(c, false, s) && LeasesSafe(c, s)
    ensures LeasesSafe(c, Next(c, s, a)) <==> Meets(c, s, a, LeaseSafe)
  {
    hide Inv, LeasesSafe, HarmsLease, Lease, Write, IsClaim;
    if a.Claim? {
      if MayClaim(c, s, a) { ClaimIsSafe(c, s, a.w, a.skipped, a.batch); }
    } else if a.AckWrite? {
      if MayWrite(s, a.w) {
        if HarmsLease(c, s, a.w) { HarmIsUnsafe(c, s, a.w); } else { WriteIsSafe(c, s, a.w); }
      }
    } else {
      QuietStepIsSafe(c, s, a);
    }
  }

  lemma HarmIsUnsafe(c: Config, s: State, w: WorkerId)
    requires Inv(c, false, s) && MayWrite(s, w) && HarmsLease(c, s, w)
    ensures !LeasesSafe(c, Next(c, s, AckWrite(w)))
  {
    AfterWrite(c, s, w);
    var e, s' := Head(s, w), Next(c, s, AckWrite(w));
    var v := LastClaim(s.claims[e]).worker;
    var i :| 0 <= i < |s.workers[v].queue| && s.workers[v].queue[i].event == e;
    GrantedAtPass(c, s, v, i, e);
    OthersStay(s, s', w, v);
    hide Next, Inv;
    assert !LeaseSafeFor(c, s'.now, v, s'.workers[v].at, TrackOf(s', e));
    assert !BatchSafe(c, s', v, s'.workers[v]);
  }

  /** The last grant of an event its worker still works on is that of the current pass. */
  lemma GrantedAtPass(c: Config, s: State, v: WorkerId, i: nat, e: EventId)
    requires Inv(c, false, s) && v in s.workers && s.workers[v].Busy? && e in s.claims && LastIs(s.claims[e], v)
    requires i < |s.workers[v].queue| && s.workers[v].queue[i].event == e
    ensures LastClaim(s.claims[e]).at == s.workers[v].at
  {
    hide RowOk, StageOk;
    assert WorkerOk(c, false, s, v, s.workers[v]);
    assert EntryOk(c, false, s.now, v, s.workers[v].at, s.workers[v].queue[i], TrackOf(s, e));
  }

  /** w works on e under a lease that has not run out. */
  predicate Holds(c: Config, s: State, w: WorkerId, i: nat, e: EventId) {
    && w in s.workers && s.workers[w].Busy? && i < |s.workers[w].queue| && s.workers[w].queue[i].event == e
    && s.now < s.workers[w].at + c.lease
  }

  /** A free, due row can be claimed by whoever is about to, others being skipped. */
  lemma FreeRowIsClaimed(c: Config, s: State, u: WorkerId, e: EventId)
    requires c.limit >= 1 && SameKeys(s) && u in s.workers && s.workers[u].Started? && e in s.rows
    requires Eligible(s.rows[e], s.workers[u].at)
    ensures var s' := Next(c, s, Claim(u, s.rows.Keys - {e}, [e]));
            && s'.now == s.now && SameKeys(s') && s'.workers.Keys == s.workers.Keys
            && (forall v :: v in s.workers && v != u ==> s'.workers[v] == s.workers[v])
            && s'.workers[u].Busy? && s'.workers[u].at == s.workers[u].at
            && |s'.workers[u].queue| == 1 && s'.workers[u].queue[0].event == e
            && e in s'.claims && s'.claims[e] == s.claims[e] + [Grant(u, s.workers[u].at)]
  {
    OnlyThisClaim(s.rows, s.workers[u].at, c.limit, e);
    hide IsClaim, Eligible;
    assert MayClaim(c, s, Claim(u, s.rows.Keys - {e}, [e]));
    assert Snapshots(s.rows, [e]) == [Claimed(e, s.rows[e].attempts)];
  }

  lemma OnlyThisClaim(rows: Rows, now: Time, limit: nat, e: EventId)
    requires limit >= 1 && e in rows && Eligible(rows[e], now)
    ensures IsClaim(rows, now, rows.Keys - {e}, limit, [e])
  {
    forall f | Selectable(rows, now, rows.Keys - {e}, f) ensures f in [e] {
      assert f in rows.Keys;
    }
  }

  /** The write, some waiting, and a free worker's claim of the event. */
  function ReclaimSteps(s: State, w: WorkerId, wait: nat, u: WorkerId): seq<Action>
    requires MayWrite(s, w)
  {
    [] + [AckWrite(w)] + [Tick(wait)] + [Start(u)] + [Claim(u, s.rows.Keys - {Head(s, w)}, [Head(s, w)])]
  }

  function WaitFor(s: State, w: WorkerId): nat
    requires MayWrite(s, w)
  {
    if RetryAt(s, w) <= s.now then 0 else RetryAt(s, w) - s.now
  }

  /** After the failure the row is free and due once the retry time has come. */
  lemma FailureFreesRow(c: Config, s: State, w: WorkerId)
    requires Inv(c, false, s) && MayWrite(s, w) && Reopens(s, w)
    ensures var e, s' := Head(s, w), Next(c, s, AckWrite(w));
            && SameKeys(s') && s'.rows.Keys == s.rows.Keys && s'.claims == s.claims && s'.now == s.now
            && s'.workers - {w} == s.workers - {w}
            && forall t :: t >= RetryAt(s, w) ==> Eligible(s'.rows[e], t)
  {
    AfterWrite(c, s, w);
    hide Next, Inv;
  }

  lemma ReclaimFree(c: Config, s: State, wait: nat, u: WorkerId, e: EventId)
    requires c.limit >= 1 && SameKeys(s) && u !in s.workers && e in s.rows && Eligible(s.rows[e], s.now + wait)
    ensures var t := s.now + wait;
            var s' := Next(c, Next(c, Next(c, s, Tick(wait)), Start(u)), Claim(u, s.rows.Keys - {e}, [e]));
            && s'.now == t && (forall v :: v in s.workers ==> v in s'.workers && s'.workers[v] == s.workers[v])
            && u in s'.workers && s'.workers[u].Busy? && s'.workers[u].at == t
            && |s'.workers[u].queue| == 1 && s'.workers[u].queue[0].event == e
            && e in s'.claims && s'.claims[e] == s.claims[e] + [Grant(u, t)]
  {
    TickAndStart(c, s, wait, u);
    hide Eligible;
    FreeRowIsClaimed(c, s.(now := s.now + wait, workers := s.workers[u := Started(s.now + wait)]), u, e);
    hide Next;
  }

  lemma ReclaimRuns(c: Config, s: State, w: WorkerId, u: WorkerId)
    requires Inv(c, false, s) && MayWrite(s, w) && Reopens(s, w) && u !in s.workers && c.limit >= 1
    ensures var e, t, s' := Head(s, w), s.now + WaitFor(s, w), Exec(c, s, ReclaimSteps(s, w, WaitFor(s, w), u));
            && s'.now == t
            && (forall v :: v in s.workers && v != w ==> v in s'.workers && s'.workers[v] == s.workers[v])
            && u in s'.workers && s'.workers[u].Busy? && s'.workers[u].at == t
            && |s'.workers[u].queue| == 1 && s'.workers[u].queue[0].event == e
            && e in s'.claims && s'.claims[e] == s.claims[e] + [Grant(u, t)]
  {
    hide Next, Inv, Eligible, Exec, Reopens, RetryAt;
    var e, wait := Head(s, w), WaitFor(s, w);
    InvKeys(c, s);
    FailureFreesRow(c, s, w);
    ExecFour(c, s, AckWrite(w), Tick(wait), Start(u), Claim(u, s.rows.Keys - {e}, [e]));
    assert Eligible(Next(c, s, AckWrite(w)).rows[e], s.now + wait);
    ReclaimAfter(c, s, Next(c, s, AckWrite(w)), w, wait, u, e);
  }

  lemma InvKeys(c: Config, s: State)
    requires Inv(c, false, s)
    ensures SameKeys(s)
  {}

  lemma ReclaimAfter(c: Config, s: State, s1: State, w: WorkerId, wait: nat, u: WorkerId, e: EventId)
    requires c.limit >= 1 && u !in s.workers && w in s.workers && s.rows.Keys == s1.rows.Keys && s1.claims == s.claims
    requires SameKeys(s1) && s1.workers - {w} == s.workers - {w} && e in s1.rows && e in s.claims
    requires Eligible(s1.rows[e], s1.now + wait)
    ensures var t := s1.now + wait;
            var s' := Next(c, Next(c, Next(c, s1, Tick(wait)), Start(u)), Claim(u, s.rows.Keys - {e}, [e]));
            && s'.now == t
            && (forall v :: v in s.workers && v != w ==> v in s'.workers && s'.workers[v] == s.workers[v])
            && u in s'.workers && s'.workers[u].Busy? && s'.workers[u].at == t
            && |s'.workers[u].queue| == 1 && s'.workers[u].queue[0].event == e
            && e in s'.claims && s'.claims[e] == s.claims[e] + [Grant(u, t)]
  {
    hide Next, Eligible, Exec;
    OthersStay(s, s1, w, u);
    ReclaimFree(c, s1, wait, u, e);
    forall v | v in s.workers && v != w ensures v in s1.workers && s1.workers[v] == s.workers[v] {
      OthersStay(s, s1, w, v);
    }
  }

  lemma TickAndStart(c: Config, s: State, wait: nat, u: WorkerId)
    requires u !in s.workers
    ensures Next(c, Next(c, s, Tick(wait)), Start(u)) ==
            s.(now := s.now + wait, workers := s.workers[u := Started(s.now + wait)])
  {}

  lemma ExecFour(c: Config, s: State, a1: Action, a2: Action, a3: Action, a4: Action)
    ensures Exec(c, s, [] + [a1] + [a2] + [a3] + [a4]) == Next(c, Next(c, Next(c, Next(c, s, a1), a2), a3), a4)
  {
    hide Next;
    ExecAppend(c, s, [], a1);
    ExecAppend(c, s, [] + [a1], a2);
    ExecAppend(c, s, [] + [a1] + [a2], a3);
    ExecAppend(c, s, [] + [a1] + [a2] + [a3], a4);
  }

  lemma {:induction false} ExecSplit(c: Config, s: State, acts: seq<Action>, more: seq<Action>)
    ensures Exec(c, s, acts + more) == Exec(c, Exec(c, s, acts), more)
  {
    hide Next;
    if more == [] {
      assert acts + more == acts;
    } else {
      var n := |more| - 1;
      ExecSplit(c, s, acts, more[..n]);
      assert (acts + more)[..|acts + more| - 1] == acts + more[..n];
    }
  }

  /** From every reachable state: after a crash of any worker, whatever it was doing, every
      unpublished event can be claimed again, by that same worker too, once a lease and the
      longest retry delay have passed. */
  lemma CrashedEventIsReclaimed(c: Config, start: Time, acts: seq<Action>, w: WorkerId, e: EventId, wait: nat)
    requires c.lease >= 1 && c.limit >= 1 && wait >= c.lease && wait >= 600
    requires var s := Exec(c, Initial(start), acts); e in s.rows && s.rows[e].publishedAt.None?
    ensures var s := Exec(c, Initial(start), acts);
            var recovery := [] + [Crash(w)] + [Tick(wait)] + [Start(w)] + [Claim(w, s.rows.Keys - {e}, [e])];
            var s' := Exec(c, Initial(start), acts + recovery);
            Holds(c, s', w, 0, e) && e in s.claims && e in s'.claims
            && s'.claims[e] == s.claims[e] + [Grant(w, s.now + wait)]
  {
    hide Exec, Eligible, SameKeys, Holds;
    UnpublishedIsDue(c, start, acts, e, wait);
    var s := Exec(c, Initial(start), acts);
    var recovery := [] + [Crash(w)] + [Tick(wait)] + [Start(w)] + [Claim(w, s.rows.Keys - {e}, [e])];
    ExecSplit(c, Initial(start), acts, recovery);
    RecoveryRuns(c, s, w, e, wait);
  }

  lemma UnpublishedIsDue(c: Config, start: Time, acts: seq<Action>, e: EventId, wait: nat)
    requires c.lease >= 1 && wait >= c.lease && wait >= 600
    requires var s := Exec(c, Initial(start), acts); e in s.rows && s.rows[e].publishedAt.None?
    ensures var s := Exec(c, Initial(start), acts); SameKeys(s) && Eligible(s.rows[e], s.now + wait)
  {
    EveryRunKeeps(c, false, start, acts);
    InvKeys(c, Exec(c, Initial(start), acts));
    hide Exec, Inv, Eligible, IsClaim;
    NoEventIsStuck(c, start, acts, e, Exec(c, Initial(start), acts).now + wait, {}, []);
  }

  lemma RecoveryRuns(c: Config, s: State, w: WorkerId, e: EventId, wait: nat)
    requires c.lease >= 1 && c.limit >= 1 && SameKeys(s) && e in s.rows && Eligible(s.rows[e], s.now + wait)
    ensures var recovery := [] + [Crash(w)] + [Tick(wait)] + [Start(w)] + [Claim(w, s.rows.Keys - {e}, [e])];
            var s' := Exec(c, s, recovery);
            Holds(c, s', w, 0, e) && e in s.claims && e in s'.claims
            && s'.claims[e] == s.claims[e] + [Grant(w, s.now + wait)]
  {
    ExecFour(c, s, Crash(w), Tick(wait), Start(w), Claim(w, s.rows.Keys - {e}, [e]));
    CrashForgets(c, s, w);
    hide Next, Exec, Eligible;
    ReclaimFree(c, s.(workers := s.workers - {w}), wait, w, e);
  }

  /** A crash loses the worker's progress and nothing else. */
  lemma CrashForgets(c: Config, s: State, w: WorkerId)
    ensures Next(c, s, Crash(w)) == s.(workers := s.workers - {w})
  {}

  /** From every reachable state: a failure that makes the event due before another worker's
      running lease on it ends leads to two holders. */
  lemma EarlyRetryMakesTwoHolders(c: Config, start: Time, acts: seq<Action>, w: WorkerId, v: WorkerId, i: nat,
                                  u: WorkerId)
    requires c.lease >= 1 && c.limit >= 1
    requires var s := Exec(c, Initial(start), acts);
             && MayWrite(s, w) && Reopens(s, w) && v != w && Holds(c, s, v, i, Head(s, w))
             && RetryAt(s, w) < s.workers[v].at + c.lease && u !in s.workers
    ensures var s := Exec(c, Initial(start), acts);
            var s' := Exec(c, Initial(start), acts + ReclaimSteps(s, w, WaitFor(s, w), u));
            v != u && Holds(c, s', v, i, Head(s, w)) && Holds(c, s', u, 0, Head(s, w))
  {
    EveryRunKeeps(c, false, start, acts);
    var s := Exec(c, Initial(start), acts);
    ExecSplit(c, Initial(start), acts, ReclaimSteps(s, w, WaitFor(s, w), u));
    ReclaimRuns(c, s, w, u);
  }

  /** Hence every write that harms a lease does lead to two holders. */
  lemma HarmfulWriteMakesTwoHolders(c: Config, start: Time, acts: seq<Action>, w: WorkerId, u: WorkerId)
    returns (more: seq<Action>, v: WorkerId, i: nat)
    requires c.lease >= 1 && c.limit >= 1
    requires var s := Exec(c, Initial(start), acts); MayWrite(s, w) && HarmsLease(c, s, w) && u !in s.workers
    ensures var s := Exec(c, Initial(start), acts);
            var s' := Exec(c, Initial(start), acts + [AckWrite(w)] + more);
            v != u && Holds(c, s', v, i, Head(s, w)) && Holds(c, s', u, 0, Head(s, w))
  {
    EveryRunKeeps(c, false, start, acts);
    var s := Exec(c, Initial(start), acts);
    var e := Head(s, w);
    v := LastClaim(s.claims[e]).worker;
    i :| 0 <= i < |s.workers[v].queue| && s.workers[v].queue[i].event == e;
    GrantedAtPass(c, s, v, i, e);
    EarlyRetryMakesTwoHolders(c, start, acts, w, v, i, u);
    more := [Tick(WaitFor(s, w))] + [Start(u)] + [Claim(u, s.rows.Keys - {e}, [e])];
    assert acts + [AckWrite(w)] + more == acts + ReclaimSteps(s, w, WaitFor(s, w), u);
  }

  // ------------------------------------------------------------ the failure counter

  /** The counter is the number of recorded failures, each followed by its retry delay, the
      last of which is not over before the event is due. */
  predicate InOrder(t: Track) {
    && t.row.attempts == |t.failures|
    && (forall k :: 0 <= k < |t.failures| - 1 ==> t.failures[k + 1] >= t.failures[k] + RetryDelay(k))
    && (t.failures != [] ==> t.failures[|t.failures| - 1] + RetryDelay(|t.failures| - 1) <= t.row.nextAttemptAt)
  }

  predicate CountersRight(s: State) {
    SameKeys(s) && forall e :: e in s.rows ==> InOrder(TrackOf(s, e))
  }

  /** A write keeps its event's history in order exactly when it records a success, or the
      row's counter is still the one it read. */
  lemma WriteKeepsOrderIff(c: Config, s: State, w: WorkerId)
    requires Inv(c, false, s) && MayWrite(s, w) && InOrder(TrackOf(s, Head(s, w)))
    ensures SameKeys(Next(c, s, AckWrite(w))) && Head(s, w) in Next(c, s, AckWrite(w)).rows
    ensures InOrder(TrackOf(Next(c, s, AckWrite(w)), Head(s, w))) <==> !HarmsCounter(s, w)
  {
    AfterWrite(c, s, w);
    HeadFacts(c, false, s, w);
    hide Next, Inv, RowOk, InOrder, ReadOk;
    var e, k, s' := Head(s, w), s.workers[w], Next(c, s, AckWrite(w));
    if k.stage.ok {
      SuccessKeepsOrder(TrackOf(s, e), TrackOf(s', e));
    } else {
      FailureKeepsOrderIff(TrackOf(s, e), TrackOf(s', e), k.at, k.queue[0]);
    }
  }

  lemma SuccessKeepsOrder(t: Track, t': Track)
    requires InOrder(t) && t'.failures == t.failures
    requires t'.row.attempts == t.row.attempts && t'.row.nextAttemptAt == t.row.nextAttemptAt
    ensures InOrder(t')
  {}

  lemma FailureKeepsOrderIff(t: Track, t': Track, at: Time, x: Claimed)
    requires InOrder(t) && x.attempts <= |t.failures| && (x.attempts == |t.failures| ==> t.row.nextAttemptAt <= at)
    requires t'.failures == t.failures + [at] && t'.row.attempts == x.attempts + 1
    requires t'.row.nextAttemptAt == at + RetryDelay(x.attempts)
    ensures InOrder(t') <==> t.row.attempts == x.attempts
  {}

  /** In every reachable state where the counter is right: a write keeps it right exactly
      when it records a success, or the counter is still the one it read. */
  lemma WriteKeepsCounterIff(c: Config, start: Time, acts: seq<Action>, w: WorkerId)
    requires c.lease >= 1
    ensures var s := Exec(c, Initial(start), acts);
            MayWrite(s, w) && s.rows[Head(s, w)].attempts == |s.failures[Head(s, w)]| ==>
              var e, s' := Head(s, w), Exec(c, Initial(start), acts + [AckWrite(w)]);
              && e in s'.rows && e in s'.failures
              && (s'.rows[e].attempts == |s'.failures[e]| <==> !HarmsCounter(s, w))
  {
    EveryRunKeeps(c, false, start, acts);
    ExecAppend(c, Initial(start), acts, AckWrite(w));
    hide Exec, Inv, Next;
    var s := Exec(c, Initial(start), acts);
    if MayWrite(s, w) {
      AfterWrite(c, s, w);
    }
  }

  /** Every other step leaves histories in order; a write does exactly when it harms no
      counter. */
  lemma StepKeepsOrderIff(c: Config, s: State, a: Action)
    requires Inv(c, false, s) && CountersRight(s)
    ensures CountersRight(Next(c, s, a)) <==> Meets(c, s, a, CounterSafe)
  {
    hide InOrder, HarmsCounter, Inv;
    if a.AckWrite? {
      if MayWrite(s, a.w) {
        WriteKeepsOrderIff(c, s, a.w);
        AfterWrite(c, s, a.w);
        hide Next;
      }
    } else if a.Claim? {
      if MayClaim(c, s, a) { ClaimKeepsOrder(c, s, a.w, a.skipped, a.batch); }
    } else {
      QuietStepKeepsOrder(c, s, a);
    }
  }

  lemma ClaimKeepsOrder(c: Config, s: State, w: WorkerId, skipped: set<EventId>, batch: seq<EventId>)
    requires CountersRight(s) && w in s.workers && s.workers[w].Started?
    requires IsClaim(s.rows, s.workers[w].at, skipped, c.limit, batch)
    ensures CountersRight(Lease(c, s, w, s.workers[w].at, batch))
  {
    assert forall i :: 0 <= i < |batch| ==> Selectable(s.rows, s.workers[w].at, skipped, batch[i]);
    LeasedIsTrack(c, s, w, s.workers[w].at, batch);
    hide IsClaim, Lease, InOrder, Selectable, TrackOf;
    var s' := Lease(c, s, w, s.workers[w].at, batch);
    forall e | e in s'.rows ensures InOrder(TrackOf(s', e)) {
      LeaseKeepsOrder(c, TrackOf(s, e), w, s.workers[w].at);
    }
  }

  lemma LeaseKeepsOrder(c: Config, t: Track, w: WorkerId, at: Time)
    requires InOrder(t)
    ensures InOrder(TrackGranted(c, t, w, at))
  {}

  lemma QuietStepKeepsOrder(c: Config, s: State, a: Action)
    requires CountersRight(s) && !a.Claim? && !a.AckWrite?
    ensures CountersRight(Next(c, s, a))
  {
    QuietStepTracks(c, s, a);
    hide Next;
    var s' := Next(c, s, a);
    forall e | e in s'.rows ensures InOrder(TrackOf(s', e)) {
      assert e in s.rows ==> InOrder(TrackOf(s, e));
    }
  }

  /** The n retry delays that follow the first failure, added up. */
  function TotalDelay(n: nat): int {
    if n == 0 then 0 else TotalDelay(n - 1) + RetryDelay(n - 1)
  }

  lemma {:induction false} DelaysAddUp(t: Track, n: nat)
    requires InOrder(t) && n < |t.failures|
    ensures t.failures[n] >= t.failures[0] + TotalDelay(n)
  {
    if n > 0 {
      DelaysAddUp(t, n - 1);
    }
  }

  // ------------------------------------------------------------ the rate of claims

  predicate ClaimsSpaced(c: Config, claims: seq<Grant>) {
    forall k :: 0 <= k < |claims| - 1 ==> claims[k + 1].at >= claims[k].at + Gap(c)
  }

  /** No worker can be granted the event again with a clock reading within Gap of the last
      grant: it is published, locked, not due, or that time is over for everybody. */
  predicate OutOfReach(c: Config, s: State, t: Track) {
    && ClaimsSpaced(c, t.claims)
    && (t.claims != [] && t.row.publishedAt.None? && t.row.lockedBy.None? ==>
          var until := LastClaim(t.claims).at + Gap(c);
          t.row.nextAttemptAt >= until || (s.now >= until && !StartedWithin(s, t.row.nextAttemptAt, until)))
  }

  predicate RateKept(c: Config, s: State) {
    SameKeys(s) && forall e :: e in s.rows ==> OutOfReach(c, s, TrackOf(s, e))
  }

  /** The clock moves on, and whoever is about to claim was before, or starts now. */
  predicate NoEarlierStarts(s: State, s': State) {
    && s'.now >= s.now
    && forall v :: v in s'.workers && s'.workers[v].Started? ==>
         (v in s.workers && s.workers[v].Started? && s'.workers[v].at == s.workers[v].at) || s'.workers[v].at >= s.now
  }

  lemma StillOutOfReach(c: Config, s: State, s': State, t: Track)
    requires OutOfReach(c, s, t) && NoEarlierStarts(s, s')
    ensures OutOfReach(c, s', t)
  {
    if t.claims != [] && s.now >= LastClaim(t.claims).at + Gap(c) {
      NoNewStarts(s, s', t.row.nextAttemptAt, LastClaim(t.claims).at + Gap(c));
    }
    hide StartedWithin, NoEarlierStarts, ClaimsSpaced;
  }

  lemma NoNewStarts(s: State, s': State, from: Time, until: Time)
    requires NoEarlierStarts(s, s') && s.now >= until
    ensures StartedWithin(s', from, until) ==> StartedWithin(s, from, until)
  {}

  lemma GrantIsSpaced(c: Config, s: State, s': State, t: Track, w: WorkerId, inBus: bool)
    requires OutOfReach(c, s, t) && RowOk(c, s.now, inBus, t) && w in s.workers && s.workers[w].Started?
    requires Eligible(t.row, s.workers[w].at) && c.lease >= 1
    ensures OutOfReach(c, s', TrackGranted(c, t, w, s.workers[w].at))
  {
    var at := s.workers[w].at;
    if t.claims != [] {
      assert t.row.lockedBy.None? ==>
          !StartedWithin(s, t.row.nextAttemptAt, LastClaim(t.claims).at + Gap(c)) ==>
            at >= LastClaim(t.claims).at + Gap(c);
    }
  }

  lemma ClaimKeepsRate(c: Config, s: State, w: WorkerId, skipped: set<EventId>, batch: seq<EventId>)
    requires Inv(c, false, s) && RateKept(c, s) && w in s.workers && s.workers[w].Started?
    requires IsClaim(s.rows, s.workers[w].at, skipped, c.limit, batch)
    ensures RateKept(c, Lease(c, s, w, s.workers[w].at, batch))
  {
    assert forall i :: 0 <= i < |batch| ==> Selectable(s.rows, s.workers[w].at, skipped, batch[i]);
    var at := s.workers[w].at;
    var s' := Lease(c, s, w, at, batch);
    LeasedIsTrack(c, s, w, at, batch);
    forall v | v in s'.workers && s'.workers[v].Started?
      ensures v in s.workers && s.workers[v].Started? && s'.workers[v].at == s.workers[v].at
    {
      if v != w { OthersStay(s, s', w, v); }
    }
    hide IsClaim, Lease, OutOfReach, RowOk, WorkerOk, Eligible, TrackGranted;
    forall e | e in s'.rows ensures OutOfReach(c, s', TrackOf(s', e)) {
      if e in batch {
        GrantIsSpaced(c, s, s', TrackOf(s, e), w, e in s.bus);
      } else {
        StillOutOfReach(c, s, s', TrackOf(s, e));
      }
    }
  }

  lemma QuietStepKeepsRate(c: Config, s: State, a: Action)
    requires RateKept(c, s) && !a.Claim? && !a.AckWrite?
    ensures RateKept(c, Next(c, s, a))
  {
    QuietStepTracks(c, s, a);
    QuietStepWorkers(c, s, a);
    hide Next;
    var s' := Next(c, s, a);
    forall e | e in s'.rows ensures OutOfReach(c, s', TrackOf(s', e)) {
      if e in s.rows { StillOutOfReach(c, s, s', TrackOf(s, e)); }
    }
  }

  /** A write keeps its event out of reach exactly when it does not harm the rate. */
  lemma WriteKeepsReachIff(c: Config, s: State, w: WorkerId)
    requires Inv(c, false, s) && MayWrite(s, w) && OutOfReach(c, s, TrackOf(s, Head(s, w)))
    ensures SameKeys(Next(c, s, AckWrite(w))) && Head(s, w) in Next(c, s, AckWrite(w)).rows
    ensures OutOfReach(c, Next(c, s, AckWrite(w)), TrackOf(Next(c, s, AckWrite(w)), Head(s, w))) <==>
              !HarmsRate(c, s, w)
  {
    AfterWrite(c, s, w);
    var e, s' := Head(s, w), Next(c, s, AckWrite(w));
    if Reopens(s, w) {
      SameStarts(c, s, w, RetryAt(s, w), LastClaim(s.claims[e]).at + Gap(c));
    }
    hide Next, Inv, StartedWithin, ClaimsSpaced, WorksOn;
  }

  /** A write leaves those who are about to claim as they are. */
  lemma SameStarts(c: Config, s: State, w: WorkerId, from: Time, until: Time)
    requires Inv(c, false, s) && MayWrite(s, w)
    ensures StartedWithin(Next(c, s, AckWrite(w)), from, until) <==> StartedWithin(s, from, until)
    ensures NoEarlierStarts(s, Next(c, s, AckWrite(w)))
  {
    hide Next, Inv;
    InvKeys(c, s);
    WrittenIsTrack(c, s, w);
    WriterIsBusy(c, s, w);
    var s' := Next(c, s, AckWrite(w));
    forall v | v != w
      ensures (v in s'.workers <==> v in s.workers) && (v in s.workers ==> s'.workers[v] == s.workers[v])
    {
      OthersStay(s, s', w, v);
    }
  }

  lemma WriterIsBusy(c: Config, s: State, w: WorkerId)
    requires MayWrite(s, w)
    ensures w in Next(c, s, AckWrite(w)).workers ==> Next(c, s, AckWrite(w)).workers[w].Busy?
  {
    hide IsClaim, Merge, Wanted;
  }

  /** Every other step keeps the rate; a write does exactly when it does not harm it. */
  lemma StepKeepsRateIff(c: Config, s: State, a: Action)
    requires Inv(c, false, s) && RateKept(c, s)
    ensures RateKept(c, Next(c, s, a)) <==> Meets(c, s, a, RateSafe)
  {
    hide OutOfReach, HarmsRate, Inv;
    if a.AckWrite? {
      if MayWrite(s, a.w) {
        WriteKeepsReachIff(c, s, a.w);
        AfterWrite(c, s, a.w);
        SameStarts(c, s, a.w, 0, 0);
        hide Next;
        var s' := Next(c, s, a);
        forall e | e in s.rows && e != Head(s, a.w) ensures OutOfReach(c, s', TrackOf(s', e)) {
          StillOutOfReach(c, s, s', TrackOf(s, e));
        }
      }
    } else if a.Claim? {
      if MayClaim(c, s, a) { ClaimKeepsRate(c, s, a.w, a.skipped, a.batch); }
    } else {
      QuietStepKeepsRate(c, s, a);
    }
  }

  lemma {:induction false} ClaimsAddUp(c: Config, claims: seq<Grant>, i: nat, j: nat)
    requires ClaimsSpaced(c, claims) && i <= j < |claims|
    ensures claims[j].at >= claims[i].at + (j - i) * Gap(c)
    decreases j
  {
    if i < j {
      ClaimsAddUp(c, claims, i, j - 1);
      assert (j - i) * Gap(c) == (j - 1 - i) * Gap(c) + Gap(c);
    }
  }

  /** From every reachable state: a write that harms the rate leads to a claim within Gap of
      the one before. */
  lemma HarmfulWriteBreaksRate(c: Config, start: Time, acts: seq<Action>, w: WorkerId, u: WorkerId)
    returns (more: seq<Action>)
    requires c.lease >= 1 && c.limit >= 1
    requires var s := Exec(c, Initial(start), acts); MayWrite(s, w) && HarmsRate(c, s, w) && u !in s.workers
    ensures var s, s' := Exec(c, Initial(start), acts), Exec(c, Initial(start), acts + [AckWrite(w)] + more);
            Head(s, w) in s'.claims && !ClaimsSpaced(c, s'.claims[Head(s, w)])
  {
    EveryRunKeeps(c, false, start, acts);
    var s := Exec(c, Initial(start), acts);
    var e := Head(s, w);
    var until := LastClaim(s.claims[e]).at + Gap(c);
    if s.now < until {
      ExecSplit(c, Initial(start), acts, ReclaimSteps(s, w, WaitFor(s, w), u));
      ReclaimRuns(c, s, w, u);
      NotSpaced(c, s.claims[e], Grant(u, s.now + WaitFor(s, w)));
      more := [Tick(WaitFor(s, w))] + [Start(u)] + [Claim(u, s.rows.Keys - {e}, [e])];
      assert acts + [AckWrite(w)] + more == acts + ReclaimSteps(s, w, WaitFor(s, w), u);
    } else {
      var v :| v in s.workers && s.workers[v].Started? && RetryAt(s, w) <= s.workers[v].at < until;
      more := [Claim(v, s.rows.Keys - {e}, [e])];
      ExecAppend(c, Initial(start), acts, AckWrite(w));
      ExecAppend(c, Initial(start), acts + [AckWrite(w)], more[0]);
      LateClaim(c, s, w, v, until);
    }
  }

  lemma NotSpaced(c: Config, claims: seq<Grant>, g: Grant)
    requires claims != [] && g.at < LastClaim(claims).at + Gap(c)
    ensures !ClaimsSpaced(c, claims + [g])
  {
    var all := claims + [g];
    assert all[|claims| - 1 + 1] == g && all[|claims| - 1] == LastClaim(claims);
  }

  /** A worker that read the clock in time claims the event right after the write. */
  lemma LateClaim(c: Config, s: State, w: WorkerId, v: WorkerId, until: Time)
    requires Inv(c, false, s) && MayWrite(s, w) && Reopens(s, w) && c.limit >= 1
    requires v in s.workers && s.workers[v].Started? && RetryAt(s, w) <= s.workers[v].at < until
    requires s.claims[Head(s, w)] != [] && until == LastClaim(s.claims[Head(s, w)]).at + Gap(c)
    ensures var e := Head(s, w);
            var s' := Next(c, Next(c, s, AckWrite(w)), Claim(v, s.rows.Keys - {e}, [e]));
            e in s'.claims && !ClaimsSpaced(c, s'.claims[e])
  {
    var e, s1 := Head(s, w), Next(c, s, AckWrite(w));
    FailureFreesRow(c, s, w);
    OthersStay(s, s1, w, v);
    hide Next, Inv, Eligible;
    FreeRowIsClaimed(c, s1, v, e);
    NotSpaced(c, s.claims[e], Grant(v, s.workers[v].at));
  }

  // ------------------------------------------------------------ whole runs

  /** What a guard keeps. */
  ghost predicate Kept(c: Config, s: State, g: Guard) {
    match g
    case LeaseSafe => LeasesSafe(c, s)
    case CounterSafe => CountersRight(s)
    case RateSafe => RateKept(c, s)
    case _ => true
  }

  predicate IsExact(g: Guard) {
    g in {LeaseSafe, CounterSafe, RateSafe}
  }

  lemma StepKeepsIff(c: Config, s: State, a: Action, g: Guard)
    requires Inv(c, false, s) && IsExact(g) && Kept(c, s, g)
    ensures Kept(c, Next(c, s, a), g) <==> Meets(c, s, a, g)
  {
    hide Inv, Next, Meets, LeasesSafe, CountersRight, RateKept;
    match g
    case LeaseSafe => StepIsSafeIff(c, s, a);
    case CounterSafe => StepKeepsOrderIff(c, s, a);
    case RateSafe => StepKeepsRateIff(c, s, a);
  }

  /** It holds at every moment of the run. */
  ghost predicate AlwaysKept(c: Config, start: Time, acts: seq<Action>, g: Guard) {
    forall n :: 0 <= n <= |acts| ==> Kept(c, Exec(c, Initial(start), acts[..n]), g)
  }

  lemma AlwaysKeptStep(c: Config, start: Time, acts: seq<Action>, front: seq<Action>, g: Guard)
    requires acts != [] && front == acts[..|acts| - 1]
    ensures AlwaysKept(c, start, acts, g) <==>
            AlwaysKept(c, start, front, g) && Kept(c, Exec(c, Initial(start), acts), g)
  {
    hide Kept, Exec;
    assert acts[..|acts|] == acts;
    if AlwaysKept(c, start, acts, g) {
      forall n | 0 <= n <= |front| ensures Kept(c, Exec(c, Initial(start), front[..n]), g) {
        assert front[..n] == acts[..n];
      }
    }
    if AlwaysKept(c, start, front, g) && Kept(c, Exec(c, Initial(start), acts), g) {
      forall n | 0 <= n <= |acts| ensures Kept(c, Exec(c, Initial(start), acts[..n]), g) {
        assert n < |acts| ==> front[..n] == acts[..n];
      }
    }
  }

  lemma KeptNow(c: Config, start: Time, acts: seq<Action>, g: Guard)
    requires AlwaysKept(c, start, acts, g)
    ensures Kept(c, Exec(c, Initial(start), acts), g)
  {
    hide Kept, Exec;
    assert acts[..|acts|] == acts;
  }

  lemma NothingHarmedYet(c: Config, start: Time, g: Guard)
    ensures AlwaysKept(c, start, [], g)
  {
    var none: seq<Action> := [];
    assert none[..0] == none;
  }

  /** The leases are safe, the histories in order, the claims out of reach at every moment of
      a run, each exactly when no write of the run harms it. */
  lemma {:induction false} KeptIff(c: Config, start: Time, acts: seq<Action>, g: Guard)
    requires c.lease >= 1 && IsExact(g)
    ensures AlwaysKept(c, start, acts, g) <==> EveryWrite(c, start, acts, g)
  {
    hide Meets, Kept, Next, Inv, AlwaysKept, IsExact;
    if acts == [] {
      NothingHarmedYet(c, start, g);
    } else {
      var n := |acts| - 1;
      var front := acts[..n];
      KeptIff(c, start, front, g);
      AlwaysKeptStep(c, start, acts, front, g);
      EveryRunKeeps(c, false, start, front);
      var s := Exec(c, Initial(start), front);
      if AlwaysKept(c, start, front, g) {
        KeptNow(c, start, front, g);
        StepKeepsIff(c, s, acts[n], g);
      }
      if EveryWrite(c, start, acts, g) {
        EveryWriteOfFront(c, start, acts, g, n);
        assert Meets(c, Exec(c, Initial(start), acts[..n]), acts[n], g);
      } else if EveryWrite(c, start, front, g) {
        assert Meets(c, s, acts[n], g) ==> EveryWrite(c, start, acts, g) by {
          if Meets(c, s, acts[n], g) { OneMoreWrite(c, start, acts, g); }
        }
      }
    }
  }

  lemma KeptByGuard(c: Config, start: Time, acts: seq<Action>, g: Guard)
    requires c.lease >= 1 && IsExact(g) && EveryWrite(c, start, acts, g)
    ensures Kept(c, Exec(c, Initial(start), acts), g)
  {
    hide Meets, Kept, Next, AlwaysKept, EveryWrite;
    KeptIff(c, start, acts, g);
    KeptNow(c, start, acts, g);
  }

  /** Two workers never hold running leases on one event, in any run without a write that
      harms a lease. */
  lemma OneLeaseHolder(c: Config, start: Time, acts: seq<Action>, e: EventId, v: WorkerId, i: nat, w: WorkerId, j: nat)
    requires c.lease >= 1 && EveryWrite(c, start, acts, LeaseSafe)
    ensures var s := Exec(c, Initial(start), acts);
            Holds(c, s, v, i, e) && Holds(c, s, w, j, e) ==> v == w && i == j
  {
    EveryRunKeeps(c, false, start, acts);
    KeptByGuard(c, start, acts, LeaseSafe);
    hide Exec, RowOk, EntryOk, StageOk;
    var s := Exec(c, Initial(start), acts);
    if Holds(c, s, v, i, e) && Holds(c, s, w, j, e) {
      assert BatchSafe(c, s, v, s.workers[v]) && BatchSafe(c, s, w, s.workers[w]);
      assert WorkerOk(c, false, s, v, s.workers[v]);
    }
  }

  /** In any run without a write that harms a counter, the attempt counter is the number of
      recorded failures, and the claims behind the first and a later failure are at least
      all the delays in between apart. */
  lemma BackoffBound(c: Config, start: Time, acts: seq<Action>, e: EventId, n: nat)
    requires c.lease >= 1 && EveryWrite(c, start, acts, CounterSafe)
    ensures var s := Exec(c, Initial(start), acts);
            e in s.rows && e in s.failures ==>
              && s.rows[e].attempts == |s.failures[e]|
              && (n < |s.failures[e]| ==> s.failures[e][n] >= s.failures[e][0] + TotalDelay(n))
  {
    KeptByGuard(c, start, acts, CounterSafe);
    var s := Exec(c, Initial(start), acts);
    if e in s.rows && n < |s.failures[e]| {
      DelaysAddUp(TrackOf(s, e), n);
    }
  }

  /** However many workers there are, one event is claimed at most once in every min(lease,
      first retry delay) seconds, in any run without a write that harms the rate. */
  lemma ClaimRate(c: Config, start: Time, acts: seq<Action>, e: EventId, i: nat, j: nat)
    requires c.lease >= 1 && EveryWrite(c, start, acts, RateSafe)
    ensures var s := Exec(c, Initial(start), acts);
            e in s.rows && e in s.claims && i <= j < |s.claims[e]| ==>
              s.claims[e][j].at >= s.claims[e][i].at + (j - i) * Gap(c)
  {
    KeptByGuard(c, start, acts, RateSafe);
    var s := Exec(c, Initial(start), acts);
    if e in s.rows && i <= j < |s.claims[e]| {
      assert OutOfReach(c, s, TrackOf(s, e));
      ClaimsAddUp(c, s.claims[e], i, j);
    }
  }

  // ------------------------------------------------------------ simpler guards

  /** A write for an event that was not claimed again harms nothing. */
  lemma FreshWriteHarmsNothing(c: Config, s: State, a: Action, g: Guard)
    requires Inv(c, true, s) && Meets(c, s, a, Fresh) && IsExact(g)
    ensures Meets(c, s, a, g)
  {
    if a.AckWrite? && MayWrite(s, a.w) {
      HeadFacts(c, true, s, a.w);
      DelayBounds(s.workers[a.w].queue[0].attempts);
      hide Inv, RowOk, StartedWithin, WorksOn;
    }
  }

  /** So runs without stale writes have all three properties. */
  lemma FreshRunsAreSafe(c: Config, start: Time, acts: seq<Action>, g: Guard)
    requires c.lease >= 1 && EveryWrite(c, start, acts, Fresh) && IsExact(g)
    ensures EveryWrite(c, start, acts, g)
  {
    hide Meets, Next, Inv;
    forall i | 0 <= i < |acts| ensures Meets(c, Exec(c, Initial(start), acts[..i]), acts[i], g) {
      EveryWriteOfFront(c, start, acts, Fresh, i);
      EveryRunKeeps(c, true, start, acts[..i]);
      assert Meets(c, Exec(c, Initial(start), acts[..i]), acts[i], Fresh);
      FreshWriteHarmsNothing(c, Exec(c, Initial(start), acts[..i]), acts[i], g);
    }
  }

  /** Writes that land before their own lease ends are never stale. */
  lemma {:induction false} PromptRunsAreFresh(c: Config, start: Time, acts: seq<Action>)
    requires c.lease >= 1 && EveryWrite(c, start, acts, Prompt)
    ensures EveryWrite(c, start, acts, Fresh)
  {
    hide Meets, Next, Inv;
    if acts != [] {
      var n := |acts| - 1;
      EveryWriteOfFront(c, start, acts, Prompt, n);
      PromptRunsAreFresh(c, start, acts[..n]);
      EveryRunKeeps(c, true, start, acts[..n]);
      assert Meets(c, Exec(c, Initial(start), acts[..n]), acts[n], Prompt);
      PromptWriteIsFresh(c, Exec(c, Initial(start), acts[..n]), acts[n]);
      OneMoreWrite(c, start, acts, Fresh);
    }
  }

  lemma PromptWriteIsFresh(c: Config, s: State, a: Action)
    requires Inv(c, true, s) && Meets(c, s, a, Prompt)
    ensures Meets(c, s, a, Fresh)
  {
    if a.AckWrite? && MayWrite(s, a.w) {
      HeadFacts(c, true, s, a.w);
    }
  }

  /** Every read is followed at once by its write: acknowledgements as single steps. */
  predicate AtomicAcks(acts: seq<Action>) {
    forall i :: 0 <= i < |acts| - 1 && acts[i].AckRead? ==> acts[i + 1] == AckWrite(acts[i].w)
  }

  /** Only the worker that has just read is about to write. */
  ghost predicate OnlyReaderWrites(s: State, acts: seq<Action>) {
    forall w :: w in s.workers && s.workers[w].Busy? && s.workers[w].stage.Writing? ==>
      && acts != [] && acts[|acts| - 1] == AckRead(w) && MayWrite(s, w)
      && !IsStale(s, w)
  }

  /** Such writes are never stale, however late. */
  lemma {:induction false} AtomicRunsAreFresh(c: Config, start: Time, acts: seq<Action>)
    requires c.lease >= 1 && AtomicAcks(acts)
    ensures EveryWrite(c, start, acts, Fresh) && OnlyReaderWrites(Exec(c, Initial(start), acts), acts)
  {
    hide Meets, OnlyReaderWrites, Next;
    if acts == [] {
      NobodyWritesAtFirst(start);
    } else {
      var n := |acts| - 1;
      AtomicRunsAreFresh(c, start, acts[..n]);
      AtomicStep(c, Exec(c, Initial(start), acts[..n]), acts[..n], acts[n]);
      assert acts[..n] + [acts[n]] == acts;
      OneMoreWrite(c, start, acts, Fresh);
    }
  }

  lemma NobodyWritesAtFirst(start: Time)
    ensures OnlyReaderWrites(Initial(start), [])
  {}

  lemma AtomicStep(c: Config, s: State, acts: seq<Action>, a: Action)
    requires OnlyReaderWrites(s, acts)
    requires acts != [] && acts[|acts| - 1].AckRead? ==> a == AckWrite(acts[|acts| - 1].w)
    ensures Meets(c, s, a, Fresh) && OnlyReaderWrites(Next(c, s, a), acts + [a])
  {
    hide IsClaim, Wanted, Merge;
  }
}
