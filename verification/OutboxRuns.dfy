/** Concrete runs of the outbox protocol, and the dispatcher's own pass as one. */
module OutboxRuns {
  import opened Basics
  import opened OutboxTable
  import opened OutboxProtocol
  import opened OutboxAcks

  const DEFAULTS := Config(60, 1)

  /** a's publish fails and a reads its row; then a's lease runs out and b claims. */
  const ADDED: seq<Action> := [] + [Add(0, 1, "created", 0)]
  const CLAIMED_BY_A: seq<Action> := ADDED + [Start("a")] + [Claim("a", {}, [0])]
  const SLOW_START: seq<Action> := CLAIMED_BY_A + [Publish("a", false, false, "refused")] + [AckRead("a")]
  const SLOW_ACK: seq<Action> := SLOW_START + [Tick(60)] + [Start("b")] + [Claim("b", {}, [0])]

  const NEW_ROW := Row(1, "created", 0, None, 0, 0, None, None, None)
  const ROW_OF_A := Leased(NEW_ROW, "a", 60)
  const ROW_OF_B := Leased(NEW_ROW, "b", 120)
  const A_WRITES := Busy(0, [Claimed(0, 0)], Writing(false, "refused", ROW_OF_A, 1))

  function LoneState(r: Row, now: Time, workers: map<WorkerId, Worker>, claims: seq<Grant>,
                     failures: seq<Time>): State {
    State(map[0 := r], now, workers, {}, map[0 := claims], map[0 := failures])
  }

  lemma OnlyRow(r: Row, at: Time)
    requires Eligible(r, at)
    ensures IsClaim(map[0 := r], at, {}, 1, [0])
  {}

  /** A claim on a table of one row. */
  lemma LoneClaim(r: Row, now: Time, workers: map<WorkerId, Worker>, claims: seq<Grant>, failures: seq<Time>,
                  w: WorkerId, at: Time)
    requires w in workers && workers[w] == Started(at) && Eligible(r, at)
    ensures Next(DEFAULTS, LoneState(r, now, workers, claims, failures), Claim(w, {}, [0])) ==
            LoneState(Leased(r, w, at + 60), now, workers[w := Busy(at, [Claimed(0, r.attempts)], Publishing)],
                      claims + [Grant(w, at)], failures)
  {
    hide IsClaim, Eligible, Leased;
    OnlyRow(r, at);
    assert Snapshots(map[0 := r], [0]) == [Claimed(0, r.attempts)];
    assert LeaseAll(map[0 := r], [0], w, at + 60) == map[0 := Leased(r, w, at + 60)];
    var g := Granted(map[0 := claims], [0], Grant(w, at));
    assert 0 in g && g[0] == claims + [Grant(w, at)] && g == map[0 := claims + [Grant(w, at)]];
  }

  lemma LoneStart(r: Row, now: Time, workers: map<WorkerId, Worker>, claims: seq<Grant>, failures: seq<Time>,
                  w: WorkerId)
    requires w !in workers
    ensures Next(DEFAULTS, LoneState(r, now, workers, claims, failures), Start(w)) ==
            LoneState(r, now, workers[w := Started(now)], claims, failures)
  {}

  lemma LoneTick(r: Row, now: Time, workers: map<WorkerId, Worker>, claims: seq<Grant>, failures: seq<Time>,
                 seconds: nat)
    ensures Next(DEFAULTS, LoneState(r, now, workers, claims, failures), Tick(seconds)) ==
            LoneState(r, now + seconds, workers, claims, failures)
  {}

  lemma LoneRefusal(r: Row, now: Time, workers: map<WorkerId, Worker>, claims: seq<Grant>, failures: seq<Time>,
                    w: WorkerId, at: Time)
    requires w in workers && workers[w] == Busy(at, [Claimed(0, 0)], Publishing)
    ensures Next(DEFAULTS, LoneState(r, now, workers, claims, failures), Publish(w, false, false, "refused")) ==
            LoneState(r, now, workers[w := Busy(at, [Claimed(0, 0)], Acking(false, "refused"))], claims, failures)
  {}

  lemma LoneRead(r: Row, now: Time, workers: map<WorkerId, Worker>, claims: seq<Grant>, failures: seq<Time>,
                 w: WorkerId, at: Time)
    requires w in workers && workers[w] == Busy(at, [Claimed(0, 0)], Acking(false, "refused")) && OwnedBy(r, w)
    ensures Next(DEFAULTS, LoneState(r, now, workers, claims, failures), AckRead(w)) ==
            LoneState(r, now, workers[w := Busy(at, [Claimed(0, 0)], Writing(false, "refused", r, |claims|))],
                      claims, failures)
  {}

  lemma LoneWrite(r: Row, now: Time, workers: map<WorkerId, Worker>, claims: seq<Grant>, failures: seq<Time>,
                  w: WorkerId, at: Time, read: Row, seen: nat)
    requires w in workers && workers[w] == Busy(at, [Claimed(0, 0)], Writing(false, "refused", read, seen))
    ensures Next(DEFAULTS, LoneState(r, now, workers, claims, failures), AckWrite(w)) ==
            LoneState(Merge(read, Wanted(read, Claimed(0, 0), at, false, "refused"), r), now, workers - {w},
                      claims, failures + [at])
  {
    hide Wanted, Merge;
  }

  lemma ExecNothing(c: Config, s: State)
    ensures Exec(c, s, []) == s
  {}

  lemma AddRuns()
    ensures Exec(DEFAULTS, Initial(0), ADDED) == LoneState(NEW_ROW, 0, map[], [], [])
  {
    hide Exec;
    ExecNothing(DEFAULTS, Initial(0));
    ExecAppend(DEFAULTS, Initial(0), [], Add(0, 1, "created", 0));
  }

  lemma ClaimByARuns()
    ensures Exec(DEFAULTS, Initial(0), CLAIMED_BY_A) ==
            LoneState(ROW_OF_A, 0, map["a" := Busy(0, [Claimed(0, 0)], Publishing)], [Grant("a", 0)], [])
  {
    hide Exec, Next;
    AddRuns();
    ExecAppend(DEFAULTS, Initial(0), ADDED, Start("a"));
    LoneStart(NEW_ROW, 0, map[], [], [], "a");
    ExecAppend(DEFAULTS, Initial(0), ADDED + [Start("a")], Claim("a", {}, [0]));
    LoneClaim(NEW_ROW, 0, map["a" := Started(0)], [], [], "a", 0);
    assert [] + [Grant("a", 0)] == [Grant("a", 0)];
  }

  lemma SlowStarts()
    ensures Exec(DEFAULTS, Initial(0), SLOW_START) == LoneState(ROW_OF_A, 0, map["a" := A_WRITES], [Grant("a", 0)], [])
  {
    hide Exec, Next;
    ClaimByARuns();
    var workers := map["a" := Busy(0, [Claimed(0, 0)], Publishing)];
    ExecAppend(DEFAULTS, Initial(0), CLAIMED_BY_A, Publish("a", false, false, "refused"));
    LoneRefusal(ROW_OF_A, 0, workers, [Grant("a", 0)], [], "a", 0);
    workers := workers["a" := Busy(0, [Claimed(0, 0)], Acking(false, "refused"))];
    ExecAppend(DEFAULTS, Initial(0), CLAIMED_BY_A + [Publish("a", false, false, "refused")], AckRead("a"));
    LoneRead(ROW_OF_A, 0, workers, [Grant("a", 0)], [], "a", 0);
  }

  const AFTER_SLOW_ACK := map["a" := A_WRITES, "b" := Busy(60, [Claimed(0, 0)], Publishing)]
  const BOTH_CLAIMS := [Grant("a", 0), Grant("b", 60)]

  lemma SlowAckRuns()
    ensures Exec(DEFAULTS, Initial(0), SLOW_ACK) == LoneState(ROW_OF_B, 60, AFTER_SLOW_ACK, BOTH_CLAIMS, [])
  {
    hide Exec, Next;
    LoneTick(ROW_OF_A, 0, map["a" := A_WRITES], [Grant("a", 0)], [], 60);
    SlowStarts();
    ExecAppend(DEFAULTS, Initial(0), SLOW_START, Tick(60));
    ExecAppend(DEFAULTS, Initial(0), SLOW_START + [Tick(60)], Start("b"));
    LoneStart(ROW_OF_A, 60, map["a" := A_WRITES], [Grant("a", 0)], [], "b");
    LoneClaim(ROW_OF_A, 60, map["a" := A_WRITES, "b" := Started(60)], [Grant("a", 0)], [], "b", 60);
    ExecAppend(DEFAULTS, Initial(0), SLOW_START + [Tick(60)] + [Start("b")], Claim("b", {}, [0]));
    assert [Grant("a", 0)] + [Grant("b", 60)] == BOTH_CLAIMS;
  }

  const LATE_WRITE: seq<Action> := SLOW_ACK + [AckWrite("a")]
  const THIRD_CLAIM: seq<Action> := LATE_WRITE + [Start("c")] + [Claim("c", {}, [0])]

  /** a's late write clears b's lease, so c is granted the event that b is still working on,
      within the same second. */
  lemma LateWriteFreesAnothersLease()
    ensures var s := Exec(DEFAULTS, Initial(0), THIRD_CLAIM);
            && Holds(DEFAULTS, s, "b", 0, 0) && Holds(DEFAULTS, s, "c", 0, 0)
            && 0 in s.claims && s.claims[0] == [Grant("a", 0), Grant("b", 60), Grant("c", 60)]
            && !ClaimsSpaced(DEFAULTS, s.claims[0])
  {
    hide Exec, Next;
    SlowAckRuns();
    ExecAppend(DEFAULTS, Initial(0), SLOW_ACK, AckWrite("a"));
    LoneWrite(ROW_OF_B, 60, AFTER_SLOW_ACK, BOTH_CLAIMS, [], "a", 0, ROW_OF_A, 1);
    var r := Row(1, "created", 0, None, 1, 5, Some("refused"), None, None);
    var b := map["b" := Busy(60, [Claimed(0, 0)], Publishing)];
    assert AFTER_SLOW_ACK - {"a"} == b && [] + [0] == [0];
    ExecAppend(DEFAULTS, Initial(0), LATE_WRITE, Start("c"));
    LoneStart(r, 60, b, BOTH_CLAIMS, [0], "c");
    LoneClaim(r, 60, b["c" := Started(60)], BOTH_CLAIMS, [0], "c", 60);
    ExecAppend(DEFAULTS, Initial(0), LATE_WRITE + [Start("c")], Claim("c", {}, [0]));
    var all := BOTH_CLAIMS + [Grant("c", 60)];
    assert all == [Grant("a", 0), Grant("b", 60), Grant("c", 60)] && all[1 + 1].at < all[1].at + Gap(DEFAULTS);
  }

  const B_FAILS: seq<Action> := SLOW_ACK + [Publish("b", false, false, "refused")] + [AckRead("b")] + [AckWrite("b")]

  lemma FailureOfB()
    ensures Exec(DEFAULTS, Initial(0), B_FAILS) ==
            LoneState(Row(1, "created", 0, None, 1, 65, Some("refused"), None, None), 60, map["a" := A_WRITES],
                      BOTH_CLAIMS, [60])
  {
    hide Exec, Next;
    SlowAckRuns();
    ExecAppend(DEFAULTS, Initial(0), SLOW_ACK, Publish("b", false, false, "refused"));
    LoneRefusal(ROW_OF_B, 60, AFTER_SLOW_ACK, BOTH_CLAIMS, [], "b", 60);
    var workers := AFTER_SLOW_ACK["b" := Busy(60, [Claimed(0, 0)], Acking(false, "refused"))];
    ExecAppend(DEFAULTS, Initial(0), SLOW_ACK + [Publish("b", false, false, "refused")], AckRead("b"));
    LoneRead(ROW_OF_B, 60, workers, BOTH_CLAIMS, [], "b", 60);
    workers := workers["b" := Busy(60, [Claimed(0, 0)], Writing(false, "refused", ROW_OF_B, 2))];
    ExecAppend(DEFAULTS, Initial(0), SLOW_ACK + [Publish("b", false, false, "refused")] + [AckRead("b")],
               AckWrite("b"));
    LoneWrite(ROW_OF_B, 60, workers, BOTH_CLAIMS, [], "b", 60, ROW_OF_B, 2);
    assert workers - {"b"} == map["a" := A_WRITES] && [] + [60] == [60];
  }

  /** b's failure is overwritten by a's older read: two failures are recorded, the counter
      says one, and the event is due again before b's retry delay is over. */
  lemma LateWriteLosesAFailure()
    ensures var s := Exec(DEFAULTS, Initial(0), B_FAILS + [AckWrite("a")]);
            && s == LoneState(Row(1, "created", 0, None, 1, 5, Some("refused"), None, None), 60, map[],
                              BOTH_CLAIMS, [60, 0])
            && Eligible(s.rows[0], s.now) && s.now < 60 + RetryDelay(0)
  {
    hide Exec, Next;
    FailureOfB();
    ExecAppend(DEFAULTS, Initial(0), B_FAILS, AckWrite("a"));
    LoneWrite(Row(1, "created", 0, None, 1, 65, Some("refused"), None, None), 60, map["a" := A_WRITES],
              BOTH_CLAIMS, [60], "a", 0, ROW_OF_A, 1);
    assert map["a" := A_WRITES] - {"a"} == map[] && [60] + [0] == [60, 0];
  }

  // ------------------------------------------------------------ dispatch_once is a run

  /** The steps of one pass over `batch` up to its n-th acknowledgement. */
  function PassSteps(w: WorkerId, skipped: set<EventId>, batch: seq<EventId>, world: nat -> Delivery, n: nat)
    : seq<Action>
  {
    if n == 0 then [] + [Start(w)] + [Claim(w, skipped, batch)]
    else
      PassSteps(w, skipped, batch, world, n - 1)
      + [Publish(w, world(n - 1).accepted, world(n - 1).accepted, world(n - 1).error)] + [AckRead(w)] + [AckWrite(w)]
  }

  /** The state an undisturbed pass reaches at its n-th acknowledgement: the rows are what
      the dispatcher's own method leaves. */
  ghost predicate PassReached(c: Config, s: State, s': State, w: WorkerId, batch: seq<Claimed>,
                              world: nat -> Delivery, n: nat)
  {
    var leased := LeaseAll(s.rows, Events(batch), w, s.now + c.lease);
    && SameKeys(s') && n <= |batch| && Claimable(leased, w, batch)
    && s'.rows == PassRows(leased, w, batch, s.now, world, n)
    && s'.workers == (if n < |batch| then s.workers[w := Busy(s.now, batch[n..], Publishing)] else s.workers - {w})
  }

  lemma {:induction false} PassIsARun(c: Config, s: State, w: WorkerId, skipped: set<EventId>, batch: seq<EventId>,
                                      world: nat -> Delivery, n: nat)
    requires SameKeys(s) && w !in s.workers && n <= |batch|
    requires IsClaim(s.rows, s.now, skipped, c.limit, batch)
    requires forall i :: 0 <= i < |batch| ==> batch[i] in s.rows
    requires Undisturbed(world, |batch|) && forall i :: 0 <= i < |batch| ==> world(i).commits
    ensures PassReached(c, s, Exec(c, s, PassSteps(w, skipped, batch, world, n)), w, Snapshots(s.rows, batch), world, n)
  {
    hide Next, IsClaim, PassReached, Exec, PassSteps;
    if n == 0 {
      FirstSteps(c, s, w, skipped, batch, world);
      PassStarts(c, s, w, skipped, batch, world);
    } else {
      PassIsARun(c, s, w, skipped, batch, world, n - 1);
      MoreSteps(c, s, w, skipped, batch, world, n);
      PassGoesOn(c, s, Exec(c, s, PassSteps(w, skipped, batch, world, n - 1)), w,
                 Snapshots(s.rows, batch), world, n - 1);
    }
  }

  lemma FirstSteps(c: Config, s: State, w: WorkerId, skipped: set<EventId>, batch: seq<EventId>, world: nat -> Delivery)
    ensures Exec(c, s, PassSteps(w, skipped, batch, world, 0)) ==
              Next(c, Next(c, s, Start(w)), Claim(w, skipped, batch))
  {
    hide Next, Exec;
    ExecNothing(c, s);
    ExecAppend(c, s, [], Start(w));
    ExecAppend(c, s, [] + [Start(w)], Claim(w, skipped, batch));
  }

  lemma MoreSteps(c: Config, s: State, w: WorkerId, skipped: set<EventId>, batch: seq<EventId>, world: nat -> Delivery,
                  n: nat)
    requires n > 0
    ensures Exec(c, s, PassSteps(w, skipped, batch, world, n)) ==
            AfterAck(c, Exec(c, s, PassSteps(w, skipped, batch, world, n - 1)), w, world(n - 1))
  {
    hide Next, Exec;
    var steps := PassSteps(w, skipped, batch, world, n - 1);
    var publish := Publish(w, world(n - 1).accepted, world(n - 1).accepted, world(n - 1).error);
    ExecAppend(c, s, steps, publish);
    ExecAppend(c, s, steps + [publish], AckRead(w));
    ExecAppend(c, s, steps + [publish] + [AckRead(w)], AckWrite(w));
  }

  lemma PassStarts(c: Config, s: State, w: WorkerId, skipped: set<EventId>, batch: seq<EventId>, world: nat -> Delivery)
    requires SameKeys(s) && w !in s.workers && IsClaim(s.rows, s.now, skipped, c.limit, batch)
    requires forall i :: 0 <= i < |batch| ==> batch[i] in s.rows
    ensures PassReached(c, s, Next(c, Next(c, s, Start(w)), Claim(w, skipped, batch)), w,
                        Snapshots(s.rows, batch), world, 0)
  {
    hide IsClaim, LeaseAll, Claimable, Snapshots, Granted;
    SnapshotEvents(s.rows, batch);
    GrantedKeepsKeys(s.claims, batch, Grant(w, s.now));
    LeaseMakesClaimable(s.rows, s.now, skipped, c.limit, Snapshots(s.rows, batch), w, s.now + c.lease);
    LeaseKeepsKeys(s.rows, batch, w, s.now + c.lease);
    var s1 := Next(c, s, Start(w));
    assert s1.workers - {w} == s.workers && s.workers - {w} == s.workers;
    assert Snapshots(s.rows, batch)[0..] == Snapshots(s.rows, batch);
  }

  lemma SnapshotEvents(rows: Rows, batch: seq<EventId>)
    requires forall i :: 0 <= i < |batch| ==> batch[i] in rows
    ensures |Snapshots(rows, batch)| == |batch| && Events(Snapshots(rows, batch)) == batch
  {}

  lemma GrantedKeepsKeys(claims: map<EventId, seq<Grant>>, batch: seq<EventId>, g: Grant)
    ensures Granted(claims, batch, g).Keys == claims.Keys
  {}

  lemma LeaseKeepsKeys(rows: Rows, batch: seq<EventId>, w: WorkerId, until: Time)
    ensures LeaseAll(rows, batch, w, until).Keys == rows.Keys
  {}

  /** One event published and acknowledged, undisturbed. */
  ghost function AfterAck(c: Config, s: State, w: WorkerId, d: Delivery): State {
    Next(c, Next(c, Next(c, s, Publish(w, d.accepted, d.accepted, d.error)), AckRead(w)), AckWrite(w))
  }

  lemma PassGoesOn(c: Config, s: State, s': State, w: WorkerId, batch: seq<Claimed>, world: nat -> Delivery, n: nat)
    requires PassReached(c, s, s', w, batch, world, n) && n < |batch|
    requires Undisturbed(world, |batch|) && forall i :: 0 <= i < |batch| ==> world(i).commits
    ensures PassReached(c, s, AfterAck(c, s', w, world(n)), w, batch, world, n + 1)
  {
    hide LeaseAll, Settled, AfterAck, PassRows, Claimable, Undisturbed, OwnedBy;
    var leased := LeaseAll(s.rows, Events(batch), w, s.now + c.lease);
    NextAck(leased, w, batch, s.now, world, n);
    assert batch[n..][1..] == batch[n + 1..];
    PublishThenAck(c, s', w, s.now, batch[n..], world(n));
    assert s'.workers - {w} == s.workers - {w};
  }

  /** The next acknowledgement of an undisturbed pass finds its row owned and settles it. */
  lemma NextAck(leased: Rows, w: WorkerId, batch: seq<Claimed>, now: Time, world: nat -> Delivery, n: nat)
    requires Claimable(leased, w, batch) && n < |batch|
    requires Undisturbed(world, |batch|) && forall i :: 0 <= i < |batch| ==> world(i).commits
    ensures var rows, e, d := PassRows(leased, w, batch, now, world, n), batch[n].event, world(n);
            && e in rows && OwnedBy(rows[e], w)
            && PassRows(leased, w, batch, now, world, n + 1) ==
               rows[e := Settled(rows[e], batch[n].attempts, now, d.accepted, d.error)]
  {
    hide Settled;
    UndisturbedPass(leased, w, batch, now, world, n);
    assert world(n).others.None?;
  }

  /** Publishing and acknowledging one owned event. */
  lemma PublishThenAck(c: Config, s: State, w: WorkerId, at: Time, queue: seq<Claimed>, d: Delivery)
    requires SameKeys(s) && w in s.workers && queue != []
    requires s.workers[w] == Busy(at, queue, Publishing) && queue[0].event in s.rows
    requires OwnedBy(s.rows[queue[0].event], w)
    ensures var e, s' := queue[0].event, AfterAck(c, s, w, d);
            && s'.rows == s.rows[e := Settled(s.rows[e], queue[0].attempts, at, d.accepted, d.error)]
            && SameKeys(s')
            && s'.workers == if |queue| > 1 then s.workers[w := Busy(at, queue[1..], Publishing)] else s.workers - {w}
  {
    hide Settled, Merge, IsClaim;
    var e := queue[0].event;
    var s1 := Next(c, s, Publish(w, d.accepted, d.accepted, d.error));
    var s2 := Next(c, s1, AckRead(w));
    assert s1.workers[w] == Busy(at, queue, Acking(d.accepted, d.error)) && s1.rows == s.rows;
    assert s2.workers[w] == Busy(at, queue, Writing(d.accepted, d.error, s.rows[e], |s.claims[e]|))
           && s2.rows == s.rows;
    assert s2.workers - {w} == s.workers - {w};
    MergeOfUnchanged(s.rows[e], Wanted(s.rows[e], queue[0], at, d.accepted, d.error));
  }

  lemma MergeOfUnchanged(read: Row, wanted: Row)
    ensures Merge(read, wanted, read) == wanted
  {}
}
