/** Many dispatchers over one outbox table: every interleaving of their claim, publish and
    acknowledge steps, with crashes, publish failures and leases that run out. */
module OutboxProtocol {
  import opened Basics
  import opened OutboxTable

  datatype Config = Config(lease: int, limit: nat)

  datatype Stage =
    | Publishing
    | Acking(ok: bool, error: string)
    | Writing(ok: bool, error: string, read: Row, seen: nat)

  /** A worker absent from the table of workers is idle.  `at` is the clock reading its
      whole pass uses; the head of the queue is the event it works on. */
  datatype Worker = Started(at: Time) | Busy(at: Time, queue: seq<Claimed>, stage: Stage)

  datatype Grant = Grant(worker: WorkerId, at: Time)

  /** claims and failures are histories: every lease granted for an event, and the claim
      time behind every failure recorded for it. */
  datatype State = State(
    rows: Rows,
    now: Time,
    workers: map<WorkerId, Worker>,
    bus: set<EventId>,
    claims: map<EventId, seq<Grant>>,
    failures: map<EventId, seq<Time>>)

  datatype Action =
    | Add(e: EventId, id: nat, content: string, occurredAt: Time)
    | Tick(seconds: nat)
    | Start(w: WorkerId)
    | Claim(w: WorkerId, skipped: set<EventId>, batch: seq<EventId>)
    | Publish(w: WorkerId, accepted: bool, reported: bool, error: string)
    | AckRead(w: WorkerId)
    | AckWrite(w: WorkerId)
    | Crash(w: WorkerId)

  function Initial(now: Time): State {
    State(map[], now, map[], {}, map[], map[])
  }

  /** What an UPDATE does to a row: it writes the columns that differ from what was read. */
  function Merge(read: Row, wanted: Row, row: Row): Row {
    Row(if wanted.id == read.id then row.id else wanted.id,
        if wanted.content == read.content then row.content else wanted.content,
        if wanted.occurredAt == read.occurredAt then row.occurredAt else wanted.occurredAt,
        if wanted.publishedAt == read.publishedAt then row.publishedAt else wanted.publishedAt,
        if wanted.attempts == read.attempts then row.attempts else wanted.attempts,
        if wanted.nextAttemptAt == read.nextAttemptAt then row.nextAttemptAt else wanted.nextAttemptAt,
        if wanted.lastError == read.lastError then row.lastError else wanted.lastError,
        if wanted.lockedBy == read.lockedBy then row.lockedBy else wanted.lockedBy,
        if wanted.lockedUntil == read.lockedUntil then row.lockedUntil else wanted.lockedUntil)
  }

  function Wanted(read: Row, x: Claimed, at: Time, ok: bool, error: string): Row {
    Settled(read, x.attempts, at, ok, error)
  }

  function Snapshots(rows: Rows, batch: seq<EventId>): seq<Claimed>
    requires forall i :: 0 <= i < |batch| ==> batch[i] in rows
  {
    seq(|batch|, i requires 0 <= i < |batch| => Claimed(batch[i], rows[batch[i]].attempts))
  }

  /** w's pass goes on with the rest of its batch. */
  function Proceed(s: State, w: WorkerId, at: Time, rest: seq<Claimed>): State {
    s.(workers := if rest == [] then s.workers - {w} else s.workers[w := Busy(at, rest, Publishing)])
  }

  /** The acknowledgement of w's head event reaches the row. */
  function Write(s: State, w: WorkerId, at: Time, queue: seq<Claimed>, ok: bool, row: Row): State
    requires queue != [] && queue[0].event in s.failures
  {
    var e := queue[0].event;
    Proceed(s, w, at, queue[1..]).(
      rows := s.rows[e := row],
      failures := if ok then s.failures else s.failures[e := s.failures[e] + [at]])
  }

  predicate IsBusy(s: State, w: WorkerId) {
    && w in s.workers && s.workers[w].Busy? && s.workers[w].queue != []
    && s.workers[w].queue[0].event in s.rows && s.workers[w].queue[0].event in s.claims
    && s.workers[w].queue[0].event in s.failures
  }

  function Head(s: State, w: WorkerId): EventId
    requires IsBusy(s, w)
  {
    s.workers[w].queue[0].event
  }

  predicate MayRead(s: State, w: WorkerId) {
    IsBusy(s, w) && s.workers[w].stage.Acking?
  }

  predicate MayWrite(s: State, w: WorkerId) {
    IsBusy(s, w) && s.workers[w].stage.Writing?
  }

  /** The row an UPDATE of w's head event leaves. */
  function Written(s: State, w: WorkerId): Row
    requires MayWrite(s, w)
  {
    var k := s.workers[w];
    Merge(k.stage.read, Wanted(k.stage.read, k.queue[0], k.at, k.stage.ok, k.stage.error), s.rows[Head(s, w)])
  }

  ghost predicate MayClaim(c: Config, s: State, a: Action)
    requires a.Claim?
  {
    && a.w in s.workers && s.workers[a.w].Started? && s.claims.Keys == s.rows.Keys
    && IsClaim(s.rows, s.workers[a.w].at, a.skipped, c.limit, a.batch)
  }

  function Granted(claims: map<EventId, seq<Grant>>, batch: seq<EventId>, g: Grant): map<EventId, seq<Grant>> {
    map e | e in claims :: if e in batch then claims[e] + [g] else claims[e]
  }

  /** The claim transaction: lease the batch, then go on to publish it. */
  function Lease(c: Config, s: State, w: WorkerId, at: Time, batch: seq<EventId>): State
    requires forall i :: 0 <= i < |batch| ==> batch[i] in s.rows
  {
    Proceed(s, w, at, Snapshots(s.rows, batch)).(
      rows := LeaseAll(s.rows, batch, w, at + c.lease),
      claims := Granted(s.claims, batch, Grant(w, at)))
  }

  function Abandon(s: State, w: WorkerId): State {
    s.(workers := s.workers - {w})
  }

  /** One step; a step that is not possible changes nothing. */
  ghost function Next(c: Config, s: State, a: Action): State {
    match a
    case Add(e, id, content, occurredAt) =>
      if e in s.rows || occurredAt > s.now then s
      else s.(rows := s.rows[e := Row(id, content, occurredAt, None, 0, occurredAt, None, None, None)],
              claims := s.claims[e := []], failures := s.failures[e := []])
    case Tick(seconds) => s.(now := s.now + seconds)
    case Start(w) => if w in s.workers then s else s.(workers := s.workers[w := Started(s.now)])
    case Claim(w, _, batch) => if MayClaim(c, s, a) then Lease(c, s, w, s.workers[w].at, batch) else s
    case Publish(w, accepted, reported, error) =>
      if !IsBusy(s, w) || !s.workers[w].stage.Publishing? || (reported && !accepted) then s
      else s.(bus := if accepted then s.bus + {Head(s, w)} else s.bus,
              workers := s.workers[w := s.workers[w].(stage := Acking(reported, error))])
    case AckRead(w) =>
      if !MayRead(s, w) then s
      else if !OwnedBy(s.rows[Head(s, w)], w) then Abandon(s, w)
      else
        var k := s.workers[w];
        s.(workers := s.workers[w := k.(stage :=
          Writing(k.stage.ok, k.stage.error, s.rows[Head(s, w)], |s.claims[Head(s, w)]|))])
    case AckWrite(w) =>
      if !MayWrite(s, w) then s
      else
        var k := s.workers[w];
        Write(s, w, k.at, k.queue, k.stage.ok, Written(s, w))
    case Crash(w) => Abandon(s, w)
  }

  ghost function Exec(c: Config, s: State, acts: seq<Action>): State {
    if acts == [] then s else Next(c, Exec(c, s, acts[..|acts| - 1]), acts[|acts| - 1])
  }

  // ------------------------------------------------------------ what may go wrong with a write

  /** When the failure w is about to record makes its event due again. */
  function RetryAt(s: State, w: WorkerId): Time
    requires MayWrite(s, w)
  {
    s.workers[w].at + RetryDelay(s.workers[w].queue[0].attempts)
  }

  function LastClaim(claims: seq<Grant>): Grant
    requires claims != []
  {
    claims[|claims| - 1]
  }

  predicate WorksOn(s: State, w: WorkerId, e: EventId) {
    && w in s.workers && s.workers[w].Busy?
    && exists i :: 0 <= i < |s.workers[w].queue| && s.workers[w].queue[i].event == e
  }

  /** The event has been claimed again since w read its row. */
  predicate IsStale(s: State, w: WorkerId)
    requires MayWrite(s, w)
  {
    |s.claims[Head(s, w)]| != s.workers[w].stage.seen
  }

  /** w is about to record a failure for an event that is not published. */
  predicate Reopens(s: State, w: WorkerId)
    requires MayWrite(s, w)
  {
    !s.workers[w].stage.ok && s.rows[Head(s, w)].publishedAt.None?
  }

  /** The failure makes the event due while another worker still works on it under the
      lease granted last. */
  predicate HarmsLease(c: Config, s: State, w: WorkerId)
    requires MayWrite(s, w)
  {
    && Reopens(s, w) && s.claims[Head(s, w)] != []
    && var g := LastClaim(s.claims[Head(s, w)]);
       && g.worker != w && WorksOn(s, g.worker, Head(s, w))
       && s.now < g.at + c.lease && RetryAt(s, w) < g.at + c.lease
  }

  /** The failure counts on from a counter that has moved since it was read. */
  predicate HarmsCounter(s: State, w: WorkerId)
    requires MayWrite(s, w)
  {
    !s.workers[w].stage.ok && s.rows[Head(s, w)].attempts != s.workers[w].stage.read.attempts
  }

  function Gap(c: Config): int {
    if c.lease < RETRY_DELAYS[0] then c.lease else RETRY_DELAYS[0]
  }

  /** Some worker about to claim has read the clock in this interval. */
  predicate StartedWithin(s: State, from: Time, until: Time) {
    exists u :: u in s.workers && s.workers[u].Started? && from <= s.workers[u].at < until
  }

  /** The failure makes the event due within Gap of its last claim, to a worker that can
      still claim it with such a clock reading. */
  predicate HarmsRate(c: Config, s: State, w: WorkerId)
    requires MayWrite(s, w)
  {
    && Reopens(s, w) && s.claims[Head(s, w)] != []
    && var until := LastClaim(s.claims[Head(s, w)]).at + Gap(c);
       RetryAt(s, w) < until && (s.now < until || StartedWithin(s, RetryAt(s, w), until))
  }

  /** What one may ask of the writes of a run.  An acknowledgement reads its row with a
      plain SELECT and updates it by key afterwards; others may run in between.
      Fresh: the event was not claimed again since the read.
      Prompt: the write lands before its own lease ends.
      The other three rule out exactly one harm each. */
  datatype Guard = Fresh | Prompt | LeaseSafe | CounterSafe | RateSafe

  predicate Meets(c: Config, s: State, a: Action, g: Guard) {
    a.AckWrite? && MayWrite(s, a.w) ==>
      match g
      case Fresh => !IsStale(s, a.w)
      case Prompt => s.now < s.workers[a.w].at + c.lease
      case LeaseSafe => !HarmsLease(c, s, a.w)
      case CounterSafe => !HarmsCounter(s, a.w)
      case RateSafe => !HarmsRate(c, s, a.w)
  }

  ghost predicate EveryWrite(c: Config, start: Time, acts: seq<Action>, g: Guard) {
    forall i :: 0 <= i < |acts| ==> Meets(c, Exec(c, Initial(start), acts[..i]), acts[i], g)
  }

  lemma EveryWriteOfFront(c: Config, start: Time, acts: seq<Action>, g: Guard, n: nat)
    requires EveryWrite(c, start, acts, g) && n <= |acts|
    ensures EveryWrite(c, start, acts[..n], g)
  {
    hide Meets;
    forall i | 0 <= i < n ensures Meets(c, Exec(c, Initial(start), acts[..n][..i]), acts[..n][i], g) {
      assert acts[..n][..i] == acts[..i] && Meets(c, Exec(c, Initial(start), acts[..i]), acts[i], g);
    }
  }

  lemma OneMoreWrite(c: Config, start: Time, acts: seq<Action>, g: Guard)
    requires acts != [] && EveryWrite(c, start, acts[..|acts| - 1], g)
    requires Meets(c, Exec(c, Initial(start), acts[..|acts| - 1]), acts[|acts| - 1], g)
    ensures EveryWrite(c, start, acts, g)
  {
    hide Meets;
    var front := acts[..|acts| - 1];
    forall i | 0 <= i < |acts| ensures Meets(c, Exec(c, Initial(start), acts[..i]), acts[i], g) {
      assert i < |front| ==>
          front[..i] == acts[..i] && Meets(c, Exec(c, Initial(start), front[..i]), front[i], g);
    }
  }

  // ------------------------------------------------------------ invariant

  /** A row with its histories. */
  datatype Track = Track(row: Row, claims: seq<Grant>, failures: seq<Time>)

  predicate SameKeys(s: State) {
    s.rows.Keys == s.claims.Keys == s.failures.Keys
  }

  function TrackOf(s: State, e: EventId): Track
    requires SameKeys(s) && e in s.rows
  {
    Track(s.rows[e], s.claims[e], s.failures[e])
  }

  /** The last time w was granted the lease. */
  function LastBy(claims: seq<Grant>, w: WorkerId): Option<Time> {
    if claims == [] then None
    else if LastClaim(claims).worker == w then Some(LastClaim(claims).at)
    else LastBy(claims[..|claims| - 1], w)
  }

  /** Nobody has been granted the lease since w was. */
  predicate LastIs(claims: seq<Grant>, w: WorkerId) {
    claims != [] && LastClaim(claims).worker == w
  }

  predicate LockMatches(c: Config, t: Track) {
    && (t.row.lockedBy.Some? <==> t.row.lockedUntil.Some?)
    && (t.row.lockedBy.Some? ==>
          t.claims != [] && LastClaim(t.claims) == Grant(t.row.lockedBy.value, t.row.lockedUntil.value - c.lease))
  }

  predicate RowOk(c: Config, now: Time, inBus: bool, t: Track) {
    && LockMatches(c, t)
    && (forall i :: 0 <= i < |t.claims| ==> t.claims[i].at <= now)
    && (t.row.publishedAt.Some? ==> inBus)
    && t.row.nextAttemptAt <= now + RETRY_DELAYS[3]
    && t.row.attempts <= |t.failures|
  }

  /** x, in w's batch since clock reading `at`, against its track.  In a tidy run no write
      has been stale so far. */
  predicate EntryOk(c: Config, tidy: bool, now: Time, w: WorkerId, at: Time, x: Claimed, t: Track) {
    && LastBy(t.claims, w) == Some(at)
    && (t.row.lockedBy == Some(w) ==>
          t.row.publishedAt.None? && t.row.attempts == x.attempts && t.row.nextAttemptAt <= at)
    && x.attempts <= |t.failures| && (x.attempts == |t.failures| ==> t.row.nextAttemptAt <= at)
    && (tidy && (now < at + c.lease || LastIs(t.claims, w)) ==> t.row.lockedBy == Some(w))
  }

  predicate ReadOk(c: Config, tidy: bool, now: Time, w: WorkerId, at: Time, x: Claimed, read: Row, seen: nat,
                   t: Track) {
    && OwnedBy(read, w) && read.lockedUntil.Some? && read.attempts == x.attempts && read.nextAttemptAt <= at
    && 0 < seen <= |t.claims| && t.claims[seen - 1] == Grant(w, at)
    && (forall i :: seen <= i < |t.claims| ==> t.claims[i].worker != w)
    && (tidy && (now < at + c.lease || |t.claims| == seen) ==> t.row == read)
  }

  predicate StageOk(c: Config, tidy: bool, now: Time, inBus: bool, w: WorkerId, k: Worker, t: Track)
    requires k.Busy? && k.queue != []
  {
    match k.stage
    case Publishing => true
    case Acking(ok, _) => ok ==> inBus
    case Writing(ok, _, read, seen) => (ok ==> inBus) && ReadOk(c, tidy, now, w, k.at, k.queue[0], read, seen, t)
  }

  predicate Distinct(queue: seq<Claimed>) {
    forall i, j :: 0 <= i < j < |queue| ==> queue[i].event != queue[j].event
  }

  predicate BatchOk(c: Config, tidy: bool, s: State, w: WorkerId, k: Worker)
    requires SameKeys(s) && k.Busy?
  {
    forall i :: 0 <= i < |k.queue| ==>
      k.queue[i].event in s.rows && EntryOk(c, tidy, s.now, w, k.at, k.queue[i], TrackOf(s, k.queue[i].event))
  }

  predicate WorkerOk(c: Config, tidy: bool, s: State, w: WorkerId, k: Worker)
    requires SameKeys(s)
  {
    && k.at <= s.now
    && (k.Busy? ==>
          && k.queue != [] && Distinct(k.queue) && BatchOk(c, tidy, s, w, k)
          && StageOk(c, tidy, s.now, k.queue[0].event in s.bus, w, k, TrackOf(s, k.queue[0].event)))
  }

  predicate Inv(c: Config, tidy: bool, s: State) {
    && c.lease >= 1 && SameKeys(s)
    && (forall e :: e in s.rows ==> RowOk(c, s.now, e in s.bus, TrackOf(s, e)))
    && (forall w :: w in s.workers ==> WorkerOk(c, tidy, s, w, s.workers[w]))
  }

  // ------------------------------------------------------------ one row, one event

  lemma LastByAppend(claims: seq<Grant>, g: Grant, w: WorkerId)
    ensures LastBy(claims + [g], w) == if g.worker == w then Some(g.at) else LastBy(claims, w)
  {
    assert (claims + [g])[..|claims|] == claims;
  }

  lemma DelayBounds(n: nat)
    ensures RETRY_DELAYS[0] <= RetryDelay(n) <= RETRY_DELAYS[3]
  {}

  function TrackGranted(c: Config, t: Track, w: WorkerId, at: Time): Track {
    Track(Leased(t.row, w, at + c.lease), t.claims + [Grant(w, at)], t.failures)
  }

  /** A row that is granted to a worker who read the clock at `at`. */
  lemma GrantKeepsRow(c: Config, tidy: bool, now: Time, inBus: bool, t: Track, w: WorkerId, at: Time, e: EventId)
    requires RowOk(c, now, inBus, t) && Eligible(t.row, at) && at <= now && c.lease >= 1
    ensures RowOk(c, now, inBus, TrackGranted(c, t, w, at))
    ensures EntryOk(c, tidy, now, w, at, Claimed(e, t.row.attempts), TrackGranted(c, t, w, at))
  {
    LastByAppend(t.claims, Grant(w, at), w);
  }

  /** Another worker's claim on the same row has run out by then. */
  lemma GrantKeepsOther(c: Config, tidy: bool, now: Time, t: Track, w: WorkerId, at: Time,
                        v: WorkerId, at': Time, x: Claimed)
    requires LockMatches(c, t) && Eligible(t.row, at) && at <= now && v != w
    requires EntryOk(c, tidy, now, v, at', x, t)
    ensures EntryOk(c, tidy, now, v, at', x, TrackGranted(c, t, w, at))
    ensures tidy ==> now >= at' + c.lease
  {
    LastByAppend(t.claims, Grant(w, at), v);
  }

  function TrackWritten(t: Track, k: Worker): Track
    requires k.Busy? && k.queue != [] && k.stage.Writing?
  {
    Track(Merge(k.stage.read, Wanted(k.stage.read, k.queue[0], k.at, k.stage.ok, k.stage.error), t.row),
          t.claims, if k.stage.ok then t.failures else t.failures + [k.at])
  }

  /** What a write leaves: no lease, and what the kind of acknowledgement says; the columns
      of a stale read may land on a row that has changed. */
  lemma WriteEffect(c: Config, now: Time, inBus: bool, t: Track, w: WorkerId, k: Worker)
    requires k.Busy? && k.queue != [] && k.stage.Writing? && StageOk(c, false, now, inBus, w, k, t)
    ensures var t', x := TrackWritten(t, k), k.queue[0];
            && t'.row.lockedBy.None? && t'.row.lockedUntil.None?
            && (k.stage.ok ==>
                  && t'.row.publishedAt.Some? && t'.row.attempts == t.row.attempts
                  && t'.row.nextAttemptAt == t.row.nextAttemptAt)
            && (!k.stage.ok ==>
                  && t'.row.publishedAt == t.row.publishedAt && t'.row.attempts == x.attempts + 1
                  && t'.row.nextAttemptAt == k.at + RetryDelay(x.attempts))
  {
    DelayBounds(k.queue[0].attempts);
  }

  lemma WriteKeepsRow(c: Config, tidy: bool, now: Time, inBus: bool, t: Track, w: WorkerId, k: Worker)
    requires k.Busy? && k.queue != [] && k.stage.Writing? && StageOk(c, tidy, now, inBus, w, k, t)
    requires RowOk(c, now, inBus, t) && EntryOk(c, tidy, now, w, k.at, k.queue[0], t) && k.at <= now
    ensures RowOk(c, now, inBus, TrackWritten(t, k))
  {
    WriteEffect(c, now, inBus, t, w, k);
    DelayBounds(k.queue[0].attempts);
    hide Merge, Wanted, LastBy;
  }

  // ------------------------------------------------------------ one step

  /** Moving the clock or the bus leaves these facts alone. */
  lemma TimePasses(c: Config, tidy: bool, s: State, s': State)
    requires Inv(c, tidy, s) && s'.now >= s.now && s.bus <= s'.bus
    requires s' == s.(now := s'.now, bus := s'.bus)
    ensures Inv(c, tidy, s')
  {
    hide LockMatches, LastBy;
    forall w | w in s'.workers ensures WorkerOk(c, tidy, s', w, s'.workers[w]) {
      assert WorkerOk(c, tidy, s, w, s.workers[w]);
    }
  }

  lemma WorkerLeaves(c: Config, tidy: bool, s: State, w: WorkerId)
    requires Inv(c, tidy, s)
    ensures Inv(c, tidy, Abandon(s, w))
  {
    hide RowOk, EntryOk, StageOk;
    var s' := Abandon(s, w);
    forall v | v in s'.workers ensures WorkerOk(c, tidy, s', v, s'.workers[v]) {
      assert WorkerOk(c, tidy, s, v, s.workers[v]);
    }
  }

  lemma WorkerMoves(c: Config, tidy: bool, s: State, w: WorkerId, k: Worker)
    requires Inv(c, tidy, s) && WorkerOk(c, tidy, s, w, k)
    ensures Inv(c, tidy, s.(workers := s.workers[w := k]))
  {
    hide RowOk, EntryOk, StageOk;
    var s' := s.(workers := s.workers[w := k]);
    forall v | v in s'.workers ensures WorkerOk(c, tidy, s', v, s'.workers[v]) {
      assert v != w ==> WorkerOk(c, tidy, s, v, s.workers[v]);
      assert v == w ==> WorkerOk(c, tidy, s, w, k);
    }
  }

  lemma NewRowIsOk(c: Config, now: Time, inBus: bool, r: Row)
    requires r.publishedAt.None? && r.attempts == 0 && r.nextAttemptAt <= now && r.lockedBy.None? && r.lockedUntil.None?
    ensures RowOk(c, now, inBus, Track(r, [], []))
  {}

  /** The new track of an event leaves what v knows of it valid. */
  predicate StaysGoodFor(c: Config, tidy: bool, now: Time, inBus: bool, v: WorkerId, k: Worker, e: EventId,
                         t: Track, t': Track)
  {
    k.Busy? && k.queue != [] ==>
      && (forall i :: 0 <= i < |k.queue| && k.queue[i].event == e ==>
            EntryOk(c, tidy, now, v, k.at, k.queue[i], t) ==> EntryOk(c, tidy, now, v, k.at, k.queue[i], t'))
      && (k.queue[0].event == e && EntryOk(c, tidy, now, v, k.at, k.queue[0], t) ==>
            StageOk(c, tidy, now, inBus, v, k, t) ==> StageOk(c, tidy, now, inBus, v, k, t'))
  }

  /** Rows are added or changed, in ways that stay good for v. */
  ghost predicate RowsStayGood(c: Config, tidy: bool, s: State, s': State, v: WorkerId, k: Worker) {
    && SameKeys(s) && SameKeys(s') && s'.now == s.now && s'.bus == s.bus
    && forall f :: f in s.rows ==>
         f in s'.rows && StaysGoodFor(c, tidy, s.now, f in s.bus, v, k, f, TrackOf(s, f), TrackOf(s', f))
  }

  lemma OtherKeeps(c: Config, tidy: bool, s: State, s': State, v: WorkerId, k: Worker)
    requires RowsStayGood(c, tidy, s, s', v, k) && WorkerOk(c, tidy, s, v, k)
    ensures WorkerOk(c, tidy, s', v, k)
  {
    hide EntryOk, StageOk, Distinct;
    if k.Busy? {
      forall i | 0 <= i < |k.queue|
        ensures k.queue[i].event in s'.rows
        ensures EntryOk(c, tidy, s'.now, v, k.at, k.queue[i], TrackOf(s', k.queue[i].event))
      {
        var f := k.queue[i].event;
        assert StaysGoodFor(c, tidy, s.now, f in s.bus, v, k, f, TrackOf(s, f), TrackOf(s', f));
      }
    }
  }

  /** A write by w: nobody else's batch is hurt. */
  lemma WriteStaysGood(c: Config, tidy: bool, now: Time, inBus: bool, w: WorkerId, k: Worker, v: WorkerId, k': Worker,
                       e: EventId, t: Track)
    requires k.Busy? && k.queue != [] && k.stage.Writing? && StageOk(c, tidy, now, inBus, w, k, t)
    requires v != w && LockMatches(c, t) && (tidy ==> t.row.lockedBy == Some(w))
    ensures StaysGoodFor(c, tidy, now, inBus, v, k', e, t, TrackWritten(t, k))
  {
    WriteEffect(c, now, inBus, t, w, k);
    hide Merge, Wanted;
  }

  lemma GrantStaysGood(c: Config, tidy: bool, now: Time, inBus: bool, w: WorkerId, at: Time, v: WorkerId, k: Worker,
                       e: EventId, t: Track)
    requires v != w && LockMatches(c, t) && Eligible(t.row, at) && at <= now
    ensures StaysGoodFor(c, tidy, now, inBus, v, k, e, t, TrackGranted(c, t, w, at))
  {
    if k.Busy? && k.queue != [] {
      forall i | 0 <= i < |k.queue| && EntryOk(c, tidy, now, v, k.at, k.queue[i], t)
        ensures EntryOk(c, tidy, now, v, k.at, k.queue[i], TrackGranted(c, t, w, at))
      {
        GrantKeepsOther(c, tidy, now, t, w, at, v, k.at, k.queue[i]);
      }
      if EntryOk(c, tidy, now, v, k.at, k.queue[0], t) {
        GrantKeepsOther(c, tidy, now, t, w, at, v, k.at, k.queue[0]);
      }
    }
  }

  lemma AddKeeps(c: Config, tidy: bool, s: State, s': State, e: EventId)
    requires Inv(c, tidy, s) && e !in s.rows && e in s'.rows
    requires s' == s.(rows := s.rows[e := s'.rows[e]], claims := s.claims[e := []], failures := s.failures[e := []])
    requires RowOk(c, s.now, e in s.bus, Track(s'.rows[e], [], []))
    ensures Inv(c, tidy, s')
  {
    hide RowOk, EntryOk, StageOk, WorkerOk;
    assert SameKeys(s');
    forall f | f in s'.rows ensures RowOk(c, s'.now, f in s'.bus, TrackOf(s', f)) {
      assert f != e ==> TrackOf(s', f) == TrackOf(s, f);
    }
    forall v | v in s'.workers ensures WorkerOk(c, tidy, s', v, s'.workers[v]) {
      UntouchedKeeps(c, tidy, s, s', v, s.workers[v]);
    }
  }

  lemma UntouchedKeeps(c: Config, tidy: bool, s: State, s': State, v: WorkerId, k: Worker)
    requires SameKeys(s) && SameKeys(s') && s'.now == s.now && s'.bus == s.bus && WorkerOk(c, tidy, s, v, k)
    requires forall f :: f in s.rows ==> f in s'.rows && TrackOf(s', f) == TrackOf(s, f)
    ensures WorkerOk(c, tidy, s', v, k)
  {
    hide EntryOk, StageOk, WorkerOk, TrackOf;
    OtherKeeps(c, tidy, s, s', v, k);
  }

  /** w's acknowledgement reaches its head event's row. */
  lemma WriteKeeps(c: Config, tidy: bool, s: State, w: WorkerId)
    requires Inv(c, tidy, s) && MayWrite(s, w)
    requires tidy ==> s.rows[Head(s, w)].lockedBy == Some(w)
    requires var e := Head(s, w); RowOk(c, s.now, e in s.bus, TrackWritten(TrackOf(s, e), s.workers[w]))
    ensures Inv(c, tidy, Next(c, s, AckWrite(w)))
  {
    HeadFacts(c, tidy, s, w);
    WrittenIsTrack(c, s, w);
    hide RowOk, EntryOk, StageOk, WorkerOk, IsClaim, Merge, Wanted, TrackWritten;
    var e, k := Head(s, w), s.workers[w];
    var s' := Next(c, s, AckWrite(w));
    forall v | v in s'.workers && v != w ensures WorkerOk(c, tidy, s', v, s'.workers[v]) {
      assert v in s.workers && s'.workers[v] == s.workers[v];
      RowLock(c, s.now, e in s.bus, TrackOf(s, e));
      WriteStaysGood(c, tidy, s.now, e in s.bus, w, k, v, s.workers[v], e, TrackOf(s, e));
      OtherKeeps(c, tidy, s, s', v, s.workers[v]);
    }
    if w in s'.workers {
      RestKeeps(c, tidy, s, s', w, k);
    }
  }

  /** The state after a write differs in the writer and in the event's track. */
  lemma WrittenIsTrack(c: Config, s: State, w: WorkerId)
    requires SameKeys(s) && MayWrite(s, w)
    ensures var e, s' := Head(s, w), Next(c, s, AckWrite(w));
            && SameKeys(s') && s'.rows.Keys == s.rows.Keys && s'.now == s.now && s'.bus == s.bus
            && s'.claims == s.claims
            && TrackOf(s', e) == TrackWritten(TrackOf(s, e), s.workers[w])
            && (forall f :: f in s.rows && f != e ==> TrackOf(s', f) == TrackOf(s, f))
            && s'.workers - {w} == s.workers - {w}
  {
    hide Merge, Wanted, IsClaim;
  }

  /** w's remaining batch does not contain the event it has just finished. */
  lemma RestKeeps(c: Config, tidy: bool, s: State, s': State, w: WorkerId, k: Worker)
    requires SameKeys(s) && SameKeys(s') && k.Busy? && WorkerOk(c, tidy, s, w, k) && |k.queue| > 1
    requires s'.now == s.now && s'.bus == s.bus && s'.rows.Keys == s.rows.Keys
    requires forall f :: f in s.rows && f != k.queue[0].event ==> TrackOf(s', f) == TrackOf(s, f)
    ensures WorkerOk(c, tidy, s', w, Busy(k.at, k.queue[1..], Publishing))
  {
    hide EntryOk;
    assert StageOk(c, tidy, s'.now, k.queue[1].event in s'.bus, w, Busy(k.at, k.queue[1..], Publishing),
                   TrackOf(s', k.queue[1].event));
  }

  /** The state after a claim differs in the claimer and in the tracks of its batch. */
  lemma LeasedIsTrack(c: Config, s: State, w: WorkerId, at: Time, batch: seq<EventId>)
    requires SameKeys(s) && forall i :: 0 <= i < |batch| ==> batch[i] in s.rows
    ensures var s' := Lease(c, s, w, at, batch);
            && SameKeys(s') && s'.rows.Keys == s.rows.Keys && s'.now == s.now && s'.bus == s.bus
            && s'.failures == s.failures && s'.workers - {w} == s.workers - {w}
            && (forall f :: f in s.rows ==>
                  TrackOf(s', f) == if f in batch then TrackGranted(c, TrackOf(s, f), w, at) else TrackOf(s, f))
  {}

  /** A worker takes the lease on a batch. */
  lemma ClaimKeeps(c: Config, tidy: bool, s: State, w: WorkerId, skipped: set<EventId>, batch: seq<EventId>)
    requires Inv(c, tidy, s) && w in s.workers && s.workers[w].Started?
    requires IsClaim(s.rows, s.workers[w].at, skipped, c.limit, batch)
    ensures Inv(c, tidy, Lease(c, s, w, s.workers[w].at, batch))
  {
    hide RowOk, EntryOk, StageOk, WorkerOk, Eligible, Before, LockMatches, TrackGranted, TrackOf;
    assert forall i :: 0 <= i < |batch| ==> Selectable(s.rows, s.workers[w].at, skipped, batch[i]);
    var at := s.workers[w].at;
    var s' := Lease(c, s, w, at, batch);
    LeasedIsTrack(c, s, w, at, batch);
    assert at <= s.now by { StartedEarlier(c, tidy, s, w, s.workers[w]); }
    forall f | f in s'.rows ensures RowOk(c, s'.now, f in s'.bus, TrackOf(s', f)) {
      if f in batch {
        EligibleTrack(s, f, at);
        GrantKeepsRow(c, tidy, s.now, f in s.bus, TrackOf(s, f), w, at, f);
      }
    }
    forall v | v in s'.workers && v != w ensures WorkerOk(c, tidy, s', v, s'.workers[v]) {
      assert v in s.workers && s'.workers[v] == s.workers[v];
      forall f | f in s.rows
        ensures StaysGoodFor(c, tidy, s.now, f in s.bus, v, s.workers[v], f, TrackOf(s, f), TrackOf(s', f))
      {
        if f in batch {
          RowLock(c, s.now, f in s.bus, TrackOf(s, f));
          EligibleTrack(s, f, at);
          GrantStaysGood(c, tidy, s.now, f in s.bus, w, at, v, s.workers[v], f, TrackOf(s, f));
        }
      }
      OtherKeeps(c, tidy, s, s', v, s.workers[v]);
    }
    if w in s'.workers {
      BatchStarts(c, tidy, s, w, skipped, batch);
    }
  }

  lemma EligibleTrack(s: State, e: EventId, at: Time)
    requires SameKeys(s) && e in s.rows && Eligible(s.rows[e], at)
    ensures Eligible(TrackOf(s, e).row, at)
  {}

  lemma StartedEarlier(c: Config, tidy: bool, s: State, w: WorkerId, k: Worker)
    requires SameKeys(s) && WorkerOk(c, tidy, s, w, k)
    ensures k.at <= s.now
  {}

  lemma RowLock(c: Config, now: Time, inBus: bool, t: Track)
    requires RowOk(c, now, inBus, t)
    ensures LockMatches(c, t)
  {}

  /** What a claim hands to the dispatcher matches the rows it has just leased. */
  lemma BatchStarts(c: Config, tidy: bool, s: State, w: WorkerId, skipped: set<EventId>, batch: seq<EventId>)
    requires Inv(c, tidy, s) && w in s.workers && s.workers[w].Started? && batch != []
    requires IsClaim(s.rows, s.workers[w].at, skipped, c.limit, batch)
    ensures var at := s.workers[w].at;
            WorkerOk(c, tidy, Lease(c, s, w, at, batch), w, Busy(at, Snapshots(s.rows, batch), Publishing))
  {
    hide RowOk, EntryOk, Eligible, Before, TrackGranted;
    ClaimIsDistinct(s.rows, s.workers[w].at, skipped, c.limit, batch);
    assert forall i :: 0 <= i < |batch| ==> Selectable(s.rows, s.workers[w].at, skipped, batch[i]);
    var at := s.workers[w].at;
    assert WorkerOk(c, tidy, s, w, s.workers[w]);
    var s', queue := Lease(c, s, w, at, batch), Snapshots(s.rows, batch);
    LeasedIsTrack(c, s, w, at, batch);
    hide Lease;
    forall i | 0 <= i < |queue|
      ensures queue[i].event in s'.rows
      ensures EntryOk(c, tidy, s'.now, w, at, queue[i], TrackOf(s', queue[i].event))
    {
      var f := batch[i];
      assert f in batch && f in s.rows;
      GrantKeepsRow(c, tidy, s.now, f in s.bus, TrackOf(s, f), w, at, f);
    }
  }

  lemma HeadFacts(c: Config, tidy: bool, s: State, w: WorkerId)
    requires Inv(c, tidy, s) && IsBusy(s, w)
    ensures var e, k := Head(s, w), s.workers[w];
            && k.at <= s.now && RowOk(c, s.now, e in s.bus, TrackOf(s, e))
            && EntryOk(c, tidy, s.now, w, k.at, k.queue[0], TrackOf(s, e))
            && StageOk(c, tidy, s.now, e in s.bus, w, k, TrackOf(s, e))
  {
    hide RowOk, EntryOk, StageOk;
    assert WorkerOk(c, tidy, s, w, s.workers[w]);
  }

  lemma AckReadKeeps(c: Config, tidy: bool, s: State, w: WorkerId)
    requires Inv(c, tidy, s)
    ensures Inv(c, tidy, Next(c, s, AckRead(w)))
  {
    hide RowOk, EntryOk, IsClaim, ReadOk;
    if MayRead(s, w) {
      var e, k := Head(s, w), s.workers[w];
      if !OwnedBy(s.rows[e], w) {
        WorkerLeaves(c, tidy, s, w);
      } else {
        HeadFacts(c, tidy, s, w);
        FreshRead(c, tidy, s.now, e in s.bus, TrackOf(s, e), w, k.at, k.queue[0]);
        assert WorkerOk(c, tidy, s, w, k);
        WorkerMoves(c, tidy, s, w, k.(stage := Writing(k.stage.ok, k.stage.error, s.rows[e], |s.claims[e]|)));
      }
    }
  }

  lemma FreshRead(c: Config, tidy: bool, now: Time, inBus: bool, t: Track, w: WorkerId, at: Time, x: Claimed)
    requires RowOk(c, now, inBus, t) && EntryOk(c, tidy, now, w, at, x, t) && OwnedBy(t.row, w)
    ensures ReadOk(c, tidy, now, w, at, x, t.row, |t.claims|, t)
  {}

  lemma AckWriteKeeps(c: Config, tidy: bool, s: State, w: WorkerId)
    requires Inv(c, tidy, s) && (tidy ==> Meets(c, s, AckWrite(w), Fresh))
    ensures Inv(c, tidy, Next(c, s, AckWrite(w)))
  {
    hide RowOk, EntryOk, IsClaim;
    if MayWrite(s, w) {
      var e, k := Head(s, w), s.workers[w];
      HeadFacts(c, tidy, s, w);
      WriteKeepsRow(c, tidy, s.now, e in s.bus, TrackOf(s, e), w, k);
      hide Next, Inv;
      WriteKeeps(c, tidy, s, w);
    }
  }

  lemma PublishKeeps(c: Config, tidy: bool, s: State, w: WorkerId, accepted: bool, reported: bool, error: string)
    requires Inv(c, tidy, s)
    ensures Inv(c, tidy, Next(c, s, Publish(w, accepted, reported, error)))
  {
    hide RowOk, EntryOk, IsClaim, ReadOk;
    if IsBusy(s, w) && s.workers[w].stage.Publishing? && (reported ==> accepted) {
      var e, k := Head(s, w), s.workers[w];
      var s1 := if accepted then s.(bus := s.bus + {e}) else s;
      TimePasses(c, tidy, s, s1);
      assert WorkerOk(c, tidy, s1, w, k);
      WorkerMoves(c, tidy, s1, w, k.(stage := Acking(reported, error)));
    }
  }

  /** The invariant survives every step. */
  lemma StepKeeps(c: Config, tidy: bool, s: State, a: Action)
    requires Inv(c, tidy, s) && (tidy ==> Meets(c, s, a, Fresh))
    ensures Inv(c, tidy, Next(c, s, a))
  {
    hide RowOk, EntryOk, StageOk, IsClaim, Write, Lease, Wanted, Merge, Meets;
    match a
    case Add(e, id, content, occurredAt) =>
      if e !in s.rows && occurredAt <= s.now {
        NewRowIsOk(c, s.now, e in s.bus, Row(id, content, occurredAt, None, 0, occurredAt, None, None, None));
        AddKeeps(c, tidy, s, Next(c, s, a), e);
      }
    case Tick(seconds) => TimePasses(c, tidy, s, Next(c, s, a));
    case Start(w) => if w !in s.workers { WorkerMoves(c, tidy, s, w, Started(s.now)); }
    case Claim(w, skipped, batch) => if MayClaim(c, s, a) { ClaimKeeps(c, tidy, s, w, skipped, batch); }
    case Publish(w, accepted, reported, error) => PublishKeeps(c, tidy, s, w, accepted, reported, error);
    case AckRead(w) => AckReadKeeps(c, tidy, s, w);
    case AckWrite(w) => AckWriteKeeps(c, tidy, s, w);
    case Crash(w) => WorkerLeaves(c, tidy, s, w);
  }

  /** The invariant holds in every run; its tidy half in every run without stale writes. */
  lemma {:induction false} EveryRunKeeps(c: Config, tidy: bool, start: Time, acts: seq<Action>)
    requires c.lease >= 1 && (tidy ==> EveryWrite(c, start, acts, Fresh))
    ensures Inv(c, tidy, Exec(c, Initial(start), acts))
  {
    hide Meets, Next;
    if acts != [] {
      var n := |acts| - 1;
      if tidy { EveryWriteOfFront(c, start, acts, Fresh, n); }
      EveryRunKeeps(c, tidy, start, acts[..n]);
      StepKeeps(c, tidy, Exec(c, Initial(start), acts[..n]), acts[n]);
    }
  }

  lemma ExecAppend(c: Config, s: State, acts: seq<Action>, a: Action)
    ensures Exec(c, s, acts + [a]) == Next(c, Exec(c, s, acts), a)
  {
    assert (acts + [a])[..|acts|] == acts;
  }

  // ------------------------------------------------------------ every run

  /** Whatever is marked published has reached the bus. */
  lemma DeliverySafety(c: Config, start: Time, acts: seq<Action>, e: EventId)
    requires c.lease >= 1
    ensures var s := Exec(c, Initial(start), acts);
            e in s.rows && s.rows[e].publishedAt.Some? ==> e in s.bus
  {
    EveryRunKeeps(c, false, start, acts);
  }

  predicate Persists(r: Row, r': Row) {
    && r'.id == r.id && r'.content == r.content && r'.occurredAt == r.occurredAt
    && (r.publishedAt.Some? ==> r'.publishedAt.Some?)
  }

  lemma StepPersists(c: Config, s: State, a: Action, e: EventId)
    requires e in s.rows
    ensures e in Next(c, s, a).rows && Persists(s.rows[e], Next(c, s, a).rows[e])
    ensures s.bus <= Next(c, s, a).bus
  {
    hide IsClaim;
  }

  /** No event is ever removed, altered or un-published, from any state on. */
  lemma {:induction false} NothingIsLost(c: Config, s: State, acts: seq<Action>, e: EventId)
    requires e in s.rows
    ensures var s' := Exec(c, s, acts);
            e in s'.rows && Persists(s.rows[e], s'.rows[e]) && s.bus <= s'.bus
  {
    hide Next;
    if acts != [] {
      NothingIsLost(c, s, acts[..|acts| - 1], e);
      StepPersists(c, Exec(c, s, acts[..|acts| - 1]), acts[|acts| - 1], e);
    }
  }

  /** No event is ever stuck: an unpublished one can be claimed at the latest when the
      longer of one lease and the longest retry delay has passed, and a claim that passes
      it over is a full batch of older events (or found its row locked). */
  lemma NoEventIsStuck(c: Config, start: Time, acts: seq<Action>, e: EventId, t: Time, skipped: set<EventId>,
                       batch: seq<EventId>)
    requires c.lease >= 1
    ensures var s := Exec(c, Initial(start), acts);
            e in s.rows && s.rows[e].publishedAt.None? && t >= s.now + c.lease && t >= s.now + 600 ==>
              && Eligible(s.rows[e], t)
              && (IsClaim(s.rows, t, skipped, c.limit, batch) && e !in skipped && e !in batch ==>
                    && |batch| == c.limit
                    && forall i :: 0 <= i < |batch| ==>
                         && batch[i] in s.rows && s.rows[batch[i]].occurredAt <= s.rows[e].occurredAt
                         && (s.rows[batch[i]].occurredAt == s.rows[e].occurredAt ==>
                               s.rows[batch[i]].id < s.rows[e].id))
  {
    EveryRunKeeps(c, false, start, acts);
    var s := Exec(c, Initial(start), acts);
    if e in s.rows && s.rows[e].publishedAt.None? && t >= s.now + c.lease && t >= s.now + 600 {
      assert RowOk(c, s.now, e in s.bus, TrackOf(s, e));
      assert Selectable(s.rows, t, skipped, e) || e in skipped;
      if IsClaim(s.rows, t, skipped, c.limit, batch) { ClaimTakesOldest(s.rows, t, skipped, c.limit, batch); }
    }
  }
}
