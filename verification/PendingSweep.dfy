/** The billing sweeper: one sweep over a fetched batch, its backoff table for tenants without
    funds, and how many sweeps it takes to visit every waiting job. */
module PendingSweep {
  import opened Basics
  import opened Ledger
  import opened Metering
  import opened Jobs
  import opened Billing
  import opened Sweeps

  /** Seconds a job without funds is left alone. */
  const NO_FUNDS_RETRY := 3600

  datatype SweepState = SweepState(db: Db, nextTry: map<string, int>)

  datatype SweepFaults = SweepFaults(fin: FinalizeFaults, write: Fault)

  /** The sweep goes on, stops early, or is torn down by an exception it does not catch. */
  datatype Verdict = GoOn | Stop | Abort

  function Without(m: map<string, int>, j: string): map<string, int> { m - {j} }

  /** The row update decided by a billing status, if it commits. */
  function Settle(jobs: Table, b: Fetched, s: BillingStatus, f: Fault): Table {
    var p := SweepPatch(s, b.row.error, b.row.duration);
    if p.Some? && f.Commits() then Update(jobs, b.job, p.value, b.row.tenant, SweepGuard(s)).0 else jobs
  }

  /** What is counted for the job: a final write that raised turns "ok" into an error. */
  function Counted(s: BillingStatus, f: Fault): BillingStatus {
    if s == BilledOk && f != Fine then OtherFailed else s
  }

  /** One job of the batch. */
  function SweepOne(st: SweepState, b: Fetched, now: int, f: SweepFaults): (SweepState, BillingStatus, Verdict) {
    var (db, s) := FinalizeSpec(st.db, b.row.tenant, b.job, Cost(b.row.duration), KindOf(b.row.backend), f.fin);
    var after := db.(jobs := Settle(db.jobs, b, s, f.write));
    match s
    case BilledOk => (SweepState(after, Without(st.nextTry, b.job)), Counted(s, f.write), GoOn)
    case NoFundsLeft =>
      var raised := f.write != Fine && SweepPatch(s, b.row.error, b.row.duration).Some?;
      (SweepState(after, st.nextTry[b.job := now + NO_FUNDS_RETRY]), s, if raised then Abort else GoOn)
    case KeyMismatch => (SweepState(after, st.nextTry), s, GoOn)
    case Skipped => (SweepState(after, st.nextTry), s, GoOn)
    case PgFailed => (SweepState(after, st.nextTry), s, Stop)
    case OtherFailed => (SweepState(after, st.nextTry), s, GoOn)
  }

  function SweepAll(st: SweepState, batch: seq<Fetched>, now: int, env: string -> SweepFaults): (SweepState, Verdict)
    decreases |batch|
  {
    if batch == [] then (st, GoOn)
    else
      var (next, s, v) := SweepOne(st, batch[0], now, env(batch[0].job));
      if v == GoOn then SweepAll(next, batch[1..], now, env) else (next, v)
  }

  function JobsIn(batch: seq<Fetched>): set<string> { set b | b in batch :: b.job }

  /** After a short batch the backoff of every job not seen in it is dropped. */
  function Tidied(st: SweepState, batch: seq<Fetched>, limit: nat): SweepState {
    if |batch| < limit then st.(nextTry := map j | j in st.nextTry && j in JobsIn(batch) :: st.nextTry[j]) else st
  }

  function SweepOnce(st: SweepState, batch: seq<Fetched>, now: int, limit: nat, env: string -> SweepFaults): SweepState {
    var (after, v) := SweepAll(st, batch, now, env);
    if v == Abort then after else Tidied(after, batch, limit)
  }

  // ----- what a sweep keeps, whatever fails

  lemma SettleKeepsMoney(db: Db, b: Fetched, s: BillingStatus, f: Fault)
    requires MoneySound(db)
    requires s == BilledOk ==> DebitEntry(b.row.tenant, b.job, Cost(b.row.duration)) in db.rows
    ensures MoneySound(db.(jobs := Settle(db.jobs, b, s, f)))
  {
    var jobs := Settle(db.jobs, b, s, f);
    forall j | j in jobs
      ensures RowBacked(db.rows, j, jobs[j])
    {
      assert RowBacked(db.rows, j, db.jobs[j]);
    }
  }

  lemma SweepOneKeepsMoney(st: SweepState, b: Fetched, now: int, f: SweepFaults)
    requires MoneySound(st.db)
    ensures MoneySound(SweepOne(st, b, now, f).0.db) && st.db.rows <= SweepOne(st, b, now, f).0.db.rows
  {
    var (t, a, k) := (b.row.tenant, Cost(b.row.duration), KindOf(b.row.backend));
    FinalizeKeepsMoney(st.db, t, b.job, a, k, f.fin);
    var (db, s) := FinalizeSpec(st.db, t, b.job, a, k, f.fin);
    SettleKeepsMoney(db, b, s, f.write);
  }

  lemma {:induction false} SweepKeepsMoney(st: SweepState, batch: seq<Fetched>, now: int, env: string -> SweepFaults)
    requires MoneySound(st.db)
    ensures MoneySound(SweepAll(st, batch, now, env).0.db)
    decreases |batch|
  {
    if batch != [] {
      SweepOneKeepsMoney(st, batch[0], now, env(batch[0].job));
      var (next, s, v) := SweepOne(st, batch[0], now, env(batch[0].job));
      if v == GoOn { SweepKeepsMoney(next, batch[1..], now, env); }
    }
  }

  // ----- the backoff table

  predicate HeldBack(st: SweepState, now: int, j: string) {
    j in st.nextTry && st.nextTry[j] > now
  }

  lemma {:induction false} BackoffElsewhere(st: SweepState, batch: seq<Fetched>, now: int, env: string -> SweepFaults, j: string)
    requires j !in JobsIn(batch)
    ensures HeldBack(SweepAll(st, batch, now, env).0, now, j) <==> HeldBack(st, now, j)
    decreases |batch|
  {
    if batch != [] {
      assert batch[0] in batch && forall b | b in batch[1..] :: b in batch;
      var (next, s, v) := SweepOne(st, batch[0], now, env(batch[0].job));
      if v == GoOn { BackoffElsewhere(next, batch[1..], now, env, j); }
    }
  }

  /** What one job of the batch does to the backoff: without funds it is left alone for an hour from
      now, billed it is forgotten, and otherwise, like every other job, it keeps what it had. */
  lemma BackoffExactly(st: SweepState, b: Fetched, now: int, f: SweepFaults, later: int, j: string)
    ensures
      var s := FinalizeSpec(st.db, b.row.tenant, b.job, Cost(b.row.duration), KindOf(b.row.backend), f.fin).1;
      var next := SweepOne(st, b, now, f).0;
      HeldBack(next, later, j) <==>
        if j != b.job then HeldBack(st, later, j)
        else if s == NoFundsLeft then later < now + 3600
        else if s == BilledOk then false
        else HeldBack(st, later, j)
  {
  }

  /** The sweep ends early exactly when PostgreSQL failed the billing, and is torn down exactly when
      its own no-funds marker, differing from the one it fetched, could not be written. */
  lemma VerdictExactly(st: SweepState, b: Fetched, now: int, f: SweepFaults)
    ensures
      var s := FinalizeSpec(st.db, b.row.tenant, b.job, Cost(b.row.duration), KindOf(b.row.backend), f.fin).1;
      var (next, told, v) := SweepOne(st, b, now, f);
      && (v == Stop <==> s == PgFailed)
      && (v == Abort <==> s == NoFundsLeft && f.write != Fine && b.row.error != PendingMarker(FundsShort, ExecOf(b.row.error)))
      && told == (if s == BilledOk && f.write != Fine then OtherFailed else s)
  {
  }

  /** After the job that stops it, a sweep touches nothing more. */
  lemma {:induction false} StopsThere(st: SweepState, batch: seq<Fetched>, k: nat, now: int, env: string -> SweepFaults)
    requires k <= |batch| && SweepAll(st, batch[..k], now, env).1 != GoOn
    ensures SweepAll(st, batch, now, env) == SweepAll(st, batch[..k], now, env)
    decreases |batch|
  {
    if k > 0 {
      FirstThenRest(st, batch, k, now, env);
      var (next, s, v) := SweepOne(st, batch[0], now, env(batch[0].job));
      if v == GoOn { StopsThere(next, batch[1..], k - 1, now, env); }
    }
  }

  lemma FirstThenRest(st: SweepState, batch: seq<Fetched>, k: nat, now: int, env: string -> SweepFaults)
    requires 0 < k <= |batch|
    ensures
      var (next, s, v) := SweepOne(st, batch[0], now, env(batch[0].job));
      && SweepAll(st, batch, now, env) == (if v == GoOn then SweepAll(next, batch[1..], now, env) else (next, v))
      && SweepAll(st, batch[..k], now, env) == (if v == GoOn then SweepAll(next, batch[1..][..k - 1], now, env) else (next, v))
  {
    assert batch[..k][0] == batch[0] && batch[..k][1..] == batch[1..][..k - 1];
  }

  /** While nothing stops it, it handles the batch in order, one job after the other. */
  lemma {:induction false} GoesOn(st: SweepState, batch: seq<Fetched>, b: Fetched, now: int, env: string -> SweepFaults)
    requires SweepAll(st, batch, now, env).1 == GoOn
    ensures
      var (mid, one) := (SweepAll(st, batch, now, env).0, SweepOne(SweepAll(st, batch, now, env).0, b, now, env(b.job)));
      SweepAll(st, batch + [b], now, env) == (one.0, one.2)
    decreases |batch|
  {
    if batch == [] {
      assert ([] + [b])[1..] == [];
    } else {
      var next := SweepOne(st, batch[0], now, env(batch[0].job)).0;
      assert (batch + [b])[1..] == batch[1..] + [b];
      GoesOn(next, batch[1..], b, now, env);
    }
  }

  /** Of the jobs in the batch, the backoff survives the tidying after it. */
  lemma SeenIsKept(st: SweepState, batch: seq<Fetched>, now: int, limit: nat, env: string -> SweepFaults, j: string)
    requires j in JobsIn(batch)
    ensures HeldBack(SweepOnce(st, batch, now, limit, env), now, j) <==> HeldBack(SweepAll(st, batch, now, env).0, now, j)
    ensures SweepOnce(st, batch, now, limit, env).db == SweepAll(st, batch, now, env).0.db
  {
  }

  /** A job that is held back, and so not in the batch, is still held back after the sweep if and
      only if the batch was full or the sweep was torn down. */
  lemma BackoffKeptExactly(st: SweepState, batch: seq<Fetched>, now: int, limit: nat, env: string -> SweepFaults, j: string)
    requires HeldBack(st, now, j) && j !in JobsIn(batch)
    ensures HeldBack(SweepOnce(st, batch, now, limit, env), now, j)
       <==> |batch| >= limit || SweepAll(st, batch, now, env).1 == Abort
  {
    BackoffElsewhere(st, batch, now, env, j);
  }

  const SHORT_OF_FUNDS := JobRow("t", BillingPending, PendingMarker(FundsShort, None), 0, 100, None)

  /** One parked job, just found without funds. */
  function OneHeldBack(now: int): SweepState {
    SweepState(Db([], Books([], map[]), map["j" := SHORT_OF_FUNDS]), map["j" := now + NO_FUNDS_RETRY])
  }

  /** The smallest case: nothing else is parked, the query returns nothing, and the job that was to
      be left alone for an hour is waiting again at once. */
  lemma ShortBatchForgets(now: int, limit: nat, env: string -> SweepFaults)
    requires limit > 0
    ensures
      var st := OneHeldBack(now);
      && PendingBatch(st, now, limit, []) && HeldBack(st, now, "j") && !Waiting(st, now, "j")
      && Waiting(SweepOnce(st, [], now, limit, env), now, "j")
  {
    assert Unpaused(OneHeldBack(now), now) == {};
  }

  /** Unless there were no funds, a row that was ended in the meantime is left alone. */
  lemma EndedIsLeftAlone(jobs: Table, b: Fetched, s: BillingStatus, f: Fault)
    requires b.job in jobs && jobs[b.job].status in {Completed, Failed, Timeout, Cancelled} && s != NoFundsLeft
    ensures Settle(jobs, b, s, f) == jobs
  {
  }

  // ----- progress

  predicate Waiting(st: SweepState, now: int, j: string) {
    j in st.db.jobs && st.db.jobs[j].status == BillingPending && !(j in st.nextTry && st.nextTry[j] > now)
  }

  /** The parked jobs that are not held back. */
  function Unpaused(st: SweepState, now: int): set<string> {
    set j | j in st.db.jobs && Waiting(st, now, j)
  }

  ghost predicate SoundMarkers(jobs: Table) {
    forall j | j in jobs && jobs[j].error.Billing? :: jobs[j].error == PendingMarker(jobs[j].error.fault, jobs[j].error.exec)
  }

  /** What the query returns: waiting jobs, `limit` of them unless there are fewer. */
  ghost predicate PendingBatch(st: SweepState, now: int, limit: nat, batch: seq<Fetched>) {
    && DistinctJobs(batch)
    && (forall b | b in batch :: Waiting(st, now, b.job) && st.db.jobs[b.job] == b.row)
    && |batch| == Min(limit, |Unpaused(st, now)|)
  }

  const ALL_FINE := SweepFaults(FinalizeFaults(Fine, Fine, Fine, Fine), Fine)

  ghost predicate NothingFails(env: string -> SweepFaults) {
    forall j: string :: env(j) == ALL_FINE
  }

  ghost predicate Sane(st: SweepState) { SoundMarkers(st.db.jobs) && "" !in st.db.jobs }

  /** Nothing about any other job changes. */
  ghost predicate LeavesOthers(st: SweepState, next: SweepState, job: string) {
    && next.db.jobs.Keys == st.db.jobs.Keys
    && (forall j | j in st.db.jobs && j != job :: next.db.jobs[j] == st.db.jobs[j])
    && (forall j | j != job :: j in next.nextTry <==> j in st.nextTry)
    && (forall j | j != job && j in st.nextTry :: next.nextTry[j] == st.nextTry[j])
  }

  lemma FineFinalize(db: Db, tenant: string, job: string, amount: nat, kind: EventKind)
    requires job != ""
    ensures
      var (after, s) := FinalizeSpec(db, tenant, job, amount, kind, FinalizeFaults(Fine, Fine, Fine, Fine));
      after.jobs == db.jobs && s != PgFailed && s != OtherFailed
  {
  }

  /** The write that ends a wait releases the job; without funds the row stays parked. */
  lemma SettleReleases(jobs: Table, b: Fetched, s: BillingStatus)
    requires b.job in jobs && jobs[b.job] == b.row && b.row.status == BillingPending && SoundMarkers(jobs)
    requires s != PgFailed && s != OtherFailed
    ensures
      var after := Settle(jobs, b, s, Fine);
      && SoundMarkers(after) && after.Keys == jobs.Keys
      && (s != NoFundsLeft ==> after[b.job].status != BillingPending)
      && (forall j | j in jobs && j != b.job :: after[j] == jobs[j])
  {
  }

  /** A job of the batch is released or held back; every other job is left alone. */
  lemma OneLeaves(st: SweepState, b: Fetched, now: int)
    requires Sane(st) && Waiting(st, now, b.job) && st.db.jobs[b.job] == b.row
    ensures
      var (next, s, v) := SweepOne(st, b, now, ALL_FINE);
      v == GoOn && Sane(next) && !Waiting(next, now, b.job) && LeavesOthers(st, next, b.job)
  {
    var (db, s) := FinalizeSpec(st.db, b.row.tenant, b.job, Cost(b.row.duration), KindOf(b.row.backend), ALL_FINE.fin);
    FineFinalize(st.db, b.row.tenant, b.job, Cost(b.row.duration), KindOf(b.row.backend));
    SettleReleases(db.jobs, b, s);
  }

  lemma WaitingElsewhere(st: SweepState, next: SweepState, now: int, job: string)
    requires LeavesOthers(st, next, job) && !Waiting(next, now, job)
    ensures Unpaused(next, now) == Unpaused(st, now) - {job}
  {
    assert forall j :: Waiting(next, now, j) <==> Waiting(st, now, j) && j != job;
  }

  lemma RestWaits(st: SweepState, next: SweepState, now: int, batch: seq<Fetched>)
    requires DistinctJobs(batch) && batch != [] && LeavesOthers(st, next, batch[0].job)
    requires forall b | b in batch :: Waiting(st, now, b.job) && st.db.jobs[b.job] == b.row
    ensures DistinctJobs(batch[1..])
    ensures forall b | b in batch[1..] :: Waiting(next, now, b.job) && next.db.jobs[b.job] == b.row
    ensures JobsIn(batch) == {batch[0].job} + JobsIn(batch[1..])
    ensures batch[0].job !in JobsIn(batch[1..])
  {
    assert forall c | c in batch[1..] :: c in batch && c.job != batch[0].job;
    assert batch == [batch[0]] + batch[1..];
  }

  lemma {:induction false} BatchLeaves(st: SweepState, batch: seq<Fetched>, now: int, env: string -> SweepFaults)
    requires Sane(st) && NothingFails(env) && DistinctJobs(batch)
    requires forall b | b in batch :: Waiting(st, now, b.job) && st.db.jobs[b.job] == b.row
    ensures
      var (after, v) := SweepAll(st, batch, now, env);
      v == GoOn && Sane(after) && Unpaused(after, now) == Unpaused(st, now) - JobsIn(batch)
    ensures |JobsIn(batch)| == |batch|
    decreases |batch|
  {
    if batch != [] {
      assert batch[0] in batch;
      OneLeaves(st, batch[0], now);
      var next := SweepOne(st, batch[0], now, ALL_FINE).0;
      RestWaits(st, next, now, batch);
      WaitingElsewhere(st, next, now, batch[0].job);
      BatchLeaves(next, batch[1..], now, env);
    }
  }

  /** A full batch takes exactly its own jobs out of the waiting ones; a short one takes all. */
  lemma FullBatchProgress(st: SweepState, batch: seq<Fetched>, now: int, limit: nat, env: string -> SweepFaults)
    requires Sane(st) && NothingFails(env) && PendingBatch(st, now, limit, batch)
    ensures |batch| < limit ==> JobsIn(batch) == Unpaused(st, now)
    ensures |batch| == limit ==>
              && Sane(SweepOnce(st, batch, now, limit, env))
              && Unpaused(SweepOnce(st, batch, now, limit, env), now) == Unpaused(st, now) - JobsIn(batch)
              && |Unpaused(SweepOnce(st, batch, now, limit, env), now)| == |Unpaused(st, now)| - limit
  {
    BatchLeaves(st, batch, now, env);
    assert JobsIn(batch) <= Unpaused(st, now);
    if |batch| < limit { SubsetOfSameSize(JobsIn(batch), Unpaused(st, now)); }
  }

  lemma SubsetOfSameSize(a: set<string>, b: set<string>)
    requires a <= b && |a| == |b|
    ensures a == b
  {
    assert b == a + (b - a);
    assert |b - a| == 0;
  }

  datatype Round = Round(now: int, batch: seq<Fetched>, env: string -> SweepFaults)

  /** No backoff runs out between two sweeps. */
  ghost predicate NoExpiry(st: SweepState, from: int, to: int) {
    from <= to && forall j | j in st.nextTry && st.nextTry[j] > from :: st.nextTry[j] > to
  }

  /** Sweeps one after the other: nothing fails, nothing is parked in between, no backoff expires. */
  ghost predicate Rounds(st: SweepState, rounds: seq<Round>, limit: nat)
    decreases |rounds|
  {
    rounds == [] ||
    var r := rounds[0];
    var next := SweepOnce(st, r.batch, r.now, limit, r.env);
    && NothingFails(r.env) && PendingBatch(st, r.now, limit, r.batch)
    && (|rounds| > 1 ==> NoExpiry(next, r.now, rounds[1].now))
    && Rounds(next, rounds[1..], limit)
  }

  lemma LaterIsTheSame(st: SweepState, from: int, to: int)
    requires NoExpiry(st, from, to)
    ensures Unpaused(st, to) == Unpaused(st, from)
  {
    assert forall j :: Waiting(st, to, j) <==> Waiting(st, from, j);
  }

  /** A first round that does not reach a waiting job was full; the rest start with fewer waiting. */
  lemma RoundProgress(st: SweepState, rounds: seq<Round>, limit: nat, j: string) returns (next: SweepState)
    requires Sane(st) && Rounds(st, rounds, limit) && |rounds| > 1
    requires j in Unpaused(st, rounds[0].now) && j !in JobsIn(rounds[0].batch)
    ensures Sane(next) && Rounds(next, rounds[1..], limit)
    ensures j in Unpaused(next, rounds[1].now)
    ensures |Unpaused(next, rounds[1].now)| == |Unpaused(st, rounds[0].now)| - limit
  {
    var r := rounds[0];
    next := SweepOnce(st, r.batch, r.now, limit, r.env);
    FullBatchProgress(st, r.batch, r.now, limit, r.env);
    LaterIsTheSame(next, r.now, rounds[1].now);
  }

  ghost predicate Visited(rounds: seq<Round>, j: string) {
    exists k | 0 <= k < |rounds| :: j in JobsIn(rounds[k].batch)
  }

  /** How many jobs that many full batches hold. */
  function Room(rounds: nat, limit: nat): nat {
    if rounds == 0 then 0 else Room(rounds - 1, limit) + limit
  }

  lemma OneRoundLess(st: SweepState, rounds: seq<Round>, limit: nat, j: string) returns (next: SweepState)
    requires Sane(st) && Rounds(st, rounds, limit) && rounds != []
    requires |Unpaused(st, rounds[0].now)| < Room(|rounds|, limit)
    requires j in Unpaused(st, rounds[0].now) && j !in JobsIn(rounds[0].batch)
    ensures rounds[1..] != [] && Sane(next) && Rounds(next, rounds[1..], limit)
    ensures j in Unpaused(next, rounds[1..][0].now)
    ensures |Unpaused(next, rounds[1..][0].now)| < Room(|rounds[1..]|, limit)
  {
    FirstIsFull(st, rounds, limit, j);
    assert |rounds| > 1 by { assert Room(1, limit) == Room(0, limit) + limit; }
    next := RoundProgress(st, rounds, limit, j);
    assert rounds[1..][0] == rounds[1];
  }

  /** Enough rounds to hold all waiting jobs, with room to spare, visit each of them. */
  lemma {:induction false} EveryoneIsVisited(st: SweepState, rounds: seq<Round>, limit: nat, j: string)
    requires Sane(st) && Rounds(st, rounds, limit) && rounds != []
    requires |Unpaused(st, rounds[0].now)| < Room(|rounds|, limit)
    requires j in Unpaused(st, rounds[0].now)
    ensures Visited(rounds, j)
    decreases |rounds|
  {
    if j !in JobsIn(rounds[0].batch) {
      var next := OneRoundLess(st, rounds, limit, j);
      EveryoneIsVisited(next, rounds[1..], limit, j);
      VisitedLater(rounds, j);
    }
  }

  lemma VisitedLater(rounds: seq<Round>, j: string)
    requires rounds != [] && Visited(rounds[1..], j)
    ensures Visited(rounds, j)
  {
    var k :| 0 <= k < |rounds[1..]| && j in JobsIn(rounds[1..][k].batch);
    assert rounds[1..][k] == rounds[k + 1];
  }

  lemma FirstIsFull(st: SweepState, rounds: seq<Round>, limit: nat, j: string)
    requires Sane(st) && Rounds(st, rounds, limit) && rounds != []
    requires j in Unpaused(st, rounds[0].now) && j !in JobsIn(rounds[0].batch)
    ensures |rounds[0].batch| == limit <= |Unpaused(st, rounds[0].now)|
  {
    FullBatchProgress(st, rounds[0].batch, rounds[0].now, limit, rounds[0].env);
  }

  lemma {:induction false} RoomIsProduct(rounds: nat, limit: nat)
    ensures Room(rounds, limit) == rounds * limit
  {
    if rounds > 0 { RoomIsProduct(rounds - 1, limit); }
  }

  lemma RoundsNeeded(n: nat, limit: nat)
    requires limit > 0
    ensures n < Room(n / limit + 1, limit)
  {
    RoomIsProduct(n / limit + 1, limit);
    assert n == (n / limit) * limit + n % limit;
  }

  /** All N waiting jobs are visited within N / limit + 1 sweeps, in whatever order they come. */
  lemma VisitedInTime(st: SweepState, rounds: seq<Round>, limit: nat, j: string)
    requires limit > 0 && Sane(st) && Rounds(st, rounds, limit) && rounds != []
    requires |rounds| == |Unpaused(st, rounds[0].now)| / limit + 1
    requires j in Unpaused(st, rounds[0].now)
    ensures Visited(rounds, j)
  {
    RoundsNeeded(|Unpaused(st, rounds[0].now)|, limit);
    EveryoneIsVisited(st, rounds, limit, j);
  }
}
