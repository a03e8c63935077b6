/** The worker's refund loop and the two sweepers, as functions of the database, the batch that
    was fetched and what fails on the way. */
module Sweeps {
  import opened Basics
  import opened LedgerKeys
  import opened Ledger
  import opened Jobs
  import opened Billing

  // ----- compensating a job cancelled after its debit

  datatype RefundFaults = RefundFaults(ins: Fault, look: Fault)

  /** Try the refund once per entry, in order, until one attempt reports success. */
  function RefundLoop(rows: seq<Entry>, e: Entry, tries: seq<RefundFaults>): (seq<Entry>, bool)
    decreases |tries|
  {
    if tries == [] then (rows, false)
    else
      var (after, o) := CreditSpec(rows, e, tries[0].ins, tries[0].look);
      if o.Credited? then (after, true) else RefundLoop(after, e, tries[1..])
  }

  /** The loop, and the durable marker when every attempt has failed. */
  function Compensate(db: Db, tenant: string, job: string, cost: nat, tries: seq<RefundFaults>, mark: Fault): Db {
    var (rows, ok) := RefundLoop(db.rows, RefundEntry(tenant, job, cost), tries);
    var jobs := if !ok && mark.Commits() then Update(db.jobs, job, SetError(RefundPending(cost)), tenant, {}).0 else db.jobs;
    Db(rows, db.books, jobs)
  }

  /** Any number of attempts adds the refund at most once; reported success means it is there. */
  lemma {:induction false} RefundLoopAddsOnce(rows: seq<Entry>, tenant: string, job: string, cost: nat, tries: seq<RefundFaults>)
    requires Sound(rows) && DebitEntry(tenant, job, cost) in rows
    ensures
      var (after, ok) := RefundLoop(rows, RefundEntry(tenant, job, cost), tries);
      && Sound(after) && Grows(rows, after, RefundEntry(tenant, job, cost))
      && (ok ==> RefundKeyTaken(after, tenant, job))
    decreases |tries|
  {
    if tries != [] {
      RefundIsDurable(rows, tenant, job, cost, tries[0].ins, tries[0].look);
      var after := CreditSpec(rows, RefundEntry(tenant, job, cost), tries[0].ins, tries[0].look).0;
      RefundLoopAddsOnce(after, tenant, job, cost, tries[1..]);
      if after != rows { AlreadyThere(after, tenant, job, cost, tries[1..]); }
    }
  }

  lemma {:induction false} AlreadyThere(rows: seq<Entry>, tenant: string, job: string, cost: nat, tries: seq<RefundFaults>)
    requires RefundEntry(tenant, job, cost) in rows
    ensures RefundLoop(rows, RefundEntry(tenant, job, cost), tries).0 == rows
    decreases |tries|
  {
    if tries != [] { AlreadyThere(rows, tenant, job, cost, tries[1..]); }
  }

  /** The attempt is told that the refund is in the ledger, given that the ones before were not. */
  ghost predicate Told(rows: seq<Entry>, e: Entry, tries: seq<RefundFaults>, k: nat)
    requires k < |tries|
  {
    && tries[k].ins == Fine
    && ((Free(rows, e.id) && forall i | 0 <= i < k :: tries[i].ins == Lost)
        || (tries[k].look == Fine && (Free(rows, e.id) || exists r | r in rows :: r.id == e.id && r.tenant == e.tenant)))
  }

  ghost predicate AnyTold(rows: seq<Entry>, e: Entry, tries: seq<RefundFaults>) {
    exists k | 0 <= k < |tries| :: Told(rows, e, tries, k)
  }

  ghost predicate AnyCommits(tries: seq<RefundFaults>) {
    exists k | 0 <= k < |tries| :: tries[k].ins != Lost
  }

  /** Exactly what the attempts do, for every pattern of faults: the refund is added when its key was
      free and any of them commits, and the loop succeeds when any of them is told so. */
  lemma {:induction false} RefundLoopExactly(rows: seq<Entry>, tenant: string, job: string, cost: nat, tries: seq<RefundFaults>)
    requires Sound(rows) && DebitEntry(tenant, job, cost) in rows
    ensures
      var e := RefundEntry(tenant, job, cost);
      var (after, ok) := RefundLoop(rows, e, tries);
      && after == (if Free(rows, e.id) && AnyCommits(tries) then rows + [e] else rows)
      && (ok <==> AnyTold(rows, e, tries))
    decreases |tries|
  {
    if tries != [] {
      var (e, f) := (RefundEntry(tenant, job, cost), tries[0]);
      RefundIsDurable(rows, tenant, job, cost, f.ins, f.look);
      CreditExactly(rows, e, f.ins, f.look);
      var after := CreditSpec(rows, e, f.ins, f.look).0;
      if Told(rows, e, tries, 0) {
        assert AnyTold(rows, e, tries) && AnyCommits(tries);
      } else {
        RefundLoopExactly(after, tenant, job, cost, tries[1..]);
        ToldLater(rows, after, e, tries);
        CommitsLater(tries);
      }
    }
  }

  lemma ToldLater(rows: seq<Entry>, after: seq<Entry>, e: Entry, tries: seq<RefundFaults>)
    requires tries != [] && after == if tries[0].ins != Lost && Free(rows, e.id) then rows + [e] else rows
    requires !Told(rows, e, tries, 0)
    ensures AnyTold(rows, e, tries) <==> AnyTold(after, e, tries[1..])
  {
    if after != rows { assert e in rows + [e]; }
    assert forall k | 0 <= k < |tries| - 1 :: Told(after, e, tries[1..], k) <==> Told(rows, e, tries, k + 1);
    if AnyTold(rows, e, tries) {
      var k :| 0 <= k < |tries| && Told(rows, e, tries, k);
      assert Told(after, e, tries[1..], k - 1);
    }
  }

  lemma CommitsLater(tries: seq<RefundFaults>)
    requires tries != []
    ensures AnyCommits(tries) <==> tries[0].ins != Lost || AnyCommits(tries[1..])
  {
    if AnyCommits(tries[1..]) {
      var k :| 0 <= k < |tries| - 1 && tries[1..][k].ins != Lost;
      assert tries[k + 1].ins != Lost;
    }
  }

  /** A compensation leaves the row alone after a success or a marker write that does not reach it, and
      otherwise writes a marker of the cost. */
  lemma CompensateExactly(db: Db, tenant: string, job: string, cost: nat, tries: seq<RefundFaults>, mark: Fault)
    requires Sound(db.rows) && DebitEntry(tenant, job, cost) in db.rows && job in db.jobs && db.jobs[job].tenant == tenant
    ensures
      var after := Compensate(db, tenant, job, cost, tries, mark);
      var e := RefundEntry(tenant, job, cost);
      && after.books == db.books
      && after.rows == RefundLoop(db.rows, e, tries).0
      && after.jobs == (if mark == Lost || AnyTold(db.rows, e, tries) then db.jobs
                        else db.jobs[job := db.jobs[job].(error := RefundPending(cost))])
  {
    RefundLoopExactly(db.rows, tenant, job, cost, tries);
  }

  lemma KeysStayClean(rows: seq<Entry>, after: seq<Entry>, e: Entry)
    requires KeysClean(rows) && Grows(rows, after, e) && !e.meta.Plain?
    ensures KeysClean(after)
  {
  }

  /** Whatever the three attempts do, a cancelled job whose debit is durable ends with its refund
      in the ledger and a net charge of nothing, or, if the marker write is accepted, with a
      marker of exactly the debited amount. */
  lemma CancelledIsCompensated(db: Db, tenant: string, job: string, cost: nat, tries: seq<RefundFaults>, mark: Fault)
    requires MoneySound(db) && KeysClean(db.rows) && DebitEntry(tenant, job, cost) in db.rows
    requires job in db.jobs && db.jobs[job].tenant == tenant && mark.Commits()
    ensures
      var after := Compensate(db, tenant, job, cost, tries, mark);
      && MoneySound(after)
      && ((NetCharge(after.rows, tenant, job) == 0 && RefundEntry(tenant, job, cost) in after.rows)
          || after.jobs[job] == SetError(RefundPending(cost)).On(db.jobs[job]))
      && (forall j | j in db.jobs && j != job :: after.jobs[j] == db.jobs[j])
  {
    var e := RefundEntry(tenant, job, cost);
    var (rows, ok) := RefundLoop(db.rows, e, tries);
    RefundLoopAddsOnce(db.rows, tenant, job, cost, tries);
    MoneyGrows(db, rows);
    assert RowBacked(db.rows, job, db.jobs[job]);
    if ok {
      KeysStayClean(db.rows, rows, e);
      TakenMeansRefunded(rows, tenant, job, cost);
      NetChargeAllOrNothing(rows, tenant, job);
    }
  }

  // ----- the refund sweeper

  datatype Fetched = Fetched(job: string, row: JobRow)

  datatype SweepRefundFaults = SweepRefundFaults(refund: RefundFaults, clear: Fault)

  /** The refund of one fetched job, and whether the sweep goes on: a marker that cannot be read
      is passed over, a refund that fails ends the sweep, one that succeeds clears the marker. */
  function RefundStep(db: Db, b: Fetched, f: SweepRefundFaults): (Db, bool) {
    if !b.row.error.RefundPending? then (db, true)
    else
      var (rows, o) := CreditSpec(db.rows, RefundEntry(b.row.tenant, b.job, b.row.error.amount), f.refund.ins, f.refund.look);
      if !o.Credited? then (db.(rows := rows), false)
      else (Db(rows, db.books, Cleared(db.jobs, b.job, b.row.tenant, f.clear)), true)
  }

  function SweepRefunds(db: Db, batch: seq<Fetched>, env: string -> SweepRefundFaults): Db
    decreases |batch|
  {
    if batch == [] then db
    else
      var (next, more) := RefundStep(db, batch[0], env(batch[0].job));
      if more then SweepRefunds(next, batch[1..], env) else next
  }

  /** A refund sweep goes on exactly when there was no amount to read, or the refund is told to be in
      the ledger; the first refund that is not ends it. */
  lemma RefundGoesOn(db: Db, b: Fetched, f: SweepRefundFaults)
    requires Sound(db.rows)
    ensures
      var e := RefundEntry(b.row.tenant, b.job, if b.row.error.RefundPending? then b.row.error.amount else 0);
      RefundStep(db, b, f).1 <==>
        || !b.row.error.RefundPending?
        || (f.refund.ins == Fine
            && (Free(db.rows, e.id) || (f.refund.look == Fine && exists r | r in db.rows :: r.id == e.id && r.tenant == e.tenant)))
  {
    if b.row.error.RefundPending? {
      CreditExactly(db.rows, RefundEntry(b.row.tenant, b.job, b.row.error.amount), f.refund.ins, f.refund.look);
    }
  }

  lemma {:induction false} RefundStopsThere(db: Db, batch: seq<Fetched>, k: nat, env: string -> SweepRefundFaults)
    requires k < |batch| && !RefundStep(SweepRefunds(db, batch[..k], env), batch[k], env(batch[k].job)).1
    ensures SweepRefunds(db, batch, env) == SweepRefunds(db, batch[..k + 1], env)
    decreases |batch|
  {
    assert batch[..k + 1][0] == batch[0] && batch[..k + 1][1..] == batch[1..][..k];
    var (next, more) := RefundStep(db, batch[0], env(batch[0].job));
    if k == 0 {
      assert batch[..0] == [];
    } else if more {
      assert batch[..k][0] == batch[0] && batch[..k][1..] == batch[1..][..k - 1];
      RefundStopsThere(next, batch[1..], k - 1, env);
    }
  }

  function Cleared(jobs: Table, j: string, tenant: string, f: Fault): Table {
    if f.Commits() then Update(jobs, j, SetError(NoError), tenant, {}).0 else jobs
  }

  ghost predicate DistinctJobs(batch: seq<Fetched>) {
    forall i, k | 0 <= i < k < |batch| :: batch[i].job != batch[k].job
  }

  /** What the query for refunds returns: cancelled jobs that carry a marker. */
  ghost predicate RefundBatch(jobs: Table, batch: seq<Fetched>) {
    && DistinctJobs(batch)
    && (forall b | b in batch :: b.job in jobs && jobs[b.job] == b.row && b.row.status == Cancelled && b.row.error.RefundPending?)
  }

  ghost predicate Refunded(db: Db, j: string, r: JobRow) {
    && r.error.RefundPending? && j in db.jobs
    && db.jobs[j] == SetError(NoError).On(r)
    && RefundEntry(r.tenant, j, r.error.amount) in db.rows
    && NetCharge(db.rows, r.tenant, j) == 0
  }

  ghost predicate Untouched(db: Db, j: string, r: JobRow) { j in db.jobs && db.jobs[j] == r }

  ghost predicate Clean(db: Db) { MoneySound(db) && KeysClean(db.rows) }

  /** How a fetched job can come out of a sweep. */
  ghost predicate Swept(after: Db, b: Fetched) {
    Untouched(after, b.job, b.row) || Refunded(after, b.job, b.row)
  }

  ghost predicate OnlyTouches(db: Db, after: Db, batch: seq<Fetched>) {
    && after.jobs.Keys == db.jobs.Keys
    && (forall j | j in db.jobs && (forall b | b in batch :: b.job != j) :: after.jobs[j] == db.jobs[j])
  }

  /** One refund of the sweep. The money stays sound; a refund that succeeded leaves the job at no
      charge, with the marker cleared if that write was accepted. */
  lemma RefundOne(db: Db, b: Fetched, f: SweepRefundFaults)
    requires Clean(db) && Untouched(db, b.job, b.row) && b.row.error.RefundPending?
    ensures
      var (after, more) := RefundStep(db, b, f);
      && Clean(after) && db.rows <= after.rows && Swept(after, b) && OnlyTouches(db, after, [b])
      && (more && f.clear.Commits() ==> Refunded(after, b.job, b.row))
  {
    var (j, r) := (b.job, b.row);
    var e := RefundEntry(r.tenant, j, r.error.amount);
    assert RowBacked(db.rows, j, r);
    RefundIsDurable(db.rows, r.tenant, j, r.error.amount, f.refund.ins, f.refund.look);
    var (rows, o) := CreditSpec(db.rows, e, f.refund.ins, f.refund.look);
    KeysStayClean(db.rows, rows, e);
    MoneyGrows(db, rows);
    if o.Credited? {
      TakenMeansRefunded(rows, r.tenant, j, r.error.amount);
      NetChargeAllOrNothing(rows, r.tenant, j);
    }
  }

  /** Once refunded, a job stays refunded while the ledger grows. */
  lemma RefundedStays(db: Db, after: Db, j: string, r: JobRow)
    requires Refunded(db, j, r) && MoneySound(after) && db.rows <= after.rows
    requires j in after.jobs && after.jobs[j] == db.jobs[j]
    ensures Refunded(after, j, r)
  {
    NetChargeAllOrNothing(after.rows, r.tenant, j);
  }

  lemma TailBatch(db: Db, batch: seq<Fetched>, next: Db)
    requires RefundBatch(db.jobs, batch) && batch != [] && OnlyTouches(db, next, [batch[0]])
    ensures RefundBatch(next.jobs, batch[1..])
    ensures forall b | b in batch[1..] :: b in batch && b.job != batch[0].job
  {
    assert forall b | b in batch[1..] :: b in batch && b.job != batch[0].job;
    assert forall b | b in [batch[0]] :: b == batch[0];
  }

  /** What is known of the first job and of the rest makes what is known of the batch. */
  lemma JoinBatch(db: Db, next: Db, after: Db, batch: seq<Fetched>)
    requires batch != [] && OnlyTouches(db, next, [batch[0]]) && OnlyTouches(next, after, batch[1..])
    requires forall b | b in batch[1..] :: b.job != batch[0].job
    requires Swept(next, batch[0]) && MoneySound(after) && next.rows <= after.rows
    ensures Swept(after, batch[0]) && OnlyTouches(db, after, batch)
    ensures Refunded(next, batch[0].job, batch[0].row) ==> Refunded(after, batch[0].job, batch[0].row)
    ensures forall b :: b in batch ==> b == batch[0] || b in batch[1..]
  {
    assert batch == [batch[0]] + batch[1..];
    if Refunded(next, batch[0].job, batch[0].row) { RefundedStays(next, after, batch[0].job, batch[0].row); }
    forall j | j in db.jobs && (forall b | b in batch :: b.job != j)
      ensures after.jobs[j] == db.jobs[j]
    {
      assert batch[0] in batch;
      assert forall b | b in batch[1..] :: b in batch;
    }
  }

  /** A refund sweep, under every pattern of failures: nothing outside the batch changes, and each
      job of the batch keeps its marker or is refunded its debit, once, and loses the marker. */
  lemma {:induction false} SweepRefundsSafe(db: Db, batch: seq<Fetched>, env: string -> SweepRefundFaults)
    requires Clean(db) && RefundBatch(db.jobs, batch)
    ensures
      var after := SweepRefunds(db, batch, env);
      && Clean(after) && db.rows <= after.rows && OnlyTouches(db, after, batch)
      && (forall b | b in batch :: Swept(after, b))
    decreases |batch|
  {
    if batch != [] {
      assert batch[0] in batch;
      var (next, more) := RefundStep(db, batch[0], env(batch[0].job));
      RefundOne(db, batch[0], env(batch[0].job));
      TailBatch(db, batch, next);
      if more {
        SweepRefundsSafe(next, batch[1..], env);
        JoinBatch(db, next, SweepRefunds(next, batch[1..], env), batch);
      } else {
        JoinBatch(db, next, next, batch);
        assert forall b | b in batch[1..] :: Untouched(next, b.job, b.row);
      }
    }
  }

  // ----- any number of refund sweeps

  datatype Sweep = Sweep(batch: seq<Fetched>, env: string -> SweepRefundFaults)

  ghost predicate Fetches(db: Db, sweeps: seq<Sweep>)
    decreases |sweeps|
  {
    sweeps == [] || (RefundBatch(db.jobs, sweeps[0].batch)
                     && Fetches(SweepRefunds(db, sweeps[0].batch, sweeps[0].env), sweeps[1..]))
  }

  ghost function AfterSweeps(db: Db, sweeps: seq<Sweep>): Db
    decreases |sweeps|
  {
    if sweeps == [] then db else AfterSweeps(SweepRefunds(db, sweeps[0].batch, sweeps[0].env), sweeps[1..])
  }

  /** Any number of sweeps, failing anywhere: a marker survives unchanged, or its job was refunded
      exactly its debit and the marker is gone for good. */
  lemma {:induction false} MarkerOrOneRefund(db: Db, sweeps: seq<Sweep>, j: string, r: JobRow)
    requires Clean(db) && Fetches(db, sweeps) && r.error.RefundPending?
    requires Untouched(db, j, r) || Refunded(db, j, r)
    ensures
      var after := AfterSweeps(db, sweeps);
      Clean(after) && (Untouched(after, j, r) || Refunded(after, j, r)) && (Refunded(db, j, r) ==> Refunded(after, j, r))
    decreases |sweeps|
  {
    if sweeps != [] {
      var next := SweepRefunds(db, sweeps[0].batch, sweeps[0].env);
      SweepRefundsSafe(db, sweeps[0].batch, sweeps[0].env);
      if b :| b in sweeps[0].batch && b.job == j {
      } else if Refunded(db, j, r) {
        RefundedStays(db, next, j, r);
      }
      MarkerOrOneRefund(next, sweeps[1..], j, r);
    }
  }

  // ----- a sweep nothing goes wrong in

  ghost predicate AllFine(env: string -> SweepRefundFaults) {
    forall j: string :: env(j) == SweepRefundFaults(RefundFaults(Fine, Fine), Fine)
  }

  lemma SeparateIsClean(rows: seq<Entry>)
    requires Separate(rows)
    ensures KeysClean(rows)
  {
  }

  lemma FineRefundSucceeds(db: Db, b: Fetched)
    requires MoneySound(db) && Separate(db.rows) && Unambiguous(b.job) && Untouched(db, b.job, b.row)
    requires b.row.error.RefundPending?
    ensures
      var (next, more) := RefundStep(db, b, SweepRefundFaults(RefundFaults(Fine, Fine), Fine));
      more && Separate(next.rows)
  {
    JobKeyUnshared(db.rows, b.row.tenant, JobRefund, b.job);
  }

  /** With an answering database one sweep settles its whole batch. */
  lemma {:induction false} FineSweepSettles(db: Db, batch: seq<Fetched>, env: string -> SweepRefundFaults)
    requires MoneySound(db) && Separate(db.rows) && RefundBatch(db.jobs, batch) && AllFine(env)
    requires forall b | b in batch :: Unambiguous(b.job)
    ensures forall b | b in batch :: Refunded(SweepRefunds(db, batch, env), b.job, b.row)
    decreases |batch|
  {
    if batch != [] {
      assert batch[0] in batch;
      SeparateIsClean(db.rows);
      FineRefundSucceeds(db, batch[0]);
      RefundOne(db, batch[0], env(batch[0].job));
      var next := RefundStep(db, batch[0], env(batch[0].job)).0;
      TailBatch(db, batch, next);
      FineSweepSettles(next, batch[1..], env);
      SeparateIsClean(next.rows);
      SweepRefundsSafe(next, batch[1..], env);
      JoinBatch(db, next, SweepRefunds(next, batch[1..], env), batch);
    }
  }
}
