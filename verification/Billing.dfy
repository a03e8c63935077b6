/** Billing a finished job: what finalizing does, and the row each caller then writes. */
module Billing {
  import opened Basics
  import opened Ledger
  import opened Metering
  import opened Jobs

  /** 0.00001 USD per second, durations in centiseconds, money in units of 1e-8 USD. */
  const UNITS_PER_CENTISECOND := 10

  function Cost(centiseconds: nat): nat { UNITS_PER_CENTISECOND * centiseconds }

  /** A second is 100 centiseconds and costs 0.00001 USD, that is 1000 units of 1e-8. */
  lemma CostIsPrice(centiseconds: nat)
    ensures Cost(centiseconds) as real * 0.00000001 == centiseconds as real / 100.0 * 0.00001
  {
  }

  /** How often a refund is tried before the marker is left. */
  const REFUND_ATTEMPTS := 3

  /** The event type of the usage row; every backend but vastai is billed as CPU. */
  function KindOf(backend: Option<Backend>): EventKind {
    if backend == Some(Vastai) then GpuExecution else CpuExecution
  }

  lemma KindsOfBackends()
    ensures KindOf(Some(Vastai)) == GpuExecution && KindOf(Some(Local)) == CpuExecution && KindOf(None) == CpuExecution
  {
  }

  /** Everything the protocol keeps in the database. */
  datatype Db = Db(rows: seq<Entry>, books: Books, jobs: Table)

  datatype BillingStatus = BilledOk | NoFundsLeft | KeyMismatch | Skipped | PgFailed | OtherFailed

  /** How the calls made while finalizing one job turn out. */
  datatype FinalizeFaults = FinalizeFaults(read: Fault, txn: Fault, look: Fault, record: Fault)

  function DebitStatus(o: DebitOutcome): BillingStatus {
    match o
    case Debited(_) => BilledOk
    case NoFunds => NoFundsLeft
    case IdemMismatch => KeyMismatch
    case Unavailable => PgFailed
    case Rejected => OtherFailed
  }

  /** `finalize_job_billing`: nothing for a missing, foreign, finished or free job; otherwise
      the debit and, once that is durable, the usage row. */
  function FinalizeSpec(db: Db, tenant: string, job: string, amount: nat, kind: EventKind, f: FinalizeFaults)
    : (Db, BillingStatus)
  {
    if f.read != Fine then (db, OtherFailed)
    else if job !in db.jobs || db.jobs[job].tenant != tenant || Terminal(db.jobs[job].status) then (db, Skipped)
    else if amount == 0 then (db, Skipped)
    else
      var (rows, o) := DebitSpec(db.rows, tenant, job, amount, f.txn, f.look);
      if !o.Debited? then (db.(rows := rows), DebitStatus(o))
      else
        var (books, rec) := RecordSpec(db.books, Usage(tenant, job, kind, amount), f.record);
        (Db(rows, books, db.jobs), if rec.Recorded? then BilledOk else PgFailed)
  }

  // ----- the worker's last write

  function FaultOf(s: BillingStatus): BillingFault {
    match s
    case PgFailed => PgError
    case NoFundsLeft => FundsShort
    case _ => OtherError
  }

  predicate Unsaved(s: BillingStatus) { s == PgFailed || s == OtherFailed || s == NoFundsLeft }

  function WorkerStatus(exec: Status, s: BillingStatus): Status {
    if s == KeyMismatch then (if exec == Timeout || exec == Failed then exec else Error)
    else if Unsaved(s) && (exec == Completed || exec == Timeout || exec == Failed) then BillingPending
    else exec
  }

  function WorkerError(exec: Status, s: BillingStatus): ErrorField {
    if s == BilledOk || s == Skipped then NoError
    else if s == KeyMismatch then BillingMismatch
    else PendingMarker(FaultOf(s), Some(exec))
  }

  function WorkerPatch(exec: Status, s: BillingStatus, elapsed: nat, cost: nat): Patch {
    Patch(Some(WorkerStatus(exec, s)), Some(WorkerError(exec, s)), Some(if s == BilledOk then cost else 0),
          Some(elapsed), None)
  }

  // ----- the sweeper's write

  /** What the billing sweeper writes for a job it fetched with this marker and duration. */
  function SweepPatch(s: BillingStatus, marker: ErrorField, duration: nat): Option<Patch> {
    match s
    case BilledOk =>
      Some(Patch(Some(ExecOr(marker, Completed)), Some(NoError), Some(Cost(duration)), None, None))
    case Skipped => Some(Patch(Some(ExecOr(marker, Completed)), Some(NoError), None, None, None))
    case KeyMismatch => Some(Patch(Some(ExecOr(marker, Error)), Some(BillingMismatch), None, None, None))
    case NoFundsLeft =>
      var again := PendingMarker(FundsShort, ExecOf(marker));
      if marker == again then None else Some(SetError(again))
    case PgFailed => None
    case OtherFailed => None
  }

  /** The no-funds marker is written whatever the status; the others only over a live one. */
  function SweepGuard(s: BillingStatus): set<Status> {
    if s == NoFundsLeft then {} else TERMINAL
  }

  // ----- what holds of every database the protocol reaches

  ghost predicate MoneySound(db: Db) {
    && Sound(db.rows)
    && Backed(db.rows, db.books.usage)
    && TotalsMatch(db.books) && UniqueEvents(db.books.usage)
    && RowsBacked(db)
  }

  /** A cost shown on a job, and an amount promised in a refund marker, were really debited. */
  ghost predicate RowsBacked(db: Db) {
    forall j | j in db.jobs :: RowBacked(db.rows, j, db.jobs[j])
  }

  ghost predicate RowBacked(rows: seq<Entry>, j: string, r: JobRow) {
    && (r.cost != 0 ==> DebitEntry(r.tenant, j, r.cost) in rows)
    && (r.error.RefundPending? ==> DebitEntry(r.tenant, j, r.error.amount) in rows)
  }

  /** Facts about rows survive every growth of the ledger. */
  lemma MoneyGrows(db: Db, rows: seq<Entry>)
    requires MoneySound(db) && Sound(rows) && db.rows <= rows
    ensures MoneySound(db.(rows := rows))
  {
    assert forall e | e in db.rows :: e in rows;
  }

  lemma MoneyRecords(db: Db, u: Usage, f: Fault)
    requires MoneySound(db) && DebitEntry(u.tenant, u.job, u.cost) in db.rows
    ensures MoneySound(db.(books := RecordSpec(db.books, u, f).0))
  {
    RecordKeepsBooks(db.books, u, f);
  }

  /** Every status and every fault: the tables only grow, stay sound, and an "ok" means the
      debit of exactly this amount and its usage row are there. */
  lemma FinalizeKeepsMoney(db: Db, tenant: string, job: string, amount: nat, kind: EventKind, f: FinalizeFaults)
    requires MoneySound(db)
    ensures
      var (after, s) := FinalizeSpec(db, tenant, job, amount, kind, f);
      && MoneySound(after) && after.jobs == db.jobs
      && db.rows <= after.rows
      && (s == BilledOk ==> amount > 0 && DebitEntry(tenant, job, amount) in after.rows
                            && HasEvent(after.books.usage, Usage(tenant, job, kind, amount)))
      && (s == Skipped || s == NoFundsLeft ==> after == db)
      && (s == KeyMismatch ==> MismatchRow(after.rows, tenant, job, amount))
  {
    if f.read != Fine || job !in db.jobs || db.jobs[job].tenant != tenant || Terminal(db.jobs[job].status) || amount == 0 {
      return;
    }
    var (rows, o) := DebitSpec(db.rows, tenant, job, amount, f.txn, f.look);
    DebitOutcomeIsDurable(db.rows, tenant, job, amount, f.txn, f.look);
    MoneyGrows(db, rows);
    if o.Debited? {
      var u := Usage(tenant, job, kind, amount);
      RecordKeepsBooks(db.books, u, f.record);
      MoneyRecords(db.(rows := rows), u, f.record);
    }
  }

  /** A job of the tenant that is not finished, for an amount. */
  predicate Payable(db: Db, tenant: string, job: string, amount: nat) {
    && job in db.jobs && db.jobs[job].tenant == tenant && amount > 0
    && db.jobs[job].status !in {Completed, Timeout, Failed, Cancelled}
  }

  /** For every pattern of faults each status means exactly one thing: what was read, what the debit
      and its re-check saw, and whether the usage was recorded. */
  lemma FinalizeExactly(db: Db, tenant: string, job: string, amount: nat, kind: EventKind, f: FinalizeFaults)
    requires MoneySound(db) && job != ""
    ensures
      var (after, s) := FinalizeSpec(db, tenant, job, amount, kind, f);
      var (e, u) := (DebitEntry(tenant, job, amount), Usage(tenant, job, kind, amount));
      var asked := f.read == Fine && Payable(db, tenant, job, amount);
      var inserted := asked && f.txn != Lost && Free(db.rows, e.id)
                      && SumDebit(db.rows, tenant) + amount <= SumCredit(db.rows, tenant);
      var seen := (f.txn == Fine && inserted) || f.look == Fine;
      var debited := asked && seen && e in after.rows;
      && after.rows == (if inserted then db.rows + [e] else db.rows)
      && after.books.usage == (if debited && f.record != Lost && Inserts(db.books.usage, u) then db.books.usage + [u] else db.books.usage)
      && after.jobs == db.jobs
      && (s == OtherFailed <==> f.read != Fine)
      && (s == Skipped <==> f.read == Fine && !asked)
      && (s == BilledOk <==> debited && f.record == Fine)
      && (s == KeyMismatch <==> asked && f.look == Fine && MismatchRow(db.rows, tenant, job, amount))
      && (s == NoFundsLeft <==> asked && f.txn == Fine && f.look == Fine && !inserted && Unheld(db.rows, tenant, e.id))
      && (s == PgFailed <==> (debited && f.record != Fine)
                             || (asked && !seen)
                             || (asked && f.txn != Fine && f.look == Fine && Unheld(after.rows, tenant, e.id)))
  {
    var e := DebitEntry(tenant, job, amount);
    DebitExactly(db.rows, tenant, job, amount, f.txn, f.look);
    assert e in db.rows + [e];
    if MismatchRow(db.rows, tenant, job, amount) { MismatchExcludes(db.rows, tenant, job, amount); }
  }

  lemma MismatchExcludes(rows: seq<Entry>, tenant: string, job: string, amount: nat)
    requires Sound(rows) && MismatchRow(rows, tenant, job, amount)
    ensures DebitEntry(tenant, job, amount) !in rows && !Unheld(rows, tenant, DebitId(tenant, job))
  {
    var x :| x in rows && x.id == DebitId(tenant, job) && x.tenant == tenant && x != DebitEntry(tenant, job, amount);
    if DebitEntry(tenant, job, amount) in rows { UniqueRow(rows, x, DebitEntry(tenant, job, amount)); }
  }

  lemma BilledStaysPut(db: Db, tenant: string, job: string, amount: nat, other: nat, kind: EventKind, f: FinalizeFaults)
    requires MoneySound(db) && RealJob(job)
    requires DebitEntry(tenant, job, amount) in db.rows && HasEvent(db.books.usage, Usage(tenant, job, kind, amount))
    ensures FinalizeSpec(db, tenant, job, other, kind, f).0 == db
  {
    DebitIsIdempotent(db.rows, tenant, job, amount, other, f.txn, f.look);
  }

  /** Billing a job again under the same event type, by whoever, for whatever amount and after
      whatever failure, neither charges nor meters it a second time. */
  lemma FinalizeIsIdempotent(db: Db, tenant: string, job: string, amount: nat, other: nat, kind: EventKind,
                             first: FinalizeFaults, again: FinalizeFaults)
    requires MoneySound(db) && RealJob(job)
    requires FinalizeSpec(db, tenant, job, amount, kind, first).1 == BilledOk
    ensures
      var after := FinalizeSpec(db, tenant, job, amount, kind, first).0;
      FinalizeSpec(after, tenant, job, other, kind, again).0 == after
  {
    FinalizeKeepsMoney(db, tenant, job, amount, kind, first);
    BilledStaysPut(FinalizeSpec(db, tenant, job, amount, kind, first).0, tenant, job, amount, other, kind, again);
  }

  // ----- the execution status across sweeps

  /** Marker of a parked job whose run ended with this status. */
  ghost predicate Remembers(marker: ErrorField, exec: Status) {
    marker.Billing? && marker == PendingMarker(marker.fault, marker.exec) && ExecOr(marker, Completed) == exec
  }

  /** Exactly the runs that ended in these ways and whose billing is unsaved are parked, at no
      cost, with a marker that remembers how they ended; a billed run shows its cost and status. */
  lemma ParkingRemembers(r: JobRow, exec: Status, s: BillingStatus, elapsed: nat, cost: nat)
    requires ExecStatus(exec)
    ensures
      var r' := WorkerPatch(exec, s, elapsed, cost).On(r);
      && r'.duration == elapsed
      && (r'.status == BillingPending <==> Unsaved(s) && exec in {Completed, Timeout, Failed})
      && (r'.status == BillingPending ==> Remembers(r'.error, exec) && r'.cost == 0)
      && (s == BilledOk ==> r'.status == exec && r'.error == NoError && r'.cost == cost)
      && (s == Skipped ==> r'.status == exec && r'.error == NoError && r'.cost == 0)
      && (s == KeyMismatch ==> r'.status == (if exec in {Timeout, Failed} then exec else Error) && r'.error == BillingMismatch)
  {
  }

  /** Whatever a sweep decides, the job stays parked with its status remembered, or gets exactly
      that status when its billing is settled or has nothing to bill. */
  lemma SweepRemembers(r: JobRow, s: BillingStatus, exec: Status)
    requires r.status == BillingPending && Remembers(r.error, exec)
    ensures
      var p := SweepPatch(s, r.error, r.duration);
      var r' := if p.Some? then p.value.On(r) else r;
      && (r'.status == BillingPending <==> Unsaved(s))
      && (r'.status == BillingPending ==> Remembers(r'.error, exec) && r'.cost == r.cost)
      && (s == BilledOk || s == Skipped ==> r'.status == exec && r'.error == NoError)
      && (s == BilledOk ==> r'.cost == Cost(r.duration))
      && (s == KeyMismatch ==> r'.status == (if exec == Completed then Error else exec) && r'.error == BillingMismatch)
  {
  }
}
