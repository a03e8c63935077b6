/** What holds of the job statuses, in runs where no status is overwritten from outside, a job is
    claimed only when no worker is alive on it, and top-ups do not use the keys of jobs. */
module ProtocolStatus {
  import opened Basics
  import opened LedgerKeys
  import opened Ledger
  import opened Metering
  import opened Jobs
  import opened Billing
  import opened Protocol
  import opened ProtocolMoney

  ghost predicate NoWorkerOn(s: State, job: string) {
    forall q | q in s.procs :: !(s.procs[q].Worker() && s.procs[q].job == job)
  }

  ghost predicate PlainKey(key: string) {
    forall k: KeyKind, j: string :: key != IdempotencyKey(k, j)
  }

  /** A debit that commits late was asked for by somebody. */
  predicate Asked(h: Hist, amount: nat) {
    h.Disturbed() || (h.run.Some? && amount == Cost(h.run.value.elapsed))
  }

  ghost predicate Orderly(s: State, ev: Event)
    requires Enabled(s, ev)
  {
    match ev
    case Tamper(j, st) => false
    case Claim(p, j) => NoWorkerOn(s, j)
    case TopUp(t, a, key, nonce) => PlainKey(key)
    case LateDebit(j, a) => Asked(s.hist[j], a)
    case _ => true
  }

  // ----- the ledger keys of jobs hold debits only

  ghost predicate HasDebit(rows: seq<Entry>, tenant: string, job: string) {
    exists a: nat :: DebitEntry(tenant, job, a) in rows
  }

  lemma MismatchIsAnotherDebit(rows: seq<Entry>, tenant: string, job: string, amount: nat)
    requires WellKeyed(rows) && KeysClean(rows) && MismatchRow(rows, tenant, job, amount)
    ensures exists a: nat :: a != amount && DebitEntry(tenant, job, a) in rows
  {
    var e :| e in rows && e.id == DebitId(tenant, job) && e.tenant == tenant && e != DebitEntry(tenant, job, amount);
    RowAtJobKey(rows, e, JobDebit, job);
    assert DebitEntry(tenant, job, e.amount) in rows;
  }

  lemma TopUpKeepsKeys(rows: seq<Entry>, tenant: string, amount: nat, key: string, nonce: nat)
    requires KeysClean(rows) && PlainKey(key)
    ensures KeysClean(InsertIgnore(rows, TopUpEntry(tenant, amount, key, nonce)))
  {
    var e := TopUpEntry(tenant, amount, key, nonce);
    forall k: KeyKind, j: string
      ensures e.id != Hashed(JobPreimage(tenant, k, j))
    {
      if e.id == Hashed(JobPreimage(tenant, k, j)) {
        SameTenantInjective(tenant, key, IdempotencyKey(k, j));
      }
    }
  }

  /** Only a top-up adds a row that is neither a debit nor a refund. */
  lemma PlainRowsStay(s: State, ev: Event, e: Entry)
    requires MoneyInv(s) && Enabled(s, ev) && TouchesLedger(ev) && !ev.TopUp? && e in NextRows(s, ev) && e.meta.Plain?
    ensures e in s.db.rows
  {
    if ev.Debit? {
      DebitOutcomeIsDurable(s.db.rows, TenantOf(s, ev.pid), s.procs[ev.pid].job, s.procs[ev.pid].amount, ev.txn, ev.look);
    }
  }

  lemma KeysStep(s: State, ev: Event)
    requires MoneyInv(s) && KeysClean(s.db.rows) && Enabled(s, ev) && Orderly(s, ev)
    ensures KeysClean(NextRows(s, ev))
  {
    if ev.TopUp? {
      TopUpKeepsKeys(s.db.rows, ev.tenant, ev.amount, ev.key, ev.nonce);
    } else if !TouchesLedger(ev) {
      RowsElsewhere(s, ev);
    } else {
      forall e | e in NextRows(s, ev) && e.meta.Plain?
        ensures e in s.db.rows
      {
        PlainRowsStay(s, ev, e);
      }
    }
  }

  // ----- the invariant, job by job and process by process

  /** Its key holds a debit, or it was once parked with nothing to pay. */
  ghost predicate Settled(rows: seq<Entry>, tenant: string, job: string, h: Hist) {
    HasDebit(rows, tenant, job) || h.zeroParked
  }

  /** The story of a job that was never retried: it is claimed once, runs once, and is then parked
      or marked, never both. */
  ghost predicate OnceJob(r: JobRow, h: Hist) {
    && (r.status == Queued ==> !h.claimed)
    && (h.run.Some? ==> h.claimed)
    && (h.parked || h.marked ==> h.run.Some?)
    && !(h.parked && h.marked)
    && (h.zeroParked ==> h.parked && h.run.Some? && h.run.value.elapsed == 0)
    && (r.status == BillingPending ==>
          h.parked && r.duration == h.run.value.elapsed && Remembers(r.error, h.run.value.exec))
    && (r.error.RefundPending? ==> h.marked)
    && (h.marked ==> Blocked(r.status))
  }

  /** Whatever was debited for the job is the cost of its one run. */
  ghost predicate DebitsFollowRun(rows: seq<Entry>, tenant: string, j: string, h: Hist) {
    forall a: nat | DebitEntry(tenant, j, a) in rows :: h.run.Some? && a == Cost(h.run.value.elapsed)
  }

  ghost predicate OnceProc(r: JobRow, h: Hist, p: Proc) {
    && (!p.ForRoute() ==> h.claimed)
    && (p.Worker() ==> !h.parked && !h.marked)
    && (p.stage.Dispatching? || p.stage.Polling? ==> h.run.None?)
    && (p.ForWorker() ==> h.run == Some(Run(p.stage.caller.elapsed, p.stage.caller.exec))
                          && p.amount == Cost(p.stage.caller.elapsed))
    && (p.ForWorker() && p.stage.Deciding? && p.stage.result == Skipped ==> p.amount == 0 || Blocked(r.status))
    && (p.Compensating() ==> h.run.Some? && p.amount == Cost(h.run.value.elapsed) && Blocked(r.status))
    && (p.ForSweeper() ==> h.parked && h.run.Some? && p.stage.caller.duration == h.run.value.elapsed
                           && Remembers(p.stage.caller.marker, h.run.value.exec))
    && (p.RefundSweeper() ==> h.marked)
  }

  /** Nobody bills another amount than the worker and the sweepers. */
  ghost predicate CalmProc(p: Proc) {
    !p.ForRoute() && (p.stage.Deciding? ==> p.stage.result != KeyMismatch)
  }

  /** Billing markers remember timeout, failed or nothing. */
  ghost predicate Tidy(e: ErrorField) {
    e.Billing? ==> e == PendingMarker(e.fault, e.exec)
  }

  ghost predicate JobOk(rows: seq<Entry>, j: string, r: JobRow, h: Hist) {
    && Tidy(r.error)
    && (r.status == BillingPending && r.duration == 0 ==> h.zeroParked)
    && (!h.retried ==> OnceJob(r, h))
    && (!h.Disturbed() ==> DebitsFollowRun(rows, r.tenant, j, h))
  }

  /** The results with which a sweeper takes a job out of billing_pending. */
  predicate Releases(s: BillingStatus) { s == BilledOk || s == Skipped || s == KeyMismatch }

  ghost predicate ProcOk(rows: seq<Entry>, r: JobRow, h: Hist, p: Proc) {
    && (p.Worker() ==> r.status != BillingPending)
    && (p.ForWorker() ==> ExecStatus(p.stage.caller.exec))
    && (p.stage.Deciding? && p.stage.result == KeyMismatch ==> HasDebit(rows, r.tenant, p.job))
    && (p.ForSweeper() ==>
          && Tidy(p.stage.caller.marker)
          && (r.status == BillingPending || Settled(rows, r.tenant, p.job, h))
          && (p.stage.caller.duration == 0 ==> h.zeroParked)
          && (p.stage.Deciding? && Releases(p.stage.result) ==> Settled(rows, r.tenant, p.job, h)))
    && (!h.retried ==> OnceProc(r, h, p))
    && (!h.Disturbed() ==> CalmProc(p))
  }

  ghost predicate OneWorker(s: State) {
    forall p, q | p in s.procs && q in s.procs && p != q && s.procs[p].Worker() && s.procs[q].Worker() ::
      s.procs[p].job != s.procs[q].job
  }

  /** Nothing was ever debited for a job that was not submitted. */
  ghost predicate DebitsKnown(s: State) {
    forall e | e in s.db.rows && e.meta.ForJob? :: e.meta.job in s.db.jobs
  }

  ghost predicate StatusInv(s: State) {
    && MoneyInv(s)
    && KeysClean(s.db.rows)
    && DebitsKnown(s)
    && OneWorker(s)
    && JobsOk(s)
    && ProcsOk(s)
  }

  ghost predicate JobsOk(s: State) {
    forall j | j in s.db.jobs :: JobFact(s, j)
  }

  ghost predicate ProcsOk(s: State) {
    forall p | p in s.procs :: ActorOk(s, p)
  }

  ghost predicate JobFact(s: State, j: string) {
    j in s.db.jobs && j in s.hist && JobOk(s.db.rows, j, s.db.jobs[j], s.hist[j])
  }

  ghost predicate ActorOk(s: State, p: nat) {
    && p in s.procs && s.procs[p].job in s.db.jobs && s.procs[p].job in s.hist
    && ProcOk(s.db.rows, s.db.jobs[s.procs[p].job], s.hist[s.procs[p].job], s.procs[p])
  }

  /** A process becomes a worker only by claiming. */
  lemma WorkersComeFromClaims(s: State, ev: Event)
    requires Enabled(s, ev) && NextProc(s, ev).Set? && NextProc(s, ev).proc.Worker()
    ensures
      var c := NextProc(s, ev);
      || (ev.Claim? && ev.job == c.proc.job)
      || (c.pid in s.procs && s.procs[c.pid].Worker() && s.procs[c.pid].job == c.proc.job)
  {
  }

  lemma OneWorkerStep(s: State, ev: Event)
    requires StatusInv(s) && Enabled(s, ev) && Orderly(s, ev)
    ensures OneWorker(Apply(s, ev))
  {
    var c := NextProc(s, ev);
    if c.Set? && c.proc.Worker() { WorkersComeFromClaims(s, ev); }
    OneWorkerAssembled(s, NextRows(s, ev), NextBooks(s, ev), NextRow(s, ev), c, NextHist(s, ev));
  }

  lemma OneWorkerAssembled(s: State, rows: seq<Entry>, books: Books, w: Option<Write>, c: ProcChange, h: Option<HistWrite>)
    requires OneWorker(s)
    requires c.Set? && c.proc.Worker() ==>
               || NoWorkerOn(s, c.proc.job)
               || (c.pid in s.procs && s.procs[c.pid].Worker() && s.procs[c.pid].job == c.proc.job)
    ensures OneWorker(Assemble(s, rows, books, w, c, h))
  {
  }

  function RowIn(s: State, w: Option<Write>, j: string): JobRow
    requires j in s.db.jobs || (w.Some? && w.value.job == j)
  {
    if w.Some? && w.value.job == j then w.value.row else s.db.jobs[j]
  }

  function HistIn(s: State, h: Option<HistWrite>, j: string): Hist
    requires j in s.hist || (h.Some? && h.value.job == j)
  {
    if h.Some? && h.value.job == j then h.value.h else s.hist[j]
  }

  function RowAfter(s: State, ev: Event, j: string): JobRow
    requires Enabled(s, ev) && (j in s.db.jobs || (NextRow(s, ev).Some? && NextRow(s, ev).value.job == j))
  {
    RowIn(s, NextRow(s, ev), j)
  }

  function HistAfter(s: State, ev: Event, j: string): Hist
    requires Enabled(s, ev) && (j in s.hist || (NextHist(s, ev).Some? && NextHist(s, ev).value.job == j))
  {
    HistIn(s, NextHist(s, ev), j)
  }

  /** Only a debit step adds a DEBIT, for its own job and amount. */
  lemma NewDebit(s: State, ev: Event, tenant: string, j: string, a: nat)
    requires MoneyInv(s) && Enabled(s, ev) && DebitEntry(tenant, j, a) in NextRows(s, ev)
    ensures DebitEntry(tenant, j, a) in s.db.rows
         || (ev.Debit? && s.procs[ev.pid].job == j && s.procs[ev.pid].amount == a)
         || ev == LateDebit(j, a)
  {
    if ev.Debit? {
      DebitOutcomeIsDurable(s.db.rows, TenantOf(s, ev.pid), s.procs[ev.pid].job, s.procs[ev.pid].amount, ev.txn, ev.look);
    }
  }

  /** A step of the ledger leaves every job in order. */
  lemma JobQuiet(s: State, ev: Event, j: string)
    requires StatusInv(s) && Enabled(s, ev) && Orderly(s, ev) && j in s.db.jobs
    requires NextRow(s, ev).None? && NextHist(s, ev).None?
    ensures JobOk(NextRows(s, ev), j, s.db.jobs[j], s.hist[j])
  {
    var h := s.hist[j];
    assert JobFact(s, j);
    if ev.Debit? { assert ActorOk(s, ev.pid); }
    forall a: nat | !h.Disturbed() && DebitEntry(s.db.jobs[j].tenant, j, a) in NextRows(s, ev)
      ensures h.run.Some? && a == Cost(h.run.value.elapsed)
    {
      NewDebit(s, ev, s.db.jobs[j].tenant, j, a);
    }
  }

  // ----- the job a step writes

  /** What the other processes on a job put up with when its row and history are rewritten.
      `own` says that the writer is the worker of the job. */
  ghost predicate Tolerable(rows: seq<Entry>, j: string, r: JobRow, h: Hist, r': JobRow, h': Hist, own: bool) {
    && r'.tenant == r.tenant
    && (h.zeroParked ==> h'.zeroParked)
    && (r'.status == BillingPending ==> r.status == BillingPending || own)
    && (r.status == BillingPending && r'.status != BillingPending ==> Settled(rows, r.tenant, j, h'))
    && (!h'.retried ==> !h.retried && OnceMove(h, h', own) && (Blocked(r.status) ==> own || Blocked(r'.status)))
    && (h.routed ==> h'.routed)
  }

  ghost predicate OnceMove(h: Hist, h': Hist, own: bool) {
    || h' == h.(routed := h'.routed)
    || !h.claimed
    || (own && h.run.None? && !h.parked && !h.marked && h' == h.(run := h'.run))
    || (own && !h.parked && h' == h.(marked := true))
    || (own && !h.marked && h' == h.(parked := true, zeroParked := h'.zeroParked))
  }

  lemma Bystander(rows: seq<Entry>, j: string, r: JobRow, h: Hist, r': JobRow, h': Hist, own: bool, q: Proc)
    requires ProcOk(rows, r, h, q) && q.job == j && JobOk(rows, j, r, h)
    requires Tolerable(rows, j, r, h, r', h', own) && (own ==> !q.Worker())
    ensures ProcOk(rows, r', h', q)
  {
  }

  predicate Writes(ev: Event) {
    ev.Submit? || ev.Claim? || ev.AckStart? || ev.AckFail? || ev.Retry? || ev.Cancel? || ev.Orphan? || ev.StartComplete?
    || ev.DispatchFail? || ev.DispatchOk? || ev.PollDone? || ev.Drain? || ev.MarkRefund? || ev.WorkerWrite?
    || ev.SweepWrite? || ev.RouteWrite? || ev.ClearMarker?
  }

  predicate OnJob(ev: Event) {
    ev.Submit? || ev.Claim? || ev.AckStart? || ev.AckFail? || ev.Retry? || ev.Cancel? || ev.Orphan? || ev.StartComplete?
  }

  /** The job a writing step is about. */
  function JobOf(s: State, ev: Event): string
    requires Enabled(s, ev) && Writes(ev) && !ev.Tamper?
  {
    if OnJob(ev) then ev.job else s.procs[ev.pid].job
  }

  predicate Own(ev: Event) {
    ev.DispatchFail? || ev.DispatchOk? || ev.PollDone? || ev.Drain? || ev.MarkRefund? || ev.WorkerWrite?
  }

  ghost predicate GoodWrite(s: State, ev: Event, j: string)
    requires Enabled(s, ev) && j in s.db.jobs && j in s.hist
  {
    var (r', h') := (RowAfter(s, ev, j), HistAfter(s, ev, j));
    && JobOk(s.db.rows, j, r', h')
    && Tolerable(s.db.rows, j, s.db.jobs[j], s.hist[j], r', h', Own(ev))
  }

  ghost predicate ActorFact(s: State, p: nat) { ActorOk(s, p) && JobFact(s, s.procs[p].job) }

  ghost predicate MoneyFact(s: State, p: nat) {
    && p in s.procs && s.procs[p].job in s.db.jobs
    && ProcMoney(s.db.rows, s.db.jobs[s.procs[p].job].tenant, s.procs[p])
  }

  lemma AckWrites(s: State, ev: Event)
    requires Enabled(s, ev) && (ev.AckStart? || ev.AckFail?) && JobFact(s, ev.job)
    ensures GoodWrite(s, ev, ev.job)
  {
  }

  lemma ClientWrites(s: State, ev: Event)
    requires Enabled(s, ev) && (ev.Retry? || ev.Cancel?) && JobFact(s, ev.job)
    ensures GoodWrite(s, ev, ev.job)
  {
  }

  lemma OtherClientWrites(s: State, ev: Event)
    requires Enabled(s, ev)
    requires (ev.Claim? || ev.Orphan? || ev.StartComplete?) && JobFact(s, ev.job)
    ensures GoodWrite(s, ev, ev.job)
  {
  }

  lemma DispatchWrites(s: State, ev: Event)
    requires Enabled(s, ev) && (ev.DispatchFail? || ev.DispatchOk? || ev.PollDone?) && ActorFact(s, ev.pid)
    ensures GoodWrite(s, ev, s.procs[ev.pid].job)
  {
  }

  lemma LateWorkerWrites(s: State, ev: Event)
    requires Enabled(s, ev) && (ev.Drain? || ev.MarkRefund?) && ActorFact(s, ev.pid)
    ensures GoodWrite(s, ev, s.procs[ev.pid].job)
  {
    GuardSets(s.db.jobs[s.procs[ev.pid].job].status);
  }

  /** The worker's last write: it parks the job with its status remembered, or ends it. */
  lemma FinalWriteLocal(rows: seq<Entry>, r: JobRow, h: Hist, p: Proc)
    requires JobOk(rows, p.job, r, h) && ProcOk(rows, r, h, p)
    requires p.stage.Deciding? && p.stage.caller.ByWorker? && !Blocked(r.status)
    ensures
      var r' := WorkerPatch(p.stage.caller.exec, p.stage.result, p.stage.caller.elapsed, p.amount).On(r);
      var h' := if r'.status == BillingPending
                then h.(parked := true, zeroParked := h.zeroParked || r'.duration == 0) else h;
      JobOk(rows, p.job, r', h') && Tolerable(rows, p.job, r, h, r', h', true)
  {
    var st := p.stage;
    if WorkerStatus(st.caller.exec, st.result) == BillingPending {
      ParkingRemembers(r, st.caller.exec, st.result, st.caller.elapsed, p.amount);
    }
  }

  lemma FinalWriteGood(s: State, p: nat, f: Fault)
    requires Enabled(s, WorkerWrite(p, f)) && ActorFact(s, p)
    ensures GoodWrite(s, WorkerWrite(p, f), s.procs[p].job)
  {
    var j := s.procs[p].job;
    GuardSets(s.db.jobs[j].status);
    if !Blocked(s.db.jobs[j].status) { FinalWriteLocal(s.db.rows, s.db.jobs[j], s.hist[j], s.procs[p]); }
  }

  /** When a sweeper takes a job out of billing_pending, the job is settled. */
  lemma SweepWriteLocal(rows: seq<Entry>, r: JobRow, h: Hist, p: Proc)
    requires JobOk(rows, p.job, r, h) && ProcOk(rows, r, h, p)
    requires p.stage.Deciding? && p.stage.caller.BySweeper? && r.status !in SweepGuard(p.stage.result)
    ensures
      var patch := SweepPatch(p.stage.result, p.stage.caller.marker, p.stage.caller.duration);
      patch.Some? ==> JobOk(rows, p.job, patch.value.On(r), h)
                      && Tolerable(rows, p.job, r, h, patch.value.On(r), h, false)
  {
  }

  lemma SweepWriteGood(s: State, p: nat, f: Fault)
    requires Enabled(s, SweepWrite(p, f)) && ActorFact(s, p)
    ensures GoodWrite(s, SweepWrite(p, f), s.procs[p].job)
  {
    var j := s.procs[p].job;
    if s.db.jobs[j].status !in SweepGuard(s.procs[p].stage.result) {
      SweepWriteLocal(s.db.rows, s.db.jobs[j], s.hist[j], s.procs[p]);
    }
  }

  lemma RouteAndClearGood(s: State, ev: Event)
    requires Enabled(s, ev) && (ev.RouteWrite? || ev.ClearMarker?) && ActorFact(s, ev.pid)
    requires ProcMoney(s.db.rows, s.db.jobs[s.procs[ev.pid].job].tenant, s.procs[ev.pid])
    ensures GoodWrite(s, ev, s.procs[ev.pid].job)
  {
  }

  lemma SubmitGood(s: State, j: string, tenant: string)
    requires StatusInv(s) && Enabled(s, Submit(j, tenant))
    ensures JobOk(s.db.rows, j, RowAfter(s, Submit(j, tenant), j), HistAfter(s, Submit(j, tenant), j))
  {
    forall a: nat
      ensures DebitEntry(tenant, j, a) !in s.db.rows
    {
      assert DebitEntry(tenant, j, a).meta == ForJob(j);
    }
  }

  ghost predicate WriterFacts(s: State, ev: Event)
    requires Enabled(s, ev) && Writes(ev) && !ev.Tamper?
  {
    && JobFact(s, JobOf(s, ev))
    && (!OnJob(ev) ==> ActorFact(s, ev.pid) && MoneyFact(s, ev.pid))
  }

  lemma WritersKnow(s: State, ev: Event)
    requires StatusInv(s) && Enabled(s, ev) && Writes(ev) && !ev.Submit? && !ev.Tamper?
    ensures WriterFacts(s, ev)
  {
    assert JobFact(s, JobOf(s, ev));
    assert !OnJob(ev) ==> ActorFact(s, ev.pid) && MoneyFact(s, ev.pid);
  }

  lemma WriteGood(s: State, ev: Event)
    requires StatusInv(s) && Enabled(s, ev) && Orderly(s, ev) && Writes(ev) && !ev.Submit?
    ensures JobOf(s, ev) in s.db.jobs && JobOf(s, ev) in s.hist && GoodWrite(s, ev, JobOf(s, ev))
  {
    WritersKnow(s, ev);
    WriteGoodLocal(s, ev);
  }

  lemma WriteGoodLocal(s: State, ev: Event)
    requires Enabled(s, ev) && Orderly(s, ev) && Writes(ev) && !ev.Submit? && WriterFacts(s, ev)
    ensures GoodWrite(s, ev, JobOf(s, ev))
  {
    if ev.AckStart? || ev.AckFail? { AckWrites(s, ev); }
    else if ev.Retry? || ev.Cancel? { ClientWrites(s, ev); }
    else if ev.Claim? || ev.Orphan? || ev.StartComplete? { OtherClientWrites(s, ev); }
    else if ev.DispatchFail? || ev.DispatchOk? || ev.PollDone? { DispatchWrites(s, ev); }
    else if ev.Drain? || ev.MarkRefund? { LateWorkerWrites(s, ev); }
    else if ev.WorkerWrite? { FinalWriteGood(s, ev.pid, ev.f); }
    else if ev.SweepWrite? { SweepWriteGood(s, ev.pid, ev.f); }
    else { RouteAndClearGood(s, ev); }
  }

  // ----- the process a step moves

  ghost predicate StepOk(s: State, ev: Event, q: Proc)
    requires Enabled(s, ev)
  {
    && q.job in s.db.jobs && q.job in s.hist
    && ProcOk(NextRows(s, ev), RowAfter(s, ev, q.job), HistAfter(s, ev, q.job), q)
  }

  ghost predicate Lands(s: State, ev: Event)
    requires Enabled(s, ev)
  {
    NextProc(s, ev).Set? ==> StepOk(s, ev, NextProc(s, ev).proc)
  }

  lemma NewcomerLands(s: State, ev: Event)
    requires Enabled(s, ev) && (ev.Claim? || ev.FetchPending? || ev.FetchRefund? || ev.StartComplete?)
    requires JobFact(s, ev.job)
    ensures Lands(s, ev)
  {
  }

  lemma DispatchLands(s: State, ev: Event)
    requires Enabled(s, ev) && (ev.DispatchOk? || ev.PollDone?) && ActorFact(s, ev.pid)
    ensures Lands(s, ev)
  {
  }

  /** A sweeper is told to skip only a job that is settled already. */
  lemma ReadLands(s: State, p: nat, f: Fault)
    requires Enabled(s, Read(p, f)) && ActorFact(s, p) && MoneyFact(s, p)
    ensures Lands(s, Read(p, f))
  {
  }

  lemma RecordLands(s: State, p: nat, f: Fault)
    requires Enabled(s, Record(p, f)) && ActorFact(s, p) && MoneyFact(s, p)
    ensures Lands(s, Record(p, f))
  {
    var q := s.procs[p];
    assert DebitEntry(s.db.jobs[q.job].tenant, q.job, q.amount) in s.db.rows;
    assert HasDebit(s.db.rows, s.db.jobs[q.job].tenant, q.job);
  }

  lemma AfterwardsLands(s: State, ev: Event)
    requires Enabled(s, ev) && (ev.WorkerWrite? || ev.CheckCancel? || ev.RefundTry? || ev.SweepRefund?)
    requires ActorFact(s, ev.pid)
    ensures Lands(s, ev)
  {
    if ev.WorkerWrite? { GuardSets(s.db.jobs[s.procs[ev.pid].job].status); }
  }

  /** A mismatch means another amount was debited, which cannot happen to a calm job. */
  lemma MismatchNeverCalm(rows: seq<Entry>, after: seq<Entry>, r: JobRow, h: Hist, p: Proc, txn: Fault, look: Fault)
    requires Sound(rows) && KeysClean(rows) && JobOk(rows, p.job, r, h) && ProcOk(rows, r, h, p)
    requires ProcMoney(rows, r.tenant, p) && p.stage.Debiting?
    requires (after, IdemMismatch) == DebitSpec(rows, r.tenant, p.job, p.amount, txn, look)
    ensures h.Disturbed() && HasDebit(after, r.tenant, p.job)
  {
    DebitOutcomeIsDurable(rows, r.tenant, p.job, p.amount, txn, look);
    MismatchIsAnotherDebit(after, r.tenant, p.job, p.amount);
    var a: nat :| a != p.amount && DebitEntry(r.tenant, p.job, a) in after;
    assert DebitEntry(r.tenant, p.job, a) in rows;
  }

  lemma DebitLandsLocal(rows: seq<Entry>, r: JobRow, h: Hist, q: Proc, txn: Fault, look: Fault)
    requires Sound(rows) && KeysClean(rows) && JobOk(rows, q.job, r, h) && ProcOk(rows, r, h, q)
    requires ProcMoney(rows, r.tenant, q) && q.stage.Debiting?
    ensures
      var (after, o) := DebitSpec(rows, r.tenant, q.job, q.amount, txn, look);
      var c := q.stage.caller;
      ProcOk(after, r, h, q.(stage := if o.Debited? then Recording(c) else Deciding(c, DebitStatus(o))))
  {
    var (after, o) := DebitSpec(rows, r.tenant, q.job, q.amount, txn, look);
    DebitOutcomeIsDurable(rows, r.tenant, q.job, q.amount, txn, look);
    if o.IdemMismatch? { MismatchNeverCalm(rows, after, r, h, q, txn, look); }
    if Settled(rows, r.tenant, q.job, h) { SettledStays(rows, after, r.tenant, q.job, h); }
  }

  lemma DebitLands(s: State, p: nat, txn: Fault, look: Fault)
    requires Enabled(s, Debit(p, txn, look)) && ActorFact(s, p) && MoneyFact(s, p)
    requires Sound(s.db.rows) && KeysClean(s.db.rows)
    ensures Lands(s, Debit(p, txn, look))
  {
    DebitLandsLocal(s.db.rows, s.db.jobs[s.procs[p].job], s.hist[s.procs[p].job], s.procs[p], txn, look);
  }

  lemma ActorLands(s: State, ev: Event)
    requires StatusInv(s) && Enabled(s, ev) && Orderly(s, ev)
    ensures Lands(s, ev)
  {
    if NextProc(s, ev).Set? {
      if ev.Claim? || ev.FetchPending? || ev.FetchRefund? || ev.StartComplete? {
        assert JobFact(s, ev.job);
        NewcomerLands(s, ev);
      } else {
        assert ActorFact(s, ev.pid) && MoneyFact(s, ev.pid);
        ActorLandsLocal(s, ev);
      }
    }
  }

  lemma ActorLandsLocal(s: State, ev: Event)
    requires Enabled(s, ev) && NextProc(s, ev).Set? && Sound(s.db.rows) && KeysClean(s.db.rows)
    requires !ev.Claim? && !ev.FetchPending? && !ev.FetchRefund? && !ev.StartComplete?
    requires ActorFact(s, ev.pid) && MoneyFact(s, ev.pid)
    ensures Lands(s, ev)
  {
    if ev.DispatchOk? || ev.PollDone? { DispatchLands(s, ev); }
    else if ev.Read? { ReadLands(s, ev.pid, ev.f); }
    else if ev.Debit? { DebitLands(s, ev.pid, ev.txn, ev.look); }
    else if ev.Record? { RecordLands(s, ev.pid, ev.f); }
    else { AfterwardsLands(s, ev); }
  }

  lemma SettledStays(rows: seq<Entry>, after: seq<Entry>, tenant: string, job: string, h: Hist)
    requires rows <= after && Settled(rows, tenant, job, h)
    ensures Settled(after, tenant, job, h)
  {
    if HasDebit(rows, tenant, job) {
      var a: nat :| DebitEntry(tenant, job, a) in rows;
      assert DebitEntry(tenant, job, a) in after;
    }
  }

  // ----- the whole step

  lemma ProcGrows(rows: seq<Entry>, after: seq<Entry>, r: JobRow, h: Hist, p: Proc)
    requires rows <= after && ProcOk(rows, r, h, p)
    ensures ProcOk(after, r, h, p)
  {
    if Settled(rows, r.tenant, p.job, h) { SettledStays(rows, after, r.tenant, p.job, h); }
    if HasDebit(rows, r.tenant, p.job) { DebitStays(rows, after, r.tenant, p.job); }
  }

  lemma DebitStays(rows: seq<Entry>, after: seq<Entry>, tenant: string, job: string)
    requires rows <= after && HasDebit(rows, tenant, job)
    ensures HasDebit(after, tenant, job)
  {
    var a: nat :| DebitEntry(tenant, job, a) in rows;
    assert DebitEntry(tenant, job, a) in after;
  }

  /** A process that does not act finds its job still in order. */
  lemma BystanderOk(s: State, ev: Event, q: nat)
    requires StatusInv(s) && Enabled(s, ev) && Orderly(s, ev) && q in s.procs
    requires NextProc(s, ev) == Keep || NextProc(s, ev).pid != q
    ensures StepOk(s, ev, s.procs[q])
  {
    if Writes(ev) && !ev.Submit? && JobOf(s, ev) == s.procs[q].job {
      BystanderWritten(s, ev, q);
    } else {
      RowsGrow(s, ev);
      assert ActorFact(s, q);
      BystanderElsewhere(s, ev, q);
    }
  }

  lemma BystanderWritten(s: State, ev: Event, q: nat)
    requires StatusInv(s) && Enabled(s, ev) && Orderly(s, ev) && q in s.procs
    requires NextProc(s, ev) == Keep || NextProc(s, ev).pid != q
    requires Writes(ev) && !ev.Submit? && JobOf(s, ev) == s.procs[q].job
    ensures StepOk(s, ev, s.procs[q])
  {
    assert ActorFact(s, q);
    WriteGood(s, ev);
    BystanderOfWrite(s, ev, q);
  }

  lemma BystanderElsewhere(s: State, ev: Event, q: nat)
    requires Enabled(s, ev) && !ev.Tamper? && ActorFact(s, q) && s.db.rows <= NextRows(s, ev)
    requires Writes(ev) && !ev.Submit? ==> JobOf(s, ev) != s.procs[q].job
    ensures StepOk(s, ev, s.procs[q])
  {
    var (j, rows) := (s.procs[q].job, NextRows(s, ev));
    ElsewhereSame(s, ev, j);
    ProcGrows(s.db.rows, rows, s.db.jobs[j], s.hist[j], s.procs[q]);
  }

  lemma ElsewhereSame(s: State, ev: Event, j: string)
    requires Enabled(s, ev) && !ev.Tamper? && j in s.db.jobs && j in s.hist
    requires Writes(ev) && !ev.Submit? ==> JobOf(s, ev) != j
    ensures RowAfter(s, ev, j) == s.db.jobs[j] && HistAfter(s, ev, j) == s.hist[j]
  {
  }

  lemma BystanderOfWrite(s: State, ev: Event, q: nat)
    requires Enabled(s, ev) && !ev.Tamper? && Writes(ev) && !ev.Submit? && OneWorker(s)
    requires ActorFact(s, q) && JobOf(s, ev) == s.procs[q].job && GoodWrite(s, ev, s.procs[q].job)
    requires NextProc(s, ev) == Keep || NextProc(s, ev).pid != q
    requires Own(ev) ==> s.procs[ev.pid].Worker()
    ensures StepOk(s, ev, s.procs[q])
  {
    if Own(ev) && q == ev.pid { DispatchStays(s, ev); } else { OtherThanWriter(s, ev, q); }
  }

  lemma OtherThanWriter(s: State, ev: Event, q: nat)
    requires Enabled(s, ev) && !ev.Tamper? && Writes(ev) && !ev.Submit? && OneWorker(s)
    requires ActorFact(s, q) && JobOf(s, ev) == s.procs[q].job && GoodWrite(s, ev, s.procs[q].job)
    requires Own(ev) ==> s.procs[ev.pid].Worker() && q != ev.pid
    ensures StepOk(s, ev, s.procs[q])
  {
    var j := s.procs[q].job;
    WritesLeaveLedger(s, ev);
    Bystander(s.db.rows, j, s.db.jobs[j], s.hist[j], RowAfter(s, ev, j), HistAfter(s, ev, j), Own(ev), s.procs[q]);
  }

  /** The one write after which its worker stays where it was: a dispatch update that raised. */
  lemma DispatchStays(s: State, ev: Event)
    requires Enabled(s, ev) && Own(ev) && NextProc(s, ev) == Keep && ActorFact(s, ev.pid)
    ensures StepOk(s, ev, s.procs[ev.pid])
  {
  }

  lemma JobElsewhere(s: State, ev: Event, j: string)
    requires Enabled(s, ev) && JobFact(s, j) && Writes(ev) && JobOf(s, ev) != j
    ensures JobOk(NextRows(s, ev), j, RowAfter(s, ev, j), HistAfter(s, ev, j))
  {
    ElsewhereSame(s, ev, j);
    WritesLeaveLedger(s, ev);
  }

  lemma WritesLeaveLedger(s: State, ev: Event)
    requires Enabled(s, ev) && Writes(ev)
    ensures NextRows(s, ev) == s.db.rows
  {
  }

  lemma QuietSteps(s: State, ev: Event)
    requires Enabled(s, ev) && !Writes(ev) && !ev.Tamper?
    ensures NextRow(s, ev).None? && NextHist(s, ev).None?
  {
  }

  lemma JobStep(s: State, ev: Event, j: string)
    requires StatusInv(s) && Enabled(s, ev) && Orderly(s, ev) && j in s.db.jobs
    ensures JobOk(NextRows(s, ev), j, RowAfter(s, ev, j), HistAfter(s, ev, j))
  {
    if !Writes(ev) {
      QuietSteps(s, ev);
      JobQuiet(s, ev, j);
    } else if j != JobOf(s, ev) {
      assert JobFact(s, j);
      JobElsewhere(s, ev, j);
    } else {
      WriteGood(s, ev);
      WritesLeaveLedger(s, ev);
    }
  }

  lemma KnownStep(s: State, ev: Event)
    requires StatusInv(s) && Enabled(s, ev)
    ensures forall e | e in NextRows(s, ev) && e.meta.ForJob? :: e.meta.job in s.db.jobs
  {
    forall e | e in NextRows(s, ev) && e.meta.ForJob?
      ensures e.meta.job in s.db.jobs
    {
      RowsGrow(s, ev);
      assert KeyedRow(e);
      NewDebit(s, ev, e.tenant, e.meta.job, e.amount);
    }
  }

  ghost predicate JobPart(s: State, rows: seq<Entry>, w: Option<Write>, h: Option<HistWrite>, j: string) {
    && (j in s.db.jobs || (w.Some? && w.value.job == j))
    && (j in s.hist || (h.Some? && h.value.job == j))
    && JobOk(rows, j, RowIn(s, w, j), HistIn(s, h, j))
  }

  ghost predicate ProcPart(s: State, rows: seq<Entry>, w: Option<Write>, h: Option<HistWrite>, q: Proc) {
    && q.job in s.db.jobs && q.job in s.hist
    && ProcOk(rows, RowIn(s, w, q.job), HistIn(s, h, q.job), q)
  }

  /** Parts that are in order job by job and process by process make a state in order. */
  lemma AssembleJobs(s: State, rows: seq<Entry>, books: Books, w: Option<Write>, c: ProcChange, h: Option<HistWrite>)
    requires forall j | j in s.db.jobs || (w.Some? && w.value.job == j) :: JobPart(s, rows, w, h, j)
    ensures JobsOk(Assemble(s, rows, books, w, c, h))
  {
    var s' := Assemble(s, rows, books, w, c, h);
    forall j | j in s'.db.jobs
      ensures JobFact(s', j)
    {
      assert JobPart(s, rows, w, h, j);
    }
  }

  lemma AssembleActors(s: State, rows: seq<Entry>, books: Books, w: Option<Write>, c: ProcChange, h: Option<HistWrite>)
    requires c.Set? ==> ProcPart(s, rows, w, h, c.proc)
    requires forall q | q in s.procs && (c == Keep || c.pid != q) :: ProcPart(s, rows, w, h, s.procs[q])
    ensures ProcsOk(Assemble(s, rows, books, w, c, h))
  {
    var s' := Assemble(s, rows, books, w, c, h);
    forall p | p in s'.procs
      ensures ActorOk(s', p)
    {
      assert ProcPart(s, rows, w, h, s'.procs[p]);
    }
  }

  lemma JobParts(s: State, ev: Event, j: string)
    requires StatusInv(s) && Enabled(s, ev) && Orderly(s, ev)
    requires j in s.db.jobs || (NextRow(s, ev).Some? && NextRow(s, ev).value.job == j)
    ensures JobPart(s, NextRows(s, ev), NextRow(s, ev), NextHist(s, ev), j)
  {
    RowWritten(s, ev);
    if j in s.db.jobs { JobStep(s, ev, j); } else { SubmitGood(s, j, ev.tenant); }
  }

  lemma JobsStep(s: State, ev: Event)
    requires StatusInv(s) && Enabled(s, ev) && Orderly(s, ev)
    ensures JobsOk(Apply(s, ev))
  {
    var (rows, w, h) := (NextRows(s, ev), NextRow(s, ev), NextHist(s, ev));
    forall j | j in s.db.jobs || (w.Some? && w.value.job == j)
      ensures JobPart(s, rows, w, h, j)
    {
      JobParts(s, ev, j);
    }
    AssembleJobs(s, rows, NextBooks(s, ev), w, NextProc(s, ev), h);
  }

  lemma ProcsStep(s: State, ev: Event)
    requires StatusInv(s) && Enabled(s, ev) && Orderly(s, ev)
    ensures ProcsOk(Apply(s, ev))
  {
    var (rows, w, c, h) := (NextRows(s, ev), NextRow(s, ev), NextProc(s, ev), NextHist(s, ev));
    ActorLands(s, ev);
    forall q | q in s.procs && (c == Keep || c.pid != q)
      ensures ProcPart(s, rows, w, h, s.procs[q])
    {
      BystanderOk(s, ev, q);
    }
    AssembleActors(s, rows, NextBooks(s, ev), w, c, h);
  }

  lemma StatusStep(s: State, ev: Event)
    requires StatusInv(s) && Enabled(s, ev) && Orderly(s, ev)
    ensures StatusInv(Apply(s, ev))
  {
    MoneyStep(s, ev);
    KeysStep(s, ev);
    OneWorkerStep(s, ev);
    KnownStep(s, ev);
    JobsStep(s, ev);
    ProcsStep(s, ev);
  }

  // ----- orderly runs

  ghost predicate Tame(evs: seq<Event>)
    decreases |evs|
  {
    Valid(evs) && (evs == [] || (Tame(evs[..|evs| - 1]) && Orderly(After(evs[..|evs| - 1]), evs[|evs| - 1])))
  }

  lemma {:induction false} StatusAlways(evs: seq<Event>)
    requires Tame(evs)
    ensures StatusInv(After(evs))
    decreases |evs|
  {
    if evs != [] {
      StatusAlways(evs[..|evs| - 1]);
      StatusStep(After(evs[..|evs| - 1]), evs[|evs| - 1]);
    }
  }

  function Before(evs: seq<Event>): State
    requires Valid(evs) && evs != []
  {
    After(evs[..|evs| - 1])
  }

  lemma WrittenJob(s: State, ev: Event, j: string)
    requires Enabled(s, ev) && !ev.Tamper? && j in s.db.jobs && j in s.hist
    requires RowAfter(s, ev, j) != s.db.jobs[j] || HistAfter(s, ev, j) != s.hist[j]
    ensures Writes(ev) && JobOf(s, ev) == j
  {
  }

  lemma JobFactOf(evs: seq<Event>, j: string)
    requires Tame(evs) && j in After(evs).db.jobs
    ensures JobFact(After(evs), j)
  {
    StatusAlways(evs);
  }

  lemma ActorFactOf(evs: seq<Event>, p: nat)
    requires Tame(evs) && p in After(evs).procs
    ensures ActorFact(After(evs), p)
  {
    StatusAlways(evs);
  }

  lemma RowOfApply(s: State, ev: Event, j: string)
    requires Enabled(s, ev) && j in s.db.jobs
    ensures j in Apply(s, ev).db.jobs && Apply(s, ev).db.jobs[j] == RowAfter(s, ev, j)
  {
  }

  lemma HistOfApply(s: State, ev: Event, j: string)
    requires Enabled(s, ev) && j in s.hist
    ensures j in Apply(s, ev).hist && Apply(s, ev).hist[j] == HistAfter(s, ev, j)
  {
  }

  lemma LastFacts(evs: seq<Event>, j: string)
    requires Tame(evs) && evs != [] && j in Before(evs).db.jobs
    ensures var (s, ev) := (Before(evs), evs[|evs| - 1]);
            && Enabled(s, ev) && !ev.Tamper? && JobFact(s, j)
            && (Writes(ev) && !OnJob(ev) && !ev.Submit? ==> ActorFact(s, ev.pid))
  {
    var ev := evs[|evs| - 1];
    JobFactOf(evs[..|evs| - 1], j);
    if Writes(ev) && !OnJob(ev) && !ev.Submit? { ActorFactOf(evs[..|evs| - 1], ev.pid); }
  }

  /** The last step of an orderly run, seen from one job. */
  lemma LastStep(evs: seq<Event>, j: string)
    requires Tame(evs) && evs != [] && j in Before(evs).db.jobs
    ensures var (s, ev) := (Before(evs), evs[|evs| - 1]);
            && Enabled(s, ev) && !ev.Tamper? && JobFact(s, j)
            && (Writes(ev) && !OnJob(ev) && !ev.Submit? ==> ActorFact(s, ev.pid))
            && j in After(evs).db.jobs && After(evs).db.jobs[j] == RowAfter(s, ev, j)
  {
    LastFacts(evs, j);
    RowOfApply(Before(evs), evs[|evs| - 1], j);
  }

  /** No free exit from billing_pending, whatever sweepers, routes and crashes do: a job that
      leaves it has a DEBIT under its key, or nothing to pay for what its row says it ran, unless it
      was retried after having been parked with nothing to pay. */
  lemma NoFreeExit(evs: seq<Event>, j: string)
    requires Tame(evs) && evs != [] && j in Before(evs).db.jobs
    requires Before(evs).db.jobs[j].status == BillingPending
    requires After(evs).db.jobs[j].status != BillingPending
    ensures
      var (s, s') := (Before(evs), After(evs));
      && j in s'.hist
      && (|| HasDebit(s'.db.rows, s'.db.jobs[j].tenant, j)
          || Cost(s.db.jobs[j].duration) == 0
          || (s'.hist[j].retried && s'.hist[j].zeroParked))
  {
    ExitIsSettled(evs, j);
    JobFactOf(evs[..|evs| - 1], j);
    ExitKeepsHistory(evs, j);
  }

  lemma ExitIsSettled(evs: seq<Event>, j: string)
    requires Tame(evs) && evs != [] && j in Before(evs).db.jobs
    requires Before(evs).db.jobs[j].status == BillingPending
    requires After(evs).db.jobs[j].status != BillingPending
    ensures j in After(evs).hist && Settled(After(evs).db.rows, After(evs).db.jobs[j].tenant, j, After(evs).hist[j])
  {
    var (s, ev) := (Before(evs), evs[|evs| - 1]);
    LastStep(evs, j);
    WrittenJob(s, ev, j);
    WriteGoodOf(evs);
    WritesLeaveLedger(s, ev);
  }

  lemma WriteGoodOf(evs: seq<Event>)
    requires Tame(evs) && evs != [] && Writes(evs[|evs| - 1]) && !evs[|evs| - 1].Submit?
    ensures var (s, ev) := (Before(evs), evs[|evs| - 1]);
            Enabled(s, ev) && JobOf(s, ev) in s.db.jobs && JobOf(s, ev) in s.hist && GoodWrite(s, ev, JobOf(s, ev))
  {
    StatusAlways(evs[..|evs| - 1]);
    WriteGood(Before(evs), evs[|evs| - 1]);
  }

  lemma LeavingKeepsFlags(s: State, ev: Event, j: string)
    requires Enabled(s, ev) && j in s.db.jobs && j in s.hist
    requires s.db.jobs[j].status == BillingPending && RowAfter(s, ev, j).status != BillingPending
    ensures HistAfter(s, ev, j).zeroParked ==> s.hist[j].zeroParked
    ensures HistAfter(s, ev, j).retried == s.hist[j].retried
  {
  }

  lemma ExitKeepsHistory(evs: seq<Event>, j: string)
    requires Valid(evs) && evs != [] && j in Before(evs).db.jobs && j in Before(evs).hist
    requires Before(evs).db.jobs[j].status == BillingPending
    requires j in After(evs).db.jobs && After(evs).db.jobs[j].status != BillingPending
    ensures j in After(evs).hist
    ensures After(evs).hist[j].zeroParked ==> Before(evs).hist[j].zeroParked
    ensures After(evs).hist[j].retried == Before(evs).hist[j].retried
  {
    var (s, ev) := (Before(evs), evs[|evs| - 1]);
    RowOfApply(s, ev, j);
    HistOfApply(s, ev, j);
    LeavingKeepsFlags(s, ev, j);
  }

  lemma ParksFromLive(s: State, ev: Event)
    requires Enabled(s, ev) && !ev.Tamper? && Writes(ev) && !ev.Submit? && JobFact(s, JobOf(s, ev))
    requires !OnJob(ev) ==> ActorFact(s, ev.pid)
    requires s.db.jobs[JobOf(s, ev)].status != BillingPending
    requires RowAfter(s, ev, JobOf(s, ev)).status == BillingPending
    ensures ev.WorkerWrite? && !Blocked(s.db.jobs[JobOf(s, ev)].status)
  {
    if ev.WorkerWrite? { GuardSets(s.db.jobs[JobOf(s, ev)].status); }
  }

  /** Only a queued or running job is ever parked, so a cancelled one never reaches the sweeper. */
  lemma ParkedOnlyWhenLive(evs: seq<Event>, j: string)
    requires Tame(evs) && evs != [] && j in Before(evs).db.jobs
    requires Before(evs).db.jobs[j].status != BillingPending
    requires After(evs).db.jobs[j].status == BillingPending
    ensures !Blocked(Before(evs).db.jobs[j].status) && evs[|evs| - 1].WorkerWrite?
  {
    var (s, ev) := (Before(evs), evs[|evs| - 1]);
    LastStep(evs, j);
    WrittenJob(s, ev, j);
    ParksFromLive(s, ev);
  }

  /** Before the refund sweeper clears a marker, the refund of exactly the debit is in the ledger,
      and the job costs its tenant nothing. */
  lemma ClearedOnlyWhenRefunded(evs: seq<Event>, p: nat)
    requires Tame(evs) && p in After(evs).procs && After(evs).procs[p].stage.Clearing?
    ensures
      var (s, q) := (After(evs), After(evs).procs[p]);
      && q.job in s.db.jobs
      && RefundEntry(s.db.jobs[q.job].tenant, q.job, q.amount) in s.db.rows
      && NetCharge(s.db.rows, s.db.jobs[q.job].tenant, q.job) == 0
  {
    var (s, q) := (After(evs), After(evs).procs[p]);
    StatusAlways(evs);
    assert MoneyFact(s, p);
    TakenMeansRefunded(s.db.rows, s.db.jobs[q.job].tenant, q.job, q.amount);
    NetChargeAllOrNothing(s.db.rows, s.db.jobs[q.job].tenant, q.job);
  }

  /** Amounts are stable: until a job is retried, its worker, its sweepers and its refund all ask
      for the cost of its one run; and until a route has started to complete it as well, that is
      all that was ever debited and nobody is told of a mismatch. */
  lemma AmountStable(evs: seq<Event>, p: nat)
    requires Tame(evs) && p in After(evs).procs
    ensures
      var s := After(evs);
      var q := s.procs[p];
      && q.job in s.db.jobs && q.job in s.hist
      && (!s.hist[q.job].retried && (q.ForWorker() || q.ForSweeper() || q.Compensating()) ==>
            s.hist[q.job].run.Some? && q.amount == Cost(s.hist[q.job].run.value.elapsed))
      && (!s.hist[q.job].Disturbed() ==>
            && (forall a: nat | DebitEntry(s.db.jobs[q.job].tenant, q.job, a) in s.db.rows ::
                  s.hist[q.job].run.Some? && a == Cost(s.hist[q.job].run.value.elapsed))
            && (q.stage.Deciding? ==> q.stage.result != KeyMismatch))
  {
    ActorFactOf(evs, p);
    if After(evs).procs[p].ForSweeper() { SweeperAmount(evs, p); }
  }

  lemma SweeperAmount(evs: seq<Event>, p: nat)
    requires Valid(evs) && p in After(evs).procs && After(evs).procs[p].ForSweeper()
    ensures After(evs).procs[p].amount == Cost(After(evs).procs[p].stage.caller.duration)
  {
    MoneyAlways(evs);
  }

  /** What ends the wait of a job that was not retried: a sweep, with the status the run ended
      with, or "error" for a completed run billed for another amount; or a route. */
  ghost predicate EndsAsItRan(s: State, ev: Event, j: string, now: Status)
    requires j in s.hist && s.hist[j].run.Some?
  {
    var exec := s.hist[j].run.value.exec;
    || (ev.SweepWrite? && now == exec)
    || (ev.SweepWrite? && s.hist[j].routed && exec == Completed && now == Error)
    || (ev.RouteWrite? && s.hist[j].routed && now == Completed)
  }

  lemma SweepWritesExec(s: State, p: nat, f: Fault)
    requires Enabled(s, SweepWrite(p, f)) && ActorFact(s, p) && !s.hist[s.procs[p].job].retried
    requires s.db.jobs[s.procs[p].job].status == BillingPending
    requires RowAfter(s, SweepWrite(p, f), s.procs[p].job).status != BillingPending
    ensures EndsAsItRan(s, SweepWrite(p, f), s.procs[p].job, RowAfter(s, SweepWrite(p, f), s.procs[p].job).status)
  {
  }

  lemma RouteWritesCompleted(s: State, p: nat, f: Fault)
    requires Enabled(s, RouteWrite(p, f)) && ActorFact(s, p) && !s.hist[s.procs[p].job].retried
    requires s.db.jobs[s.procs[p].job].status == BillingPending
    requires RowAfter(s, RouteWrite(p, f), s.procs[p].job).status != BillingPending
    ensures EndsAsItRan(s, RouteWrite(p, f), s.procs[p].job, RowAfter(s, RouteWrite(p, f), s.procs[p].job).status)
  {
  }

  /** A parked job is taken out by a sweep or a route, and by nothing else. */
  lemma OnlySweepsRelease(s: State, ev: Event)
    requires Enabled(s, ev) && !ev.Tamper? && Writes(ev) && !ev.Submit? && JobFact(s, JobOf(s, ev))
    requires !OnJob(ev) ==> ActorFact(s, ev.pid)
    requires !s.hist[JobOf(s, ev)].retried && s.db.jobs[JobOf(s, ev)].status == BillingPending
    requires RowAfter(s, ev, JobOf(s, ev)).status != BillingPending
    ensures ev.SweepWrite? || ev.RouteWrite?
  {
    GuardSets(BillingPending);
  }

  lemma ReleasedAsItRan(s: State, ev: Event, j: string)
    requires Enabled(s, ev) && !ev.Tamper? && JobFact(s, j) && (Writes(ev) && !OnJob(ev) && !ev.Submit? ==> ActorFact(s, ev.pid))
    requires !s.hist[j].retried && s.db.jobs[j].status == BillingPending
    requires RowAfter(s, ev, j).status != BillingPending
    ensures EndsAsItRan(s, ev, j, RowAfter(s, ev, j).status)
  {
    WrittenJob(s, ev, j);
    OnlySweepsRelease(s, ev);
    if ev.SweepWrite? { SweepWritesExec(s, ev.pid, ev.f); } else { RouteWritesCompleted(s, ev.pid, ev.f); }
  }

  lemma LeavesAsItRan(evs: seq<Event>, j: string)
    requires Tame(evs) && evs != [] && j in Before(evs).db.jobs && j in Before(evs).hist
    requires !Before(evs).hist[j].retried && Before(evs).db.jobs[j].status == BillingPending
    requires After(evs).db.jobs[j].status != BillingPending
    ensures Before(evs).hist[j].run.Some?
    ensures EndsAsItRan(Before(evs), evs[|evs| - 1], j, After(evs).db.jobs[j].status)
  {
    LastStep(evs, j);
    ReleasedAsItRan(Before(evs), evs[|evs| - 1], j);
  }

  /** The execution status survives billing retries: until a job is retried, its marker gives back
      the status its run ended with and its row the length of that run; the write that ends the
      wait is a sweep's with exactly that status, unless a route has billed the job meanwhile. */
  lemma ExecStatusSurvives(evs: seq<Event>, j: string)
    requires Tame(evs) && j in After(evs).db.jobs && j in After(evs).hist
    requires !After(evs).hist[j].retried && After(evs).db.jobs[j].status == BillingPending
    ensures
      var s := After(evs);
      && s.hist[j].run.Some?
      && ExecOr(s.db.jobs[j].error, Completed) == s.hist[j].run.value.exec
      && s.db.jobs[j].duration == s.hist[j].run.value.elapsed
    ensures forall ev | Tame(evs + [ev]) && After(evs + [ev]).db.jobs[j].status != BillingPending ::
              EndsAsItRan(After(evs), ev, j, After(evs + [ev]).db.jobs[j].status)
  {
    JobFactOf(evs, j);
    forall ev | Tame(evs + [ev]) && After(evs + [ev]).db.jobs[j].status != BillingPending
      ensures EndsAsItRan(After(evs), ev, j, After(evs + [ev]).db.jobs[j].status)
    {
      assert (evs + [ev])[..|evs|] == evs;
      LeavesAsItRan(evs + [ev], j);
    }
  }

  // ----- what the history flags stand for

  predicate ParkedForNothing(evs: seq<Event>, j: string) {
    && Valid(evs) && j in After(evs).db.jobs
    && After(evs).db.jobs[j].status == BillingPending && After(evs).db.jobs[j].duration == 0
  }

  lemma ZeroParkedNow(s: State, ev: Event, j: string)
    requires Enabled(s, ev) && s.hist.Keys == s.db.jobs.Keys
    requires j in Apply(s, ev).hist && Apply(s, ev).hist[j].zeroParked && (j in s.hist ==> !s.hist[j].zeroParked)
    ensures var s' := Apply(s, ev);
            j in s'.db.jobs && s'.db.jobs[j].status == BillingPending && s'.db.jobs[j].duration == 0
  {
  }

  /** `zeroParked` is set only while the job is parked with a zero duration. */
  lemma {:induction false} ZeroParkedMeans(evs: seq<Event>, j: string)
    requires Valid(evs) && j in After(evs).hist && After(evs).hist[j].zeroParked
    ensures exists n: nat | n <= |evs| :: ParkedForNothing(evs[..n], j)
    decreases |evs|
  {
    if evs != [] {
      var front := evs[..|evs| - 1];
      HistoryOfJobs(front);
      if j in After(front).hist && After(front).hist[j].zeroParked {
        ZeroParkedMeans(front, j);
        var n: nat :| n <= |front| && ParkedForNothing(front[..n], j);
        assert evs[..n] == front[..n];
      } else {
        ZeroParkedNow(After(front), evs[|evs| - 1], j);
        assert evs[..|evs|] == evs;
        assert ParkedForNothing(evs[..|evs|], j);
      }
    }
  }

  lemma HistoryOfJobs(evs: seq<Event>)
    requires Valid(evs)
    ensures After(evs).hist.Keys == After(evs).db.jobs.Keys
  {
    MoneyAlways(evs);
  }

  lemma FlagsAfter(s: State, ev: Event, j: string)
    requires Enabled(s, ev) && s.hist.Keys == s.db.jobs.Keys && j in s.hist
    ensures HistAfter(s, ev, j).retried == (s.hist[j].retried || ev == Retry(j))
    ensures HistAfter(s, ev, j).routed == (s.hist[j].routed || (ev.StartComplete? && ev.job == j))
  {
  }

  lemma FlagsStep(s: State, ev: Event, j: string)
    requires Enabled(s, ev) && s.hist.Keys == s.db.jobs.Keys && j in s.hist
    ensures j in Apply(s, ev).hist
    ensures Apply(s, ev).hist[j].retried == (s.hist[j].retried || ev == Retry(j))
    ensures Apply(s, ev).hist[j].routed == (s.hist[j].routed || (ev.StartComplete? && ev.job == j))
  {
    HistOfApply(s, ev, j);
    FlagsAfter(s, ev, j);
  }

  lemma NewJobIsFresh(s: State, ev: Event, j: string)
    requires Enabled(s, ev) && s.hist.Keys == s.db.jobs.Keys && j !in s.hist && j in Apply(s, ev).hist
    ensures ev.Submit? && ev.job == j && !Apply(s, ev).hist[j].Disturbed()
  {
  }

  /** `retried` and `routed` are exactly the retries of the job and the routes that started to
      complete it. */
  lemma {:induction false} FlagsMean(evs: seq<Event>, j: string)
    requires Valid(evs) && j in After(evs).hist
    ensures After(evs).hist[j].retried <==> Retry(j) in evs
    ensures After(evs).hist[j].routed <==> exists ev | ev in evs :: ev.StartComplete? && ev.job == j
    decreases |evs|
  {
    if evs != [] {
      var (front, ev) := (evs[..|evs| - 1], evs[|evs| - 1]);
      assert evs == front + [ev];
      HistoryOfJobs(front);
      if j in After(front).hist {
        FlagsMean(front, j);
        FlagsStep(After(front), ev, j);
      } else {
        NewJobIsFresh(After(front), ev, j);
        NothingBefore(front, j);
      }
    }
  }

  /** Nothing happens to a job before it is submitted. */
  lemma {:induction false} NothingBefore(evs: seq<Event>, j: string)
    requires Valid(evs) && j !in After(evs).hist
    ensures forall ev | ev in evs :: ev != Retry(j) && !(ev.StartComplete? && ev.job == j)
    decreases |evs|
  {
    if evs != [] {
      var (front, ev) := (evs[..|evs| - 1], evs[|evs| - 1]);
      assert evs == front + [ev];
      if j in After(front).hist {
        HistoryOfJobs(front);
        FlagsStep(After(front), ev, j);
        assert false;
      }
      NothingBefore(front, j);
    }
  }
}
