/** The billing protocol as it runs: workers, two sweepers and the routes take steps on one
    database in any order, any call may fail before or after it commits, and any of them may die
    at any point. */
module Protocol {
  import opened Basics
  import opened Ledger
  import opened Metering
  import opened Jobs
  import opened Billing

  /** Who is finalizing, with what it has to remember until its own write. */
  datatype Caller =
    | ByWorker(exec: Status, elapsed: nat)
    | BySweeper(marker: ErrorField, duration: nat)
    | ByRoute

  /** Where a process stands: the next thing it will do. */
  datatype Stage =
    | Dispatching
    | Polling
    | Reading(caller: Caller)
    | Debiting(caller: Caller)
    | Recording(caller: Caller)
    | Deciding(caller: Caller, result: BillingStatus)
    | CheckingCancel
    | Refunding(attempt: nat)
    | Marking
    | RefundSweeping
    | Clearing
  {
    /** The awaits a worker can be cancelled at: its dispatch, its poll, and the pause after every
        failed refund. */
    predicate Sleeps() { Dispatching? || Polling? || (Refunding? && attempt > 0) || Marking? }
  }

  datatype Proc = Proc(job: string, amount: nat, kind: EventKind, stage: Stage) {
    predicate Finalizing() { stage.Reading? || stage.Debiting? || stage.Recording? || stage.Deciding? }
    predicate ForWorker() { Finalizing() && stage.caller.ByWorker? }
    predicate ForSweeper() { Finalizing() && stage.caller.BySweeper? }
    predicate ForRoute() { Finalizing() && stage.caller.ByRoute? }
    /** A worker that has passed its last write and is compensating a cancelled job. */
    predicate Compensating() { stage.CheckingCancel? || stage.Refunding? || stage.Marking? }
    predicate Worker() { stage.Dispatching? || stage.Polling? || ForWorker() || Compensating() }
    predicate RefundSweeper() { stage.RefundSweeping? || stage.Clearing? }
    /** The process acts on a debit it knows to be durable. */
    predicate HoldsDebit() {
      stage.Recording? || (stage.Deciding? && stage.result == BilledOk) || Compensating() || RefundSweeper()
    }
  }

  /** What the run of the worker measured: how long, and how it ended. */
  datatype Run = Run(elapsed: nat, exec: Status)

  /** History of a job, kept for stating the properties; no process reads it. */
  datatype Hist = Hist(claimed: bool, retried: bool, routed: bool, parked: bool, zeroParked: bool, marked: bool,
                       run: Option<Run>)
  {
    /** Somebody else than its one worker and the sweepers may have billed it. */
    predicate Disturbed() { retried || routed }
  }

  datatype State = State(db: Db, procs: map<nat, Proc>, hist: map<string, Hist>)

  datatype Event =
    | Submit(job: string, tenant: string)
    | TopUp(tenant: string, amount: nat, key: string, nonce: nat)
    | Claim(pid: nat, job: string)
    | DispatchFail(pid: nat, text: string, on: Option<Backend>, f: Fault)
    | DispatchOk(pid: nat, backend: Backend, f: Fault)
    | PollDone(pid: nat, exec: Status, elapsed: nat)
    | Drain(pid: nat, f: Fault)
    | Read(pid: nat, f: Fault)
    | Debit(pid: nat, txn: Fault, look: Fault)
    | Record(pid: nat, f: Fault)
    | WorkerWrite(pid: nat, f: Fault)
    | SweepWrite(pid: nat, f: Fault)
    | RouteWrite(pid: nat, f: Fault)
    | CheckCancel(pid: nat, f: Fault)
    | RefundTry(pid: nat, ins: Fault, look: Fault)
    | MarkRefund(pid: nat, f: Fault)
    | FetchPending(pid: nat, job: string)
    | FetchRefund(pid: nat, job: string)
    | SweepRefund(pid: nat, ins: Fault, look: Fault)
    | ClearMarker(pid: nat, f: Fault)
    | StartComplete(pid: nat, job: string, amount: nat)
    | AckStart(job: string)
    | AckFail(job: string, error: Option<string>)
    | Retry(job: string)
    | Cancel(job: string)
    | Orphan(job: string)
    | Crash(pid: nat)
    | LateDebit(job: string, amount: nat)
    | LateRefund(job: string, amount: nat)
    | LateRecord(job: string, amount: nat, kind: EventKind)
    | Tamper(job: string, status: Status)

  // ----- guards

  predicate At(s: State, pid: nat) { pid in s.procs && s.procs[pid].job in s.db.jobs && s.procs[pid].job in s.hist }

  predicate Job(s: State, job: string) { job in s.db.jobs && job in s.hist }

  predicate Enabled(s: State, ev: Event) {
    match ev
    case Submit(j, t) => j !in s.db.jobs && j !in s.hist && RealJob(j)
    case TopUp(t, a, key, nonce) => true
    case Claim(p, j) => p !in s.procs && Job(s, j) && s.db.jobs[j].status == Queued
    case DispatchFail(p, text, b, f) => At(s, p) && s.procs[p].stage.Dispatching?
    case DispatchOk(p, b, f) => At(s, p) && s.procs[p].stage.Dispatching?
    case PollDone(p, exec, n) => At(s, p) && s.procs[p].stage.Polling? && ExecStatus(exec)
    case Drain(p, f) =>
      At(s, p) && s.procs[p].stage.Sleeps()
    case Read(p, f) => At(s, p) && s.procs[p].stage.Reading?
    case Debit(p, txn, look) => At(s, p) && s.procs[p].stage.Debiting?
    case Record(p, f) => At(s, p) && s.procs[p].stage.Recording?
    case WorkerWrite(p, f) => At(s, p) && s.procs[p].stage.Deciding? && s.procs[p].stage.caller.ByWorker?
    case SweepWrite(p, f) => At(s, p) && s.procs[p].stage.Deciding? && s.procs[p].stage.caller.BySweeper?
    case RouteWrite(p, f) => At(s, p) && s.procs[p].stage.Deciding? && s.procs[p].stage.caller.ByRoute?
    case CheckCancel(p, f) => At(s, p) && s.procs[p].stage.CheckingCancel?
    case RefundTry(p, ins, look) => At(s, p) && s.procs[p].stage.Refunding?
    case MarkRefund(p, f) => At(s, p) && s.procs[p].stage.Marking?
    case FetchPending(p, j) => p !in s.procs && Job(s, j) && s.db.jobs[j].status == BillingPending
    case FetchRefund(p, j) =>
      p !in s.procs && Job(s, j) && s.db.jobs[j].status == Cancelled && s.db.jobs[j].error.RefundPending?
    case SweepRefund(p, ins, look) => At(s, p) && s.procs[p].stage.RefundSweeping?
    case ClearMarker(p, f) => At(s, p) && s.procs[p].stage.Clearing?
    case StartComplete(p, j, a) => p !in s.procs && Job(s, j) && Allowed(s.db.jobs[j].status, Completed)
    case AckStart(j) => Job(s, j) && Allowed(s.db.jobs[j].status, Running)
    case AckFail(j, error) => Job(s, j) && Allowed(s.db.jobs[j].status, Failed)
    case Retry(j) => Job(s, j) && Allowed(s.db.jobs[j].status, Queued)
    case Cancel(j) => Job(s, j)
    case Orphan(j) => Job(s, j) && s.db.jobs[j].status == Running
    case Crash(p) => p in s.procs
    case LateDebit(j, a) => Job(s, j)
    case LateRefund(j, a) => Job(s, j) && DebitEntry(s.db.jobs[j].tenant, j, a) in s.db.rows
    case LateRecord(j, a, k) => Job(s, j) && a > 0 && DebitEntry(s.db.jobs[j].tenant, j, a) in s.db.rows
    case Tamper(j, st) => Job(s, j)
  }

  // ----- what a step writes: ledger rows, usage, one job row, one process, one history

  function NextRows(s: State, ev: Event): seq<Entry>
    requires Enabled(s, ev)
  {
    match ev
    case TopUp(t, a, key, nonce) => InsertIgnore(s.db.rows, TopUpEntry(t, a, key, nonce))
    case Debit(p, txn, look) =>
      DebitSpec(s.db.rows, TenantOf(s, p), s.procs[p].job, s.procs[p].amount, txn, look).0
    case RefundTry(p, ins, look) => CreditSpec(s.db.rows, RefundOf(s, p), ins, look).0
    case SweepRefund(p, ins, look) => CreditSpec(s.db.rows, RefundOf(s, p), ins, look).0
    case LateDebit(j, a) => InsertIfFunds(s.db.rows, DebitEntry(s.db.jobs[j].tenant, j, a))
    case LateRefund(j, a) => InsertIgnore(s.db.rows, RefundEntry(s.db.jobs[j].tenant, j, a))
    case _ => s.db.rows
  }

  function TenantOf(s: State, p: nat): string
    requires At(s, p)
  {
    s.db.jobs[s.procs[p].job].tenant
  }

  function RefundOf(s: State, p: nat): Entry
    requires At(s, p)
  {
    RefundEntry(TenantOf(s, p), s.procs[p].job, s.procs[p].amount)
  }

  function UsageOf(s: State, p: nat): Usage
    requires At(s, p)
  {
    Usage(TenantOf(s, p), s.procs[p].job, s.procs[p].kind, s.procs[p].amount)
  }

  function NextBooks(s: State, ev: Event): Books
    requires Enabled(s, ev)
  {
    match ev
    case Record(p, f) => RecordSpec(s.db.books, UsageOf(s, p), f).0
    case LateRecord(j, a, k) => RecordSpec(s.db.books, Usage(s.db.jobs[j].tenant, j, k, a), Fine).0
    case _ => s.db.books
  }

  datatype Write = Write(job: string, row: JobRow)

  /** An UPDATE that reaches its row, if it commits and the guard lets it through. */
  function Put(s: State, job: string, p: Patch, guard: set<Status>, f: Fault): Option<Write>
    requires job in s.db.jobs
  {
    if f.Commits() && s.db.jobs[job].status !in guard then Some(Write(job, p.On(s.db.jobs[job]))) else None
  }

  function FailPatch(text: Option<string>, backend: Option<Backend>): Patch {
    Patch(Some(Failed), if text.Some? then Some(FreeText(text.value)) else None, None, None, backend)
  }

  function NextRow(s: State, ev: Event): Option<Write>
    requires Enabled(s, ev)
  {
    match ev
    case Submit(j, t) => Some(Write(j, JobRow(t, Queued, NoError, 0, 0, None)))
    case Claim(p, j) => Put(s, j, SetStatus(Running), {}, Fine)
    case DispatchFail(p, text, b, f) => Put(s, s.procs[p].job, FailPatch(Some(text), b), {}, f)
    case DispatchOk(p, b, f) => Put(s, s.procs[p].job, Patch(Some(Running), None, None, None, Some(b)), {}, f)
    case Drain(p, f) =>
      Put(s, s.procs[p].job, Patch(Some(Cancelled), Some(FreeText("cancelled by drain_inflight")), None, None, None),
          BLOCKED, f)
    case WorkerWrite(p, f) =>
      var st := s.procs[p].stage;
      Put(s, s.procs[p].job, WorkerPatch(st.caller.exec, st.result, st.caller.elapsed, s.procs[p].amount), BLOCKED, f)
    case SweepWrite(p, f) =>
      var st := s.procs[p].stage;
      var patch := SweepPatch(st.result, st.caller.marker, st.caller.duration);
      if patch.None? then None else Put(s, s.procs[p].job, patch.value, SweepGuard(st.result), f)
    case RouteWrite(p, f) =>
      if s.procs[p].stage.result != BilledOk then None else Put(s, s.procs[p].job, SetStatus(Completed), {}, f)
    case MarkRefund(p, f) => Put(s, s.procs[p].job, SetError(RefundPending(s.procs[p].amount)), {}, f)
    case ClearMarker(p, f) => Put(s, s.procs[p].job, SetError(NoError), {}, f)
    case AckStart(j) => Put(s, j, SetStatus(Running), {}, Fine)
    case AckFail(j, error) => Put(s, j, FailPatch(error, None), {}, Fine)
    case Retry(j) => Put(s, j, SetStatus(Queued), {}, Fine)
    case Cancel(j) => Put(s, j, SetStatus(Cancelled), BLOCKED, Fine)
    case Orphan(j) =>
      Put(s, j, Patch(Some(Timeout), Some(FreeText("orphaned: worker restart")), None, None, None), {}, Fine)
    case Tamper(j, st) => Put(s, j, SetStatus(st), {}, Fine)
    case _ => None
  }

  datatype ProcChange = Keep | Set(pid: nat, proc: Proc) | Drop(pid: nat)

  function Goto(s: State, p: nat, st: Stage): ProcChange
    requires p in s.procs
  {
    Set(p, s.procs[p].(stage := st))
  }

  function NextProc(s: State, ev: Event): ProcChange
    requires Enabled(s, ev)
  {
    match ev
    case Claim(p, j) => Set(p, Proc(j, 0, CpuExecution, Dispatching))
    case DispatchFail(p, text, b, f) => Drop(p)
    case DispatchOk(p, b, f) =>
      if f == Fine then Set(p, s.procs[p].(kind := KindOf(Some(b)), stage := Polling)) else Keep
    case PollDone(p, exec, n) =>
      Set(p, s.procs[p].(amount := Cost(n), stage := Reading(ByWorker(exec, n))))
    case Drain(p, f) => Drop(p)
    case Read(p, f) =>
      var c := s.procs[p].stage.caller;
      if f != Fine then Goto(s, p, Deciding(c, OtherFailed))
      else if Terminal(s.db.jobs[s.procs[p].job].status) || s.procs[p].amount == 0 then Goto(s, p, Deciding(c, Skipped))
      else Goto(s, p, Debiting(c))
    case Debit(p, txn, look) =>
      var c := s.procs[p].stage.caller;
      var o := DebitSpec(s.db.rows, TenantOf(s, p), s.procs[p].job, s.procs[p].amount, txn, look).1;
      Goto(s, p, if o.Debited? then Recording(c) else Deciding(c, DebitStatus(o)))
    case Record(p, f) =>
      Goto(s, p, Deciding(s.procs[p].stage.caller, if f == Fine then BilledOk else PgFailed))
    case WorkerWrite(p, f) =>
      if f == Fine && NextRow(s, ev).None? && s.procs[p].stage.result == BilledOk then Goto(s, p, CheckingCancel)
      else Drop(p)
    case SweepWrite(p, f) => Drop(p)
    case RouteWrite(p, f) => Drop(p)
    case CheckCancel(p, f) =>
      if f == Fine && s.db.jobs[s.procs[p].job].status == Cancelled then Goto(s, p, Refunding(0)) else Drop(p)
    case RefundTry(p, ins, look) =>
      var n := s.procs[p].stage.attempt;
      if CreditSpec(s.db.rows, RefundOf(s, p), ins, look).1.Credited? then Drop(p)
      else Goto(s, p, if n + 1 < REFUND_ATTEMPTS then Refunding(n + 1) else Marking)
    case MarkRefund(p, f) => Drop(p)
    case FetchPending(p, j) =>
      var r := s.db.jobs[j];
      Set(p, Proc(j, Cost(r.duration), KindOf(r.backend), Reading(BySweeper(r.error, r.duration))))
    case FetchRefund(p, j) => Set(p, Proc(j, s.db.jobs[j].error.amount, CpuExecution, RefundSweeping))
    case SweepRefund(p, ins, look) =>
      if CreditSpec(s.db.rows, RefundOf(s, p), ins, look).1.Credited? then Goto(s, p, Clearing) else Drop(p)
    case ClearMarker(p, f) => Drop(p)
    case StartComplete(p, j, a) => Set(p, Proc(j, a, KindOf(s.db.jobs[j].backend), Reading(ByRoute)))
    case Crash(p) => Drop(p)
    case _ => Keep
  }

  datatype HistWrite = HistWrite(job: string, h: Hist)

  function NextHist(s: State, ev: Event): Option<HistWrite>
    requires Enabled(s, ev)
  {
    match ev
    case Submit(j, t) => Some(HistWrite(j, Hist(false, false, false, false, false, false, None)))
    case Claim(p, j) => Some(HistWrite(j, s.hist[j].(claimed := true)))
    case PollDone(p, exec, n) =>
      Some(HistWrite(s.procs[p].job, s.hist[s.procs[p].job].(run := Some(Run(n, exec)))))
    case WorkerWrite(p, f) =>
      var w := NextRow(s, ev);
      if w.Some? && w.value.row.status == BillingPending then
        var h := s.hist[s.procs[p].job];
        Some(HistWrite(s.procs[p].job, h.(parked := true, zeroParked := h.zeroParked || w.value.row.duration == 0)))
      else None
    case MarkRefund(p, f) => Some(HistWrite(s.procs[p].job, s.hist[s.procs[p].job].(marked := true)))
    case StartComplete(p, j, a) => Some(HistWrite(j, s.hist[j].(routed := true)))
    case Retry(j) => Some(HistWrite(j, s.hist[j].(retried := true)))
    case _ => None
  }

  /** The state with these parts written into it. */
  function Assemble(s: State, rows: seq<Entry>, books: Books, w: Option<Write>, c: ProcChange, h: Option<HistWrite>)
    : State
  {
    State(
      Db(rows, books, if w.Some? then s.db.jobs[w.value.job := w.value.row] else s.db.jobs),
      match c
      case Keep => s.procs
      case Set(p, proc) => s.procs[p := proc]
      case Drop(p) => s.procs - {p},
      if h.Some? then s.hist[h.value.job := h.value.h] else s.hist)
  }

  function Apply(s: State, ev: Event): State
    requires Enabled(s, ev)
  {
    Assemble(s, NextRows(s, ev), NextBooks(s, ev), NextRow(s, ev), NextProc(s, ev), NextHist(s, ev))
  }

  // ----- runs

  const START := State(Db([], Books([], map[]), map[]), map[], map[])

  predicate Valid(evs: seq<Event>)
    decreases |evs|, 0
  {
    evs == [] || (Valid(evs[..|evs| - 1]) && Enabled(After(evs[..|evs| - 1]), evs[|evs| - 1]))
  }

  function After(evs: seq<Event>): State
    requires Valid(evs)
    decreases |evs|, 1
  {
    if evs == [] then START else Apply(After(evs[..|evs| - 1]), evs[|evs| - 1])
  }
}
