/** What each step of the protocol writes into a job row and where it leaves its process, said
    outright: which status, error, cost and duration, under which condition. */
module ProtocolSteps {
  import opened Basics
  import opened Ledger
  import opened Metering
  import opened Jobs
  import opened Billing
  import opened Protocol
  import opened ProtocolStatus

  /** Neither terminal, nor raw, nor parked: the only rows a client or a last write may change. */
  predicate Open(r: JobRow) { r.status == Queued || r.status == Running }

  /** A step changes the row of no other job. */
  lemma OneRow(s: State, ev: Event, j: string)
    requires Enabled(s, ev) && !ev.Tamper? && j in s.db.jobs
    requires Writes(ev) && !ev.Submit? ==> JobOf(s, ev) != j
    ensures j in Apply(s, ev).db.jobs && Apply(s, ev).db.jobs[j] == s.db.jobs[j]
  {
    RowOfApply(s, ev, j);
    if j in s.hist { ElsewhereSame(s, ev, j); }
  }

  lemma Submits(s: State, j: string, tenant: string)
    requires Enabled(s, Submit(j, tenant))
    ensures Apply(s, Submit(j, tenant)).db.jobs == s.db.jobs[j := JobRow(tenant, Queued, NoError, 0, 0, None)]
  {
  }

  // ---------------------------------------------------------------- The worker

  lemma Claims(s: State, p: nat, j: string)
    requires Enabled(s, Claim(p, j))
    ensures s.db.jobs[j].status == Queued
    ensures Apply(s, Claim(p, j)).db.jobs[j] == s.db.jobs[j].(status := Running)
    ensures Apply(s, Claim(p, j)).procs[p].job == j && Apply(s, Claim(p, j)).procs[p].stage == Dispatching
  {
  }

  lemma Dispatches(s: State, p: nat, b: Backend, f: Fault)
    requires Enabled(s, DispatchOk(p, b, f))
    ensures
      var (j, s') := (s.procs[p].job, Apply(s, DispatchOk(p, b, f)));
      && s'.db.jobs[j] == (if f == Lost then s.db.jobs[j] else s.db.jobs[j].(status := Running, backend := Some(b)))
      && s'.procs[p].stage == (if f == Fine then Polling else Dispatching)
  {
  }

  lemma FailsToDispatch(s: State, p: nat, text: string, on: Option<Backend>, f: Fault)
    requires Enabled(s, DispatchFail(p, text, on, f))
    ensures
      var (j, s') := (s.procs[p].job, Apply(s, DispatchFail(p, text, on, f)));
      var r := s.db.jobs[j];
      && s'.db.jobs[j] == (if f == Lost then r
                           else r.(status := Failed, error := FreeText(text), backend := if on == None then r.backend else on))
      && p !in s'.procs
  {
  }

  lemma Polls(s: State, p: nat, exec: Status, n: nat)
    requires Enabled(s, PollDone(p, exec, n))
    ensures
      var (q, s') := (s.procs[p], Apply(s, PollDone(p, exec, n)));
      && exec in {Completed, Failed, Timeout, Cancelled, Error, Stopped, Destroyed}
      && s'.procs[p] == Proc(q.job, 10 * n, q.kind, Reading(ByWorker(exec, n)))
      && s'.hist[q.job].run == Some(Run(n, exec))
  {
  }

  lemma Drains(s: State, p: nat, f: Fault)
    requires Enabled(s, Drain(p, f))
    ensures
      var (j, s') := (s.procs[p].job, Apply(s, Drain(p, f)));
      var r := s.db.jobs[j];
      && s'.db.jobs[j] == (if f == Lost || !Open(r) then r
                           else r.(status := Cancelled, error := FreeText("cancelled by drain_inflight")))
      && p !in s'.procs
  {
    GuardSets(s.db.jobs[s.procs[p].job].status);
  }

  /** The worker's last write, for every way its run ended and its billing came out. It reaches an
      open row only; a run that ended completed, timeout or failed and whose billing is unsaved is
      parked, free of cost, with an error that says how it ended. */
  lemma LastWrites(s: State, p: nat, f: Fault)
    requires Enabled(s, WorkerWrite(p, f))
    ensures
      var (q, s') := (s.procs[p], Apply(s, WorkerWrite(p, f)));
      var (r, exec, res) := (s.db.jobs[q.job], q.stage.caller.exec, q.stage.result);
      var r' := s'.db.jobs[q.job];
      if f == Lost || !Open(r) then r' == r
      else
        && r'.tenant == r.tenant && r'.backend == r.backend && r'.duration == q.stage.caller.elapsed
        && (match res
            case BilledOk => r'.status == exec && r'.error == NoError && r'.cost == q.amount
            case Skipped => r'.status == exec && r'.error == NoError && r'.cost == 0
            case KeyMismatch =>
              r'.status == (if exec in {Timeout, Failed} then exec else Error) && r'.error == BillingMismatch && r'.cost == 0
            case PgFailed => Unbilled(r', exec, PgError)
            case OtherFailed => Unbilled(r', exec, OtherError)
            case NoFundsLeft => Unbilled(r', exec, FundsShort))
  {
    GuardSets(s.db.jobs[s.procs[p].job].status);
  }

  predicate Unbilled(r: JobRow, exec: Status, fault: BillingFault) {
    && r.status == (if exec in {Completed, Timeout, Failed} then BillingPending else exec)
    && r.cost == 0
    && r.error == Billing(fault, if exec in {Timeout, Failed} then Some(exec) else None)
  }

  /** Only a worker that has billed, and whose write found the row closed, looks for a cancellation. */
  lemma Compensates(s: State, p: nat, f: Fault)
    requires Enabled(s, WorkerWrite(p, f))
    ensures
      var (q, s') := (s.procs[p], Apply(s, WorkerWrite(p, f)));
      if f == Fine && !Open(s.db.jobs[q.job]) && q.stage.result == BilledOk
      then p in s'.procs && s'.procs[p] == q.(stage := CheckingCancel) else p !in s'.procs
  {
    GuardSets(s.db.jobs[s.procs[p].job].status);
  }

  /** Only a cancelled job is refunded, at most three times before the marker. */
  lemma ChecksCancel(s: State, p: nat, f: Fault)
    requires Enabled(s, CheckCancel(p, f))
    ensures
      var (q, s') := (s.procs[p], Apply(s, CheckCancel(p, f)));
      if f == Fine && s.db.jobs[q.job].status == Cancelled
      then p in s'.procs && s'.procs[p] == q.(stage := Refunding(0)) else p !in s'.procs
  {
  }

  lemma Refunds(s: State, p: nat, ins: Fault, look: Fault)
    requires Enabled(s, RefundTry(p, ins, look)) && Sound(s.db.rows)
    ensures
      var (q, s') := (s.procs[p], Apply(s, RefundTry(p, ins, look)));
      var t := s.db.jobs[q.job].tenant;
      var e := Entry(RefundId(t, q.job), t, CREDIT, q.amount, RefundFor(q.job));
      var free := Free(s.db.rows, e.id);
      var told := ins == Fine && (free || (look == Fine && exists r | r in s.db.rows :: r.id == e.id && r.tenant == t));
      && s'.db.rows == (if ins != Lost && free then s.db.rows + [e] else s.db.rows)
      && (if told then p !in s'.procs
          else p in s'.procs && s'.procs[p] == q.(stage := if q.stage.attempt < 2 then Refunding(q.stage.attempt + 1) else Marking))
  {
    CreditExactly(s.db.rows, RefundOf(s, p), ins, look);
  }

  lemma Marks(s: State, p: nat, f: Fault)
    requires Enabled(s, MarkRefund(p, f))
    ensures
      var (q, s') := (s.procs[p], Apply(s, MarkRefund(p, f)));
      && s'.db.jobs[q.job] == (if f == Lost then s.db.jobs[q.job] else s.db.jobs[q.job].(error := RefundPending(q.amount)))
      && p !in s'.procs
  {
  }

  // ---------------------------------------------------------------- The sweepers

  lemma Fetches(s: State, p: nat, j: string)
    ensures Enabled(s, FetchPending(p, j)) ==>
              var (r, s') := (s.db.jobs[j], Apply(s, FetchPending(p, j)));
              r.status == BillingPending
              && s'.procs[p].job == j && s'.procs[p].amount == 10 * r.duration
              && s'.procs[p].kind == (if r.backend == Some(Vastai) then GpuExecution else CpuExecution)
              && s'.procs[p].stage == Reading(BySweeper(r.error, r.duration))
    ensures Enabled(s, FetchRefund(p, j)) ==>
              var (r, s') := (s.db.jobs[j], Apply(s, FetchRefund(p, j)));
              r.status == Cancelled && r.error == RefundPending(s'.procs[p].amount)
              && s'.procs[p].job == j && s'.procs[p].stage == RefundSweeping
  {
  }

  /** What the billing sweeper writes over the row it finds: the remembered status and the cost when
      billed, the status alone when there was nothing to bill, both only over a row no run or
      client has ended; and its own marker over any row when there were no funds. */
  lemma SweepWrites(s: State, p: nat, f: Fault)
    requires Enabled(s, SweepWrite(p, f))
    ensures
      var (q, s') := (s.procs[p], Apply(s, SweepWrite(p, f)));
      var (r, m, res) := (s.db.jobs[q.job], q.stage.caller.marker, q.stage.result);
      var r' := s'.db.jobs[q.job];
      var exec := if m.Billing? && m.exec.Some? then m.exec.value else Completed;
      var ended := r.status in {Completed, Failed, Timeout, Cancelled};
      var mine := Billing(FundsShort, if m.Billing? && (m.exec == Some(Timeout) || m.exec == Some(Failed)) then m.exec else None);
      && p !in s'.procs
      && r' == (if f == Lost then r
                else match res
                     case BilledOk =>
                       if ended then r else r.(status := exec, error := NoError, cost := 10 * q.stage.caller.duration)
                     case Skipped => if ended then r else r.(status := exec, error := NoError)
                     case KeyMismatch =>
                       if ended then r
                       else r.(status := if m.Billing? && m.exec.Some? then m.exec.value else Error, error := BillingMismatch)
                     case NoFundsLeft => if m == mine then r else r.(error := mine)
                     case PgFailed => r
                     case OtherFailed => r)
  {
    GuardSets(s.db.jobs[s.procs[p].job].status);
  }

  lemma RefundSweeps(s: State, p: nat, ins: Fault, look: Fault)
    requires Enabled(s, SweepRefund(p, ins, look)) && Sound(s.db.rows)
    ensures
      var (q, s') := (s.procs[p], Apply(s, SweepRefund(p, ins, look)));
      var t := s.db.jobs[q.job].tenant;
      var e := Entry(RefundId(t, q.job), t, CREDIT, q.amount, RefundFor(q.job));
      var free := Free(s.db.rows, e.id);
      var told := ins == Fine && (free || (look == Fine && exists r | r in s.db.rows :: r.id == e.id && r.tenant == t));
      && s'.db.rows == (if ins != Lost && free then s.db.rows + [e] else s.db.rows)
      && (if told then p in s'.procs && s'.procs[p] == q.(stage := Clearing) else p !in s'.procs)
  {
    CreditExactly(s.db.rows, RefundOf(s, p), ins, look);
  }

  lemma Clears(s: State, p: nat, f: Fault)
    requires Enabled(s, ClearMarker(p, f))
    ensures
      var (q, s') := (s.procs[p], Apply(s, ClearMarker(p, f)));
      && s'.db.jobs[q.job] == (if f == Lost then s.db.jobs[q.job] else s.db.jobs[q.job].(error := NoError))
      && p !in s'.procs
  {
  }

  // ---------------------------------------------------------------- The routes

  /** Acknowledgements, retries and cancellations write the status they promise, from where the
      transition graph allows it. */
  lemma AcknowledgesStart(s: State, j: string)
    requires Enabled(s, AckStart(j))
    ensures s.db.jobs[j].status == Queued && Apply(s, AckStart(j)).db.jobs[j] == s.db.jobs[j].(status := Running)
  {
  }

  lemma AcknowledgesFailure(s: State, j: string, error: Option<string>)
    requires Enabled(s, AckFail(j, error))
    ensures s.db.jobs[j].status == Running
    ensures Apply(s, AckFail(j, error)).db.jobs[j]
         == s.db.jobs[j].(status := Failed, error := if error == None then s.db.jobs[j].error else FreeText(error.value))
  {
  }

  lemma Retries(s: State, j: string)
    requires Enabled(s, Retry(j))
    ensures s.db.jobs[j].status == Failed && Apply(s, Retry(j)).db.jobs[j] == s.db.jobs[j].(status := Queued)
  {
  }

  lemma Cancels(s: State, j: string)
    requires Enabled(s, Cancel(j))
    ensures Apply(s, Cancel(j)).db.jobs[j] == if Open(s.db.jobs[j]) then s.db.jobs[j].(status := Cancelled) else s.db.jobs[j]
  {
    GuardSets(s.db.jobs[j].status);
  }

  lemma Orphans(s: State, j: string)
    requires Enabled(s, Orphan(j))
    ensures s.db.jobs[j].status == Running
    ensures Apply(s, Orphan(j)).db.jobs[j] == s.db.jobs[j].(status := Timeout, error := FreeText("orphaned: worker restart"))
  {
  }

  lemma TopsUp(s: State, tenant: string, amount: nat, key: string, nonce: nat)
    requires Enabled(s, TopUp(tenant, amount, key, nonce))
    ensures
      var id := if key == "" then Random(nonce) else Hashed(tenant + ":" + key);
      Apply(s, TopUp(tenant, amount, key, nonce)).db.rows
      == if Free(s.db.rows, id) then s.db.rows + [Entry(id, tenant, CREDIT, amount, Plain)] else s.db.rows
  {
  }

  /** A completing route bills before it writes, and writes only when billed. */
  lemma RoutesComplete(s: State, p: nat, j: string, amount: nat, f: Fault)
    ensures Enabled(s, StartComplete(p, j, amount)) ==>
              var s' := Apply(s, StartComplete(p, j, amount));
              s.db.jobs[j].status == Running && s'.db.jobs == s.db.jobs
              && s'.procs[p].job == j && s'.procs[p].amount == amount && s'.procs[p].stage == Reading(ByRoute)
    ensures Enabled(s, RouteWrite(p, f)) ==>
              var (q, s') := (s.procs[p], Apply(s, RouteWrite(p, f)));
              && s'.db.jobs[q.job] == (if f != Lost && q.stage.result == BilledOk
                                       then s.db.jobs[q.job].(status := Completed) else s.db.jobs[q.job])
              && p !in s'.procs
  {
  }

  // ---------------------------------------------------------------- The guarded update

  /** A process that dies leaves everything else as it was. */
  lemma Dies(s: State, p: nat)
    requires Enabled(s, Crash(p))
    ensures Apply(s, Crash(p)) == s.(procs := s.procs - {p})
  {
  }

  /** The adversary of the money results writes any status over any other. */
  lemma Tampers(s: State, j: string, st: Status)
    requires j in s.db.jobs && j in s.hist
    ensures Enabled(s, Tamper(j, st))
    ensures Apply(s, Tamper(j, st)) == s.(db := s.db.(jobs := s.db.jobs[j := s.db.jobs[j].(status := st)]))
  {
  }

  /** A transaction given up for lost may still commit, and then does what it would have done. */
  lemma DebitsLate(s: State, j: string, amount: nat)
    requires Enabled(s, LateDebit(j, amount))
    ensures
      var t := s.db.jobs[j].tenant;
      var d := Entry(DebitId(t, j), t, DEBIT, amount, ForJob(j));
      Apply(s, LateDebit(j, amount)).db.rows
      == if Free(s.db.rows, d.id) && SumDebit(s.db.rows, t) + amount <= SumCredit(s.db.rows, t) then s.db.rows + [d] else s.db.rows
  {
    BalanceIsSums(s.db.rows, s.db.jobs[j].tenant);
  }

  lemma RefundsLate(s: State, j: string, amount: nat)
    requires Enabled(s, LateRefund(j, amount))
    ensures
      var t := s.db.jobs[j].tenant;
      var r := Entry(RefundId(t, j), t, CREDIT, amount, RefundFor(j));
      Apply(s, LateRefund(j, amount)).db.rows == if Free(s.db.rows, r.id) then s.db.rows + [r] else s.db.rows
  {
  }

  lemma RecordsLate(s: State, j: string, amount: nat, kind: EventKind)
    requires Enabled(s, LateRecord(j, amount, kind))
    ensures
      var u := Usage(s.db.jobs[j].tenant, j, kind, amount);
      var known := RealJob(j) && exists v | v in s.db.books.usage :: v.tenant == u.tenant && v.job == j && v.kind == kind;
      Apply(s, LateRecord(j, amount, kind)).db.books.usage == if known then s.db.books.usage else s.db.books.usage + [u]
  {
    RecordExactly(s.db.books, Usage(s.db.jobs[j].tenant, j, kind, amount), Fine, "");
  }

  /** The step a process stands before, with these faults. */
  function StepOf(st: Stage, p: nat, f: Fault, g: Fault): Event {
    match st
    case Dispatching => DispatchOk(p, Local, f)
    case Polling => PollDone(p, Completed, 0)
    case Reading(_) => Read(p, f)
    case Debiting(_) => Debit(p, f, g)
    case Recording(_) => Record(p, f)
    case Deciding(c, _) => if c.ByWorker? then WorkerWrite(p, f) else if c.BySweeper? then SweepWrite(p, f) else RouteWrite(p, f)
    case CheckingCancel => CheckCancel(p, f)
    case Refunding(_) => RefundTry(p, f, g)
    case Marking => MarkRefund(p, f)
    case RefundSweeping => SweepRefund(p, f, g)
    case Clearing => ClearMarker(p, f)
  }

  /** No process is ever stuck: whatever the calls before it did, it can take its next step. */
  lemma NeverStuck(s: State, p: nat, f: Fault, g: Fault)
    requires p in s.procs && s.procs[p].job in s.db.jobs && s.procs[p].job in s.hist
    ensures Enabled(s, StepOf(s.procs[p].stage, p, f, g))
  {
  }

  /** A process can be drained exactly while it awaits its dispatch, its poll, or the pause after a
      failed refund. */
  lemma DrainsWhenAsleep(s: State, p: nat, f: Fault)
    requires p in s.procs && s.procs[p].job in s.db.jobs && s.procs[p].job in s.hist
    ensures Enabled(s, Drain(p, f)) <==>
              || s.procs[p].stage.Dispatching? || s.procs[p].stage.Polling? || s.procs[p].stage.Marking?
              || (s.procs[p].stage.Refunding? && s.procs[p].stage.attempt >= 1)
  {
  }

  /** When a process can start on a job. */
  lemma Starts(s: State, p: nat, j: string, amount: nat)
    requires p !in s.procs && j in s.db.jobs && j in s.hist
    ensures Enabled(s, Claim(p, j)) <==> s.db.jobs[j].status == Queued
    ensures Enabled(s, FetchPending(p, j)) <==> s.db.jobs[j].status == BillingPending
    ensures Enabled(s, FetchRefund(p, j)) <==> s.db.jobs[j].status == Cancelled && s.db.jobs[j].error.RefundPending?
    ensures Enabled(s, StartComplete(p, j, amount)) <==> s.db.jobs[j].status == Running
  {
  }

  /** When a client can act on one, and the sweep of orphans. */
  lemma Acts(s: State, j: string, error: Option<string>)
    requires j in s.db.jobs && j in s.hist
    ensures Enabled(s, AckStart(j)) <==> s.db.jobs[j].status == Queued
    ensures Enabled(s, AckFail(j, error)) <==> s.db.jobs[j].status == Running
    ensures Enabled(s, Cancel(j))
  {
  }

  lemma ComesBack(s: State, j: string)
    requires j in s.db.jobs && j in s.hist
    ensures Enabled(s, Retry(j)) <==> s.db.jobs[j].status == Failed
    ensures Enabled(s, Orphan(j)) <==> s.db.jobs[j].status == Running
  {
  }

  /** The rows the protocol writes are those of the compare-and-set. */
  lemma PutIsUpdate(s: State, j: string, p: Patch, guard: set<Status>, f: Fault)
    requires j in s.db.jobs
    ensures
      var (after, n) := Update(s.db.jobs, j, p, s.db.jobs[j].tenant, guard);
      var w := Put(s, j, p, guard, f);
      && (w.Some? <==> f != Lost && n == 1)
      && (w.Some? ==> w.value.job == j && after == s.db.jobs[j := w.value.row])
      && (w.None? && f != Lost ==> after == s.db.jobs)
  {
  }
}
