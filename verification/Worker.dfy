/** The execution worker as an object over the shared tables: finalizing, compensating a
    cancelled job, and the two sweeps, each proved against its specification function. */
module Worker {
  import opened Basics
  import opened Ledger
  import opened Metering
  import opened Jobs
  import opened Billing
  import opened Sweeps
  import opened PendingSweep

  class ExecutionWorker {
    const ledger: PGBillingLedger
    const metering: PGMeteringEngine
    const table: JobTable
    var noFundsNextTry: map<string, int>

    constructor (ledger: PGBillingLedger, metering: PGMeteringEngine, table: JobTable)
      ensures this.ledger == ledger && this.metering == metering && this.table == table
      ensures noFundsNextTry == map[]
    {
      this.ledger, this.metering, this.table := ledger, metering, table;
      noFundsNextTry := map[];
    }

    ghost function View(): Db reads ledger, metering, table {
      Db(ledger.rows, metering.books, table.jobs)
    }

    ghost predicate Valid() reads ledger, metering, table {
      ledger.Valid() && metering.Valid() && MoneySound(View())
    }

    ghost function SweepView(): SweepState reads this, ledger, metering, table {
      SweepState(View(), noFundsNextTry)
    }

    method FinalizeJobBilling(tenant: string, job: string, amount: nat, kind: EventKind, f: FinalizeFaults)
      returns (s: BillingStatus)
      requires Valid()
      modifies ledger, metering
      ensures Valid()
      ensures (View(), s) == FinalizeSpec(old(View()), tenant, job, amount, kind, f)
    {
      FinalizeKeepsMoney(View(), tenant, job, amount, kind, f);
      if f.read != Fine {
        return OtherFailed;
      }
      if job !in table.jobs || table.jobs[job].tenant != tenant || Terminal(table.jobs[job].status) || amount == 0 {
        return Skipped;
      }
      var o := ledger.DebitIfFunds(tenant, job, amount, f.txn, f.look);
      if !o.Debited? {
        return DebitStatus(o);
      }
      var rec := metering.Record(Usage(tenant, job, kind, amount), f.record);
      s := if rec.Recorded? then BilledOk else PgFailed;
    }

    /** Up to three refund attempts, then the durable marker. */
    method CompensateCancelled(tenant: string, job: string, cost: nat, tries: seq<RefundFaults>, mark: Fault)
      requires Valid() && job != "" && |tries| == REFUND_ATTEMPTS
      requires DebitEntry(tenant, job, cost) in ledger.rows
      modifies ledger, table
      ensures View() == Compensate(old(View()), tenant, job, cost, tries, mark)
    {
      var ok, attempt := false, 0;
      ghost var e := RefundEntry(tenant, job, cost);
      while attempt < REFUND_ATTEMPTS && !ok
        invariant 0 <= attempt <= REFUND_ATTEMPTS
        invariant ledger.Valid() && DebitEntry(tenant, job, cost) in ledger.rows
        invariant metering.books == old(metering.books) && table.jobs == old(table.jobs)
        invariant RefundLoop(old(ledger.rows), e, tries)
               == if ok then (ledger.rows, true) else RefundLoop(ledger.rows, e, tries[attempt..])
      {
        var o := ledger.Refund(tenant, job, cost, tries[attempt].ins, tries[attempt].look);
        assert tries[attempt..][1..] == tries[attempt + 1..];
        ok := o.Credited?;
        attempt := attempt + 1;
      }
      if !ok {
        var n, raised := table.UpdateExecutionJob(job, SetError(RefundPending(cost)), tenant, {}, mark);
      }
    }

    /** One job of the refund sweep; `more` is false when the sweep has to end. */
    method RefundFetched(b: Fetched, f: SweepRefundFaults) returns (more: bool)
      requires Valid() && Untouched(View(), b.job, b.row) && "" !in table.jobs
      modifies ledger, table
      ensures ledger.Valid()
      ensures (View(), more) == RefundStep(old(View()), b, f)
    {
      if !b.row.error.RefundPending? {
        return true;
      }
      assert RowBacked(ledger.rows, b.job, table.jobs[b.job]);
      var o := ledger.Refund(b.row.tenant, b.job, b.row.error.amount, f.refund.ins, f.refund.look);
      if !o.Credited? {
        return false;
      }
      var n, raised := table.UpdateExecutionJob(b.job, SetError(NoError), b.row.tenant, {}, f.clear);
      more := true;
    }

    /** `sweep_refund_pending_once` over the rows its query returned. */
    method SweepRefundPending(batch: seq<Fetched>, env: string -> SweepRefundFaults)
      requires Valid() && KeysClean(ledger.rows) && RefundBatch(table.jobs, batch) && "" !in table.jobs
      modifies ledger, table
      ensures View() == SweepRefunds(old(View()), batch, env)
    {
      var i, more := 0, true;
      while i < |batch| && more
        invariant 0 <= i <= |batch|
        invariant Valid() && Clean(View()) && "" !in table.jobs
        invariant more ==> RefundBatch(table.jobs, batch[i..])
        invariant SweepRefunds(old(View()), batch, env)
               == if more then SweepRefunds(View(), batch[i..], env) else View()
      {
        ghost var before, rest := View(), batch[i..];
        assert rest[0] == batch[i] && batch[i] in rest && rest[1..] == batch[i + 1..];
        RefundOne(before, batch[i], env(batch[i].job));
        TailBatch(before, rest, RefundStep(before, batch[i], env(batch[i].job)).0);
        more := RefundFetched(batch[i], env(batch[i].job));
        i := i + 1;
      }
    }

    /** One job of the billing sweep. */
    method SettlePending(b: Fetched, now: int, f: SweepFaults) returns (s: BillingStatus, v: Verdict)
      requires Valid()
      modifies this, ledger, metering, table
      ensures Valid()
      ensures (SweepView(), s, v) == SweepOne(old(SweepView()), b, now, f)
    {
      SweepOneKeepsMoney(SweepView(), b, now, f);
      s := FinalizeJobBilling(b.row.tenant, b.job, Cost(b.row.duration), KindOf(b.row.backend), f.fin);
      var status := s;
      var p := SweepPatch(status, b.row.error, b.row.duration);
      v := if status == PgFailed then Stop else GoOn;
      if status == BilledOk {
        noFundsNextTry := Without(noFundsNextTry, b.job);
      } else if status == NoFundsLeft {
        noFundsNextTry := noFundsNextTry[b.job := now + NO_FUNDS_RETRY];
      }
      if p.Some? {
        var n, raised := table.UpdateExecutionJob(b.job, p.value, b.row.tenant, SweepGuard(status), f.write);
        if raised && status == NoFundsLeft {
          v := Abort;
        }
        if raised && status == BilledOk {
          s := OtherFailed;
        }
      }
    }

    /** `sweep_billing_pending_once` over the rows its query returned. */
    method SweepBillingPending(batch: seq<Fetched>, now: int, limit: nat, env: string -> SweepFaults)
      requires Valid()
      modifies this, ledger, metering, table
      ensures Valid()
      ensures SweepView() == SweepOnce(old(SweepView()), batch, now, limit, env)
    {
      var i, v := 0, GoOn;
      while i < |batch| && v == GoOn
        invariant 0 <= i <= |batch|
        invariant Valid()
        invariant SweepAll(old(SweepView()), batch, now, env)
               == if v == GoOn then SweepAll(SweepView(), batch[i..], now, env) else (SweepView(), v)
      {
        var s;
        assert batch[i..][0] == batch[i] && batch[i..][1..] == batch[i + 1..];
        s, v := SettlePending(batch[i], now, env(batch[i].job));
        i := i + 1;
      }
      if v != Abort && |batch| < limit {
        var seen := JobsIn(batch);
        noFundsNextTry := map j | j in noFundsNextTry && j in seen :: noFundsNextTry[j];
      }
    }
  }
}
