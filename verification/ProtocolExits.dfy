/** How a run ends for its tenant: when the worker's last write leaves a job paid, parked, or free. */
module ProtocolExits {
  import opened Basics
  import opened Ledger
  import opened Jobs
  import opened Billing
  import opened Protocol
  import opened ProtocolMoney
  import opened ProtocolStatus
  import opened ProtocolSteps

  /** There was something to pay, nothing has been debited, and no sweeper will see the job. */
  ghost predicate LeavesFree(s: State, j: string, amount: nat) {
    && j in s.db.jobs && amount > 0
    && !HasDebit(s.db.rows, s.db.jobs[j].tenant, j)
    && s.db.jobs[j].status != BillingPending
  }

  /** The billing was not saved. */
  predicate NotSaved(s: BillingStatus) { s in {PgFailed, OtherFailed, NoFundsLeft} }

  /** The two ways a last write gives a run away: it was told to skip a job that had been ended when
      it looked, or the backend ended the run in a status that is never parked. */
  predicate GivesAway(q: Proc)
    requires q.ForWorker() && q.stage.Deciding?
  {
    q.stage.result == Skipped || (NotSaved(q.stage.result) && q.stage.caller.exec !in {Completed, Timeout, Failed})
  }

  lemma PaidWhenTold(s: State, p: nat)
    requires ActorFact(s, p) && MoneyFact(s, p) && s.procs[p].ForWorker() && s.procs[p].stage.Deciding?
    requires s.procs[p].stage.result in {BilledOk, KeyMismatch}
    ensures HasDebit(s.db.rows, s.db.jobs[s.procs[p].job].tenant, s.procs[p].job)
  {
    var q := s.procs[p];
    if q.stage.result == BilledOk { assert DebitEntry(s.db.jobs[q.job].tenant, q.job, q.amount) in s.db.rows; }
  }

  /** A last write that reaches its row leaves the job free if and only if it gives the run away, the
      run costs something, and nobody has debited it. */
  lemma LastWriteLeavesFree(s: State, p: nat, f: Fault)
    requires Enabled(s, WorkerWrite(p, f)) && ActorFact(s, p) && MoneyFact(s, p)
    requires f != Lost && Open(s.db.jobs[s.procs[p].job])
    ensures
      var (q, s') := (s.procs[p], Apply(s, WorkerWrite(p, f)));
      LeavesFree(s', q.job, q.amount) <==>
        GivesAway(q) && q.amount > 0 && !HasDebit(s.db.rows, s.db.jobs[q.job].tenant, q.job)
  {
    LastWrites(s, p, f);
    WritesLeaveLedger(s, WorkerWrite(p, f));
    if s.procs[p].stage.result in {BilledOk, KeyMismatch} { PaidWhenTold(s, p); }
  }

  /** In every orderly run: the exact condition for any job, and for one that was never retried and
      whose run ended completed, timeout or failed, that it is paid, parked, or had nothing to pay. */
  lemma LastWriteSettles(evs: seq<Event>, p: nat, f: Fault)
    requires Tame(evs) && evs != [] && evs[|evs| - 1] == WorkerWrite(p, f) && f != Lost
    requires p in Before(evs).procs && StillOpen(Before(evs), p)
    ensures
      var (s, s', q) := (Before(evs), After(evs), Before(evs).procs[p]);
      && q.ForWorker() && q.stage.Deciding? && q.job in s.hist
      && (LeavesFree(s', q.job, q.amount) <==>
            GivesAway(q) && q.amount > 0 && !HasDebit(s.db.rows, s.db.jobs[q.job].tenant, q.job))
      && (!s.hist[q.job].retried && q.stage.caller.exec in {Completed, Timeout, Failed} ==>
            || HasDebit(s'.db.rows, s'.db.jobs[q.job].tenant, q.job)
            || Cost(q.stage.caller.elapsed) == 0
            || s'.db.jobs[q.job].status == BillingPending)
  {
    var (front, s) := (evs[..|evs| - 1], Before(evs));
    ActorFactOf(front, p);
    MoneyFactOf(front, p);
    LastWriteLeavesFree(s, p, f);
    RowOfApply(s, WorkerWrite(p, f), s.procs[p].job);
  }

  predicate StillOpen(s: State, p: nat)
    requires p in s.procs
  {
    s.procs[p].job in s.db.jobs && Open(s.db.jobs[s.procs[p].job])
  }

  lemma MoneyFactOf(evs: seq<Event>, p: nat)
    requires Tame(evs) && p in After(evs).procs
    ensures MoneyFact(After(evs), p)
  {
    MoneyAlways(evs);
  }
}
