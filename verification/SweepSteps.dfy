/** The sweepers as functions against the sweepers as steps: what one fetched job does to the database
    is what its steps do, taken in a row. */
module SweepSteps {
  import opened Basics
  import opened Jobs
  import opened Billing
  import opened Sweeps
  import opened PendingSweep
  import opened Protocol
  import opened ProtocolSteps

  /** The last write of the billing sweeper. */
  lemma SettleIsStep(s: State, p: nat, f: Fault, b: Fetched)
    requires Enabled(s, SweepWrite(p, f)) && b.job == s.procs[p].job && b.row.tenant == s.db.jobs[b.job].tenant
    requires s.procs[p].stage.caller == BySweeper(b.row.error, b.row.duration)
    ensures Apply(s, SweepWrite(p, f)).db.jobs == Settle(s.db.jobs, b, s.procs[p].stage.result, f)
  {
    var result := s.procs[p].stage.result;
    var patch := SweepPatch(result, b.row.error, b.row.duration);
    if patch.Some? { PutIsUpdate(s, b.job, patch.value, SweepGuard(result), f); }
  }

  /** One refund of the refund sweeper, and the marker it clears. */
  lemma RefundIsStep(s: State, p: nat, b: Fetched, f: SweepRefundFaults)
    requires Enabled(s, SweepRefund(p, f.refund.ins, f.refund.look)) && b.job == s.procs[p].job
    requires b.row.tenant == s.db.jobs[b.job].tenant && b.row.error == RefundPending(s.procs[p].amount)
    ensures
      var s1 := Apply(s, SweepRefund(p, f.refund.ins, f.refund.look));
      var (db, more) := RefundStep(s.db, b, f);
      && (more <==> p in s1.procs)
      && (!more ==> s1.db == db)
      && (more ==> Enabled(s1, ClearMarker(p, f.clear)) && Apply(s1, ClearMarker(p, f.clear)).db == db)
  {
    var s1 := Apply(s, SweepRefund(p, f.refund.ins, f.refund.look));
    if p in s1.procs { PutIsUpdate(s1, b.job, SetError(NoError), {}, f.clear); }
  }
}
