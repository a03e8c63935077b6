/** The read, debit and metering steps of one process, taken without interruption, are one call of
    `finalize_job_billing`. */
module ProtocolFinalize {
  import opened Basics
  import opened Ledger
  import opened Metering
  import opened Jobs
  import opened Billing
  import opened Protocol

  ghost predicate SameBut(s: State, t: State, p: nat, db: Db, stage: Stage)
    requires p in s.procs
  {
    t == State(db, s.procs[p := s.procs[p].(stage := stage)], s.hist)
  }

  lemma ReadStep(s: State, p: nat, f: Fault)
    requires Enabled(s, Read(p, f))
    ensures
      var (q, r) := (s.procs[p], s.db.jobs[s.procs[p].job]);
      var c := q.stage.caller;
      SameBut(s, Apply(s, Read(p, f)), p, s.db,
              if f != Fine then Deciding(c, OtherFailed)
              else if Terminal(r.status) || q.amount == 0 then Deciding(c, Skipped) else Debiting(c))
  {
  }

  lemma DebitStep(s: State, p: nat, txn: Fault, look: Fault)
    requires Enabled(s, Debit(p, txn, look))
    ensures
      var q := s.procs[p];
      var (rows, o) := DebitSpec(s.db.rows, TenantOf(s, p), q.job, q.amount, txn, look);
      SameBut(s, Apply(s, Debit(p, txn, look)), p, s.db.(rows := rows),
              if o.Debited? then Recording(q.stage.caller) else Deciding(q.stage.caller, DebitStatus(o)))
  {
  }

  lemma RecordStep(s: State, p: nat, f: Fault)
    requires Enabled(s, Record(p, f))
    ensures SameBut(s, Apply(s, Record(p, f)), p, s.db.(books := RecordSpec(s.db.books, UsageOf(s, p), f).0),
                    Deciding(s.procs[p].stage.caller, if f == Fine then BilledOk else PgFailed))
  {
  }

  /** As many of the three steps as the process needs to reach its decision. */
  function Finalized(s: State, p: nat, f: FinalizeFaults): State
    requires Enabled(s, Read(p, f.read))
  {
    ReadStep(s, p, f.read);
    var s1 := Apply(s, Read(p, f.read));
    if s1.procs[p].stage.Deciding? then s1
    else
      DebitStep(s1, p, f.txn, f.look);
      var s2 := Apply(s1, Debit(p, f.txn, f.look));
      if s2.procs[p].stage.Deciding? then s2 else Apply(s2, Record(p, f.record))
  }

  /** The last two steps, for a process that has read a payable job. */
  lemma DebitThenRecord(s: State, p: nat, f: FinalizeFaults)
    requires Enabled(s, Debit(p, f.txn, f.look))
    ensures
      var q := s.procs[p];
      var (rows, o) := DebitSpec(s.db.rows, TenantOf(s, p), q.job, q.amount, f.txn, f.look);
      var s2 := Apply(s, Debit(p, f.txn, f.look));
      if o.Debited? then
        && Enabled(s2, Record(p, f.record))
        && SameBut(s, Apply(s2, Record(p, f.record)), p,
                   Db(rows, RecordSpec(s.db.books, UsageOf(s, p), f.record).0, s.db.jobs),
                   Deciding(q.stage.caller, if f.record == Fine then BilledOk else PgFailed))
      else SameBut(s, s2, p, s.db.(rows := rows), Deciding(q.stage.caller, DebitStatus(o)))
  {
    DebitStep(s, p, f.txn, f.look);
    var s2 := Apply(s, Debit(p, f.txn, f.look));
    if s2.procs[p].stage.Recording? { RecordStep(s2, p, f.record); }
  }

  /** The three steps, told apart by what the read decided. */
  lemma FinalizedUnfolds(s: State, p: nat, f: FinalizeFaults)
    requires Enabled(s, Read(p, f.read))
    ensures
      var s1 := Apply(s, Read(p, f.read));
      && p in s1.procs
      && (s1.procs[p].stage.Deciding? ==> Finalized(s, p, f) == s1)
      && (s1.procs[p].stage.Debiting? ==>
            && Enabled(s1, Debit(p, f.txn, f.look))
            && var s2 := Apply(s1, Debit(p, f.txn, f.look));
               p in s2.procs && (s2.procs[p].stage.Recording? ==> Enabled(s2, Record(p, f.record)))
               && Finalized(s, p, f) == if s2.procs[p].stage.Recording? then Apply(s2, Record(p, f.record)) else s2)
  {
    ReadStep(s, p, f.read);
    var s1 := Apply(s, Read(p, f.read));
    if s1.procs[p].stage.Debiting? { DebitStep(s1, p, f.txn, f.look); }
  }

  /** The three steps decide what the call returns and leave the tables as the call does. */
  lemma StepsAreOneCall(s: State, p: nat, f: FinalizeFaults)
    requires Enabled(s, Read(p, f.read))
    ensures
      var q := s.procs[p];
      var (db, st) := FinalizeSpec(s.db, TenantOf(s, p), q.job, q.amount, q.kind, f);
      SameBut(s, Finalized(s, p, f), p, db, Deciding(q.stage.caller, st))
  {
    ReadStep(s, p, f.read);
    FinalizedUnfolds(s, p, f);
    var s1 := Apply(s, Read(p, f.read));
    if s1.procs[p].stage.Debiting? { DebitThenRecord(s1, p, f); }
  }
}
