/** Why the protocol may take a debit, its commit and its re-check as one step: whatever the
    transactions below do to the ledger, in whatever order they commit, is a run of the protocol's
    own ledger steps, the late ones included. */
module LedgerSteps {
  import opened Ledger
  import opened Jobs
  import opened Protocol
  import Lock = DebitLock

  predicate CanRun(s: State, evs: seq<Event>)
    decreases |evs|
  {
    evs == [] || (Enabled(s, evs[0]) && CanRun(Apply(s, evs[0]), evs[1..]))
  }

  function Ran(s: State, evs: seq<Event>): State
    requires CanRun(s, evs)
    decreases |evs|
  {
    if evs == [] then s else Ran(Apply(s, evs[0]), evs[1..])
  }

  /** The requests and credits of the protocol's own jobs and administrators. */
  predicate KnownRequest(jobs: Table, req: Lock.Request) {
    req.job in jobs && jobs[req.job].tenant == req.tenant
  }

  ghost predicate KnownCredit(jobs: Table, e: Entry) {
    match e.meta
    case ForJob(_) => false
    case RefundFor(j) => j in jobs && e == RefundEntry(jobs[j].tenant, j, e.amount)
    case Plain => exists key: string, nonce: nat :: e == TopUpEntry(e.tenant, e.amount, key, nonce)
  }

  ghost predicate KnownEvent(jobs: Table, ev: Lock.Event) {
    match ev
    case Begin(c, req) => KnownRequest(jobs, req)
    case CommitCredit(e) => KnownCredit(jobs, e)
    case _ => true
  }

  ghost predicate KnownTxns(jobs: Table, sys: Lock.Sys) {
    forall c | c in sys.txns :: KnownRequest(jobs, sys.txns[c].req)
  }

  ghost predicate AtRest(s: State) { s.hist.Keys == s.db.jobs.Keys }

  function WithRows(s: State, rows: seq<Entry>): State { s.(db := s.db.(rows := rows)) }

  lemma DebitIsStep(s: State, req: Lock.Request) returns (ev: Event)
    requires AtRest(s) && KnownRequest(s.db.jobs, req)
    ensures Enabled(s, ev) && Apply(s, ev) == WithRows(s, Lock.Perform(s.db.rows, Lock.TryDebit(req)))
  {
    ev := LateDebit(req.job, req.amount);
  }

  lemma CreditIsStep(s: State, e: Entry) returns (ev: Event)
    requires AtRest(s) && KnownCredit(s.db.jobs, e)
    requires e.meta.RefundFor? ==> DebitEntry(e.tenant, e.meta.job, e.amount) in s.db.rows
    ensures Enabled(s, ev) && Apply(s, ev) == WithRows(s, Lock.Perform(s.db.rows, Lock.AddCredit(e)))
  {
    if e.meta.RefundFor? {
      ev := LateRefund(e.meta.job, e.amount);
    } else {
      var key: string, nonce: nat :| e == TopUpEntry(e.tenant, e.amount, key, nonce);
      ev := TopUp(e.tenant, e.amount, key, nonce);
    }
  }

  /** One fine step is at most one step of the protocol. */
  lemma FineStep(s: State, sys: Lock.Sys, ev: Lock.Event, lockKey: string -> nat) returns (evs: seq<Event>)
    requires AtRest(s) && sys.rows == s.db.rows && KnownTxns(s.db.jobs, sys) && KnownEvent(s.db.jobs, ev)
    requires Lock.Inv(sys, lockKey) && Lock.Enabled(sys, ev, lockKey)
    ensures |evs| <= 1 && CanRun(s, evs) && Ran(s, evs) == WithRows(s, Lock.Apply(sys, ev, lockKey).rows)
    ensures KnownTxns(s.db.jobs, Lock.Apply(sys, ev, lockKey))
  {
    Lock.StepIsAtomic(sys, ev, lockKey);
    var effect := Lock.Effect(sys, ev);
    if effect == [] {
      evs := [];
    } else {
      var step;
      if ev.CommitCredit? { step := CreditIsStep(s, ev.row); } else { step := DebitIsStep(s, sys.txns[ev.conn].req); }
      assert effect[1..] == [] && Lock.PerformAll(sys.rows, effect) == Lock.Perform(sys.rows, effect[0]);
      evs := [step];
      assert evs[1..] == [];
    }
  }

  lemma StepFirst(s: State, ev: Event, evs: seq<Event>)
    requires Enabled(s, ev) && CanRun(Apply(s, ev), evs)
    ensures CanRun(s, [ev] + evs) && Ran(s, [ev] + evs) == Ran(Apply(s, ev), evs)
  {
    assert ([ev] + evs)[0] == ev && ([ev] + evs)[1..] == evs;
  }

  /** Every interleaving of transactions under the lock, with credits committing at any point, does
      to the ledger what a run of the protocol's ledger steps does, and nothing else. So a commit
      that lands after its caller has looked for it and given up is covered too. */
  lemma {:induction false} TransactionsAreSteps(s: State, sys: Lock.Sys, fine: seq<Lock.Event>, lockKey: string -> nat) returns (evs: seq<Event>)
    requires AtRest(s) && sys.rows == s.db.rows && KnownTxns(s.db.jobs, sys)
    requires Lock.Inv(sys, lockKey) && Lock.Runs(sys, fine, lockKey) && forall ev | ev in fine :: KnownEvent(s.db.jobs, ev)
    ensures CanRun(s, evs) && Ran(s, evs) == WithRows(s, Lock.Final(sys, fine, lockKey).rows)
    decreases |fine|
  {
    if fine == [] {
      evs := [];
    } else {
      assert fine[0] in fine && forall ev | ev in fine[1..] :: ev in fine;
      var first := FineStep(s, sys, fine[0], lockKey);
      Lock.StepKeepsInv(sys, fine[0], lockKey);
      var next := Lock.Apply(sys, fine[0], lockKey);
      var rest := TransactionsAreSteps(Ran(s, first), next, fine[1..], lockKey);
      if first == [] {
        evs := rest;
      } else {
        assert first == [first[0]];
        StepFirst(s, first[0], rest);
        evs := first + rest;
      }
    }
  }
}
