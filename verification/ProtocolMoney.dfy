/** What holds of the money in every interleaving. Job statuses are left to an adversary: any
    status may be overwritten at any time and any number of workers may hold the same job. */
module ProtocolMoney {
  import opened Basics
  import opened Ledger
  import opened Metering
  import opened Billing
  import opened Protocol

  /** What a process may rely on when it acts. */
  ghost predicate ProcMoney(rows: seq<Entry>, tenant: string, p: Proc) {
    && (p.HoldsDebit() ==> DebitEntry(tenant, p.job, p.amount) in rows)
    && (p.ForSweeper() ==> p.amount == Cost(p.stage.caller.duration))
    && (p.stage.Clearing? ==> RefundKeyTaken(rows, tenant, p.job))
  }

  ghost predicate ProcsMoney(s: State) {
    forall pid | pid in s.procs ::
      && s.procs[pid].job in s.db.jobs
      && ProcMoney(s.db.rows, s.db.jobs[s.procs[pid].job].tenant, s.procs[pid])
  }

  ghost predicate MoneyInv(s: State) {
    MoneySound(s.db) && ProcsMoney(s) && s.hist.Keys == s.db.jobs.Keys
  }

  lemma RowsGrow(s: State, ev: Event)
    requires MoneyInv(s) && Enabled(s, ev)
    ensures Sound(NextRows(s, ev)) && s.db.rows <= NextRows(s, ev)
  {
    match ev
    case TopUp(t, a, key, nonce) => CreditOutcomeIsDurable(s.db.rows, TopUpEntry(t, a, key, nonce), Fine, Fine);
    case Debit(p, txn, look) =>
      DebitOutcomeIsDurable(s.db.rows, TenantOf(s, p), s.procs[p].job, s.procs[p].amount, txn, look);
    case RefundTry(p, ins, look) => RefundIsDurable(s.db.rows, TenantOf(s, p), s.procs[p].job, s.procs[p].amount, ins, look);
    case SweepRefund(p, ins, look) => RefundIsDurable(s.db.rows, TenantOf(s, p), s.procs[p].job, s.procs[p].amount, ins, look);
    case LateDebit(j, a) => InsertIfFundsSound(s.db.rows, s.db.jobs[j].tenant, j, a);
    case LateRefund(j, a) => CreditOutcomeIsDurable(s.db.rows, RefundEntry(s.db.jobs[j].tenant, j, a), Fine, Fine);
    case _ =>
  }

  lemma BooksStay(s: State, ev: Event)
    requires MoneyInv(s) && Enabled(s, ev)
    ensures
      var b := NextBooks(s, ev);
      Backed(s.db.rows, b.usage) && TotalsMatch(b) && UniqueEvents(b.usage)
  {
    match ev
    case Record(p, f) => MoneyRecords(s.db, UsageOf(s, p), f);
    case LateRecord(j, a, k) => MoneyRecords(s.db, Usage(s.db.jobs[j].tenant, j, k, a), Fine);
    case _ =>
  }

  /** What a step may write into a job row: money that was debited, in the row's own tenancy. */
  ghost predicate RowFits(s: State, w: Option<Write>, h: Option<HistWrite>) {
    && (w.Some? ==>
          && RowBacked(s.db.rows, w.value.job, w.value.row)
          && (w.value.job in s.db.jobs ==> w.value.row.tenant == s.db.jobs[w.value.job].tenant)
          && (w.value.job in s.db.jobs || (h.Some? && h.value.job == w.value.job)))
    && (h.Some? ==> h.value.job in s.db.jobs || (w.Some? && w.value.job == h.value.job))
  }

  lemma FinalWrites(s: State, ev: Event)
    requires MoneyInv(s) && Enabled(s, ev) && (ev.WorkerWrite? || ev.SweepWrite?)
    ensures RowFits(s, NextRow(s, ev), NextHist(s, ev))
  {
    assert RowBacked(s.db.rows, s.procs[ev.pid].job, s.db.jobs[s.procs[ev.pid].job]);
  }

  lemma RowWritten(s: State, ev: Event)
    requires MoneyInv(s) && Enabled(s, ev)
    ensures RowFits(s, NextRow(s, ev), NextHist(s, ev))
  {
    if ev.WorkerWrite? || ev.SweepWrite? { FinalWrites(s, ev); }
  }

  /** A process that moves on still knows what it relies on. */
  ghost predicate ProcFits(s: State, rows: seq<Entry>, c: ProcChange) {
    c.Set? ==> c.proc.job in s.db.jobs && ProcMoney(rows, s.db.jobs[c.proc.job].tenant, c.proc)
  }

  lemma DebitMoves(s: State, p: nat, txn: Fault, look: Fault)
    requires MoneyInv(s) && Enabled(s, Debit(p, txn, look))
    ensures ProcFits(s, NextRows(s, Debit(p, txn, look)), NextProc(s, Debit(p, txn, look)))
  {
    DebitOutcomeIsDurable(s.db.rows, TenantOf(s, p), s.procs[p].job, s.procs[p].amount, txn, look);
  }

  lemma RefundMoves(s: State, p: nat, ins: Fault, look: Fault)
    requires MoneyInv(s) && Enabled(s, RefundTry(p, ins, look))
    ensures ProcFits(s, NextRows(s, RefundTry(p, ins, look)), NextProc(s, RefundTry(p, ins, look)))
  {
    RefundIsDurable(s.db.rows, TenantOf(s, p), s.procs[p].job, s.procs[p].amount, ins, look);
  }

  lemma SweepRefundMoves(s: State, p: nat, ins: Fault, look: Fault)
    requires MoneyInv(s) && Enabled(s, SweepRefund(p, ins, look))
    ensures ProcFits(s, NextRows(s, SweepRefund(p, ins, look)), NextProc(s, SweepRefund(p, ins, look)))
  {
    RefundIsDurable(s.db.rows, TenantOf(s, p), s.procs[p].job, s.procs[p].amount, ins, look);
  }

  predicate TouchesLedger(ev: Event) {
    ev.TopUp? || ev.Debit? || ev.RefundTry? || ev.SweepRefund? || ev.LateDebit? || ev.LateRefund?
  }

  predicate Starts(ev: Event) {
    ev.Claim? || ev.PollDone? || ev.FetchPending? || ev.FetchRefund? || ev.StartComplete?
  }

  lemma StartMoves(s: State, ev: Event)
    requires MoneyInv(s) && Enabled(s, ev) && Starts(ev)
    ensures ProcFits(s, s.db.rows, NextProc(s, ev))
  {
    if ev.FetchRefund? { assert RowBacked(s.db.rows, ev.job, s.db.jobs[ev.job]); }
  }

  lemma PlainMoves(s: State, ev: Event)
    requires MoneyInv(s) && Enabled(s, ev) && !Starts(ev) && !TouchesLedger(ev)
    ensures ProcFits(s, s.db.rows, NextProc(s, ev))
  {
  }

  lemma LedgerMoves(s: State, ev: Event)
    requires MoneyInv(s) && Enabled(s, ev) && TouchesLedger(ev)
    ensures ProcFits(s, NextRows(s, ev), NextProc(s, ev))
  {
    if ev.Debit? { DebitMoves(s, ev.pid, ev.txn, ev.look); }
    if ev.RefundTry? { RefundMoves(s, ev.pid, ev.ins, ev.look); }
    if ev.SweepRefund? { SweepRefundMoves(s, ev.pid, ev.ins, ev.look); }
  }

  lemma RowsElsewhere(s: State, ev: Event)
    requires Enabled(s, ev) && !TouchesLedger(ev)
    ensures NextRows(s, ev) == s.db.rows
  {
  }

  lemma ProcWritten(s: State, ev: Event)
    requires MoneyInv(s) && Enabled(s, ev)
    ensures ProcFits(s, NextRows(s, ev), NextProc(s, ev))
  {
    if TouchesLedger(ev) {
      LedgerMoves(s, ev);
    } else {
      RowsElsewhere(s, ev);
      if Starts(ev) { StartMoves(s, ev); } else { PlainMoves(s, ev); }
    }
  }

  ghost predicate PartsFit(s: State, rows: seq<Entry>, books: Books, w: Option<Write>, c: ProcChange, h: Option<HistWrite>) {
    && Sound(rows) && s.db.rows <= rows
    && Backed(s.db.rows, books.usage) && TotalsMatch(books) && UniqueEvents(books.usage)
    && RowFits(s, w, h) && ProcFits(s, rows, c)
  }

  lemma AssembleDb(s: State, rows: seq<Entry>, books: Books, w: Option<Write>, c: ProcChange, h: Option<HistWrite>)
    requires MoneyInv(s) && PartsFit(s, rows, books, w, c, h)
    ensures MoneySound(Assemble(s, rows, books, w, c, h).db)
  {
    var db := s.db.(books := books, jobs := if w.Some? then s.db.jobs[w.value.job := w.value.row] else s.db.jobs);
    assert RowsBacked(db) by {
      forall j | j in db.jobs
        ensures RowBacked(db.rows, j, db.jobs[j])
      {
        assert j in s.db.jobs ==> RowBacked(s.db.rows, j, s.db.jobs[j]);
      }
    }
    MoneyGrows(db, rows);
  }

  lemma AssembleProcs(s: State, rows: seq<Entry>, books: Books, w: Option<Write>, c: ProcChange, h: Option<HistWrite>)
    requires MoneyInv(s) && PartsFit(s, rows, books, w, c, h)
    ensures ProcsMoney(Assemble(s, rows, books, w, c, h))
  {
    assert forall e | e in s.db.rows :: e in rows;
  }

  /** Parts that fit make a state that keeps the invariant. */
  lemma AssembleMoney(s: State, rows: seq<Entry>, books: Books, w: Option<Write>, c: ProcChange, h: Option<HistWrite>)
    requires MoneyInv(s) && PartsFit(s, rows, books, w, c, h)
    ensures MoneyInv(Assemble(s, rows, books, w, c, h))
  {
    AssembleDb(s, rows, books, w, c, h);
    AssembleProcs(s, rows, books, w, c, h);
    assert Assemble(s, rows, books, w, c, h).hist.Keys == Assemble(s, rows, books, w, c, h).db.jobs.Keys;
  }

  lemma MoneyStep(s: State, ev: Event)
    requires MoneyInv(s) && Enabled(s, ev)
    ensures MoneyInv(Apply(s, ev))
    ensures s.db.rows <= Apply(s, ev).db.rows
  {
    RowsGrow(s, ev);
    BooksStay(s, ev);
    RowWritten(s, ev);
    ProcWritten(s, ev);
    AssembleMoney(s, NextRows(s, ev), NextBooks(s, ev), NextRow(s, ev), NextProc(s, ev), NextHist(s, ev));
  }

  /** After any run at all the money invariant holds. */
  lemma {:induction false} MoneyAlways(evs: seq<Event>)
    requires Valid(evs)
    ensures MoneyInv(After(evs))
    decreases |evs|
  {
    if evs != [] {
      MoneyAlways(evs[..|evs| - 1]);
      MoneyStep(After(evs[..|evs| - 1]), evs[|evs| - 1]);
    }
  }

  // ----- the promises, for every run

  /** One DEBIT per tenant and job, whatever raced, failed, crashed or was retried. */
  lemma NeverDebitedTwice(evs: seq<Event>, i: nat, k: nat)
    requires Valid(evs)
    requires i < |After(evs).db.rows| && k < |After(evs).db.rows|
    requires After(evs).db.rows[i].kind == DEBIT && After(evs).db.rows[k].kind == DEBIT
    requires After(evs).db.rows[i].tenant == After(evs).db.rows[k].tenant
    requires After(evs).db.rows[i].meta == After(evs).db.rows[k].meta
    ensures i == k
  {
    MoneyAlways(evs);
    OneDebitPerJob(After(evs).db.rows, i, k);
  }

  /** A job's net charge is nothing or its whole debit, and a refund leaves nothing. */
  lemma RefundConservation(evs: seq<Event>, tenant: string, job: string)
    requires Valid(evs)
    ensures
      var rows := After(evs).db.rows;
      && (NetCharge(rows, tenant, job) == 0
          || exists a: nat :: DebitEntry(tenant, job, a) in rows && NetCharge(rows, tenant, job) == a)
      && (forall a: nat :: RefundEntry(tenant, job, a) in rows ==>
            DebitEntry(tenant, job, a) in rows && NetCharge(rows, tenant, job) == 0)
  {
    MoneyAlways(evs);
    NetChargeAllOrNothing(After(evs).db.rows, tenant, job);
  }

  /** No tenant is ever debited more than it was credited. */
  lemma BalanceNeverNegative(evs: seq<Event>, tenant: string)
    requires Valid(evs)
    ensures
      var rows := After(evs).db.rows;
      SumDebit(rows, tenant) <= SumCredit(rows, tenant) && Balance(rows, tenant) >= 0
  {
    MoneyAlways(evs);
    BalanceIsSums(After(evs).db.rows, tenant);
  }

  /** Debits and usage reconcile: the drift is the unmetered debits less what was metered twice, and
      the totals table always shows the usage. */
  lemma Reconciliation(evs: seq<Event>, tenant: string)
    requires Valid(evs)
    ensures
      var db := After(evs).db;
      && SumDebit(db.rows, tenant) - SumUsage(db.books.usage, tenant)
         == Unmetered(db.rows, db.books.usage, tenant) - Repeated(db.rows, db.books.usage, tenant)
      && TotalOf(db.books.totals, tenant) == SumUsage(db.books.usage, tenant)
  {
    MoneyAlways(evs);
    DriftExact(After(evs).db.rows, After(evs).db.books.usage, tenant);
  }

  /** No job ever shows a cost, and no marker ever promises a refund, that was not debited. */
  lemma ShownMoneyWasDebited(evs: seq<Event>, job: string)
    requires Valid(evs) && job in After(evs).db.jobs
    ensures
      var (rows, r) := (After(evs).db.rows, After(evs).db.jobs[job]);
      && (r.cost != 0 ==> DebitEntry(r.tenant, job, r.cost) in rows)
      && (r.error.RefundPending? ==> DebitEntry(r.tenant, job, r.error.amount) in rows)
  {
    MoneyAlways(evs);
    assert RowBacked(After(evs).db.rows, job, After(evs).db.jobs[job]);
  }
}
