/** Debits and usage over whole runs: when they can part, said of the steps of the run. As in
    `ProtocolMoney`, any status may be overwritten at any time. */
module ProtocolUsage {
  import opened Basics
  import opened Ledger
  import opened Metering
  import opened Billing
  import opened Protocol
  import opened ProtocolMoney

  // ---------------------------------------------------------------- What every run keeps

  ghost predicate UsageHome(s: State, u: Usage) {
    u.job in s.db.jobs && u.tenant == s.db.jobs[u.job].tenant && u.cost > 0
  }

  ghost predicate DebitHome(s: State, e: Entry) {
    e.meta.ForJob? ==> e.meta.job in s.db.jobs && e.tenant == s.db.jobs[e.meta.job].tenant
  }

  /** A process bills something, and one that was told "ok" has its usage row. */
  ghost predicate ProcUsage(s: State, q: Proc) {
    && q.job in s.db.jobs
    && (q.stage.Debiting? || q.stage.Recording? ==> q.amount > 0)
    && (q.stage.Deciding? && q.stage.result == BilledOk ==>
          HasEvent(s.db.books.usage, Usage(s.db.jobs[q.job].tenant, q.job, q.kind, q.amount)))
  }

  ghost predicate UsageInv(s: State) {
    && MoneyInv(s)
    && (forall j | j in s.db.jobs :: RealJob(j))
    && (forall u | u in s.db.books.usage :: UsageHome(s, u))
    && (forall e | e in s.db.rows :: DebitHome(s, e))
    && (forall p | p in s.procs :: ProcUsage(s, s.procs[p]))
  }

  lemma TenantsAssembled(s: State, rows: seq<Entry>, books: Books, w: Option<Write>, c: ProcChange, h: Option<HistWrite>)
    requires RowFits(s, w, h) && (w.Some? && w.value.job !in s.db.jobs ==> RealJob(w.value.job))
    ensures
      var s' := Assemble(s, rows, books, w, c, h);
      && (forall j | j in s.db.jobs :: j in s'.db.jobs && s'.db.jobs[j].tenant == s.db.jobs[j].tenant)
      && (forall j | j in s'.db.jobs && j !in s.db.jobs :: RealJob(j))
  {
  }

  lemma RowsOfJobs(s: State, ev: Event)
    requires Enabled(s, ev) && !ev.Submit? && NextRow(s, ev).Some?
    ensures NextRow(s, ev).value.job in s.db.jobs
  {
  }

  lemma SubmitsOnly(s: State, ev: Event)
    requires Enabled(s, ev) && NextRow(s, ev).Some?
    ensures NextRow(s, ev).value.job !in s.db.jobs ==> RealJob(NextRow(s, ev).value.job)
  {
    if !ev.Submit? { RowsOfJobs(s, ev); }
  }

  lemma TenantsStay(s: State, ev: Event)
    requires MoneyInv(s) && Enabled(s, ev)
    ensures forall j | j in s.db.jobs :: j in Apply(s, ev).db.jobs && Apply(s, ev).db.jobs[j].tenant == s.db.jobs[j].tenant
    ensures forall j | j in Apply(s, ev).db.jobs && j !in s.db.jobs :: RealJob(j)
  {
    RowWritten(s, ev);
    if NextRow(s, ev).Some? { SubmitsOnly(s, ev); }
    TenantsAssembled(s, NextRows(s, ev), NextBooks(s, ev), NextRow(s, ev), NextProc(s, ev), NextHist(s, ev));
  }

  /** What a step meters, in time or late. */
  function MeteredBy(s: State, ev: Event): Option<Usage>
    requires Enabled(s, ev)
  {
    match ev
    case Record(p, f) => if f.Commits() then Some(UsageOf(s, p)) else None
    case LateRecord(j, a, k) => Some(Usage(s.db.jobs[j].tenant, j, k, a))
    case _ => None
  }

  lemma NewUsage(s: State, ev: Event, u: Usage)
    requires Enabled(s, ev) && u in NextBooks(s, ev).usage && u !in s.db.books.usage
    ensures MeteredBy(s, ev) == Some(u)
  {
  }

  lemma UsageGrows(s: State, ev: Event)
    requires Enabled(s, ev)
    ensures s.db.books.usage <= NextBooks(s, ev).usage
    ensures MeteredBy(s, ev).Some? ==> HasEvent(NextBooks(s, ev).usage, MeteredBy(s, ev).value)
  {
    if MeteredBy(s, ev).Some? {
      var u := MeteredBy(s, ev).value;
      if Inserts(s.db.books.usage, u) { assert u in NextBooks(s, ev).usage; }
    }
  }

  lemma NewDebits(s: State, ev: Event, e: Entry)
    requires MoneyInv(s) && Enabled(s, ev) && e in NextRows(s, ev)
    ensures e in s.db.rows || DebitHome(s, e)
  {
    if ev.Debit? {
      DebitOutcomeIsDurable(s.db.rows, TenantOf(s, ev.pid), s.procs[ev.pid].job, s.procs[ev.pid].amount, ev.txn, ev.look);
    }
  }

  lemma EventStays(usage: seq<Usage>, after: seq<Usage>, u: Usage)
    requires usage <= after && HasEvent(usage, u)
    ensures HasEvent(after, u)
  {
    var v :| v in usage && SameEvent(v, u);
    assert v in after;
  }

  /** A process that moves on bills something, and is told "ok" by its own metering step. */
  lemma MovedStage(s: State, ev: Event)
    requires Enabled(s, ev) && NextProc(s, ev).Set?
    requires !Starts(ev) ==> ev.pid in s.procs && ProcUsage(s, s.procs[ev.pid])
    ensures var q := NextProc(s, ev).proc;
            && (q.stage.Debiting? || q.stage.Recording? ==> q.amount > 0)
            && (q.stage.Deciding? && q.stage.result == BilledOk ==>
                  ev.Record? && ev.f.Commits() && q == s.procs[ev.pid].(stage := q.stage))
  {
  }

  lemma MovedUsage(s: State, ev: Event)
    requires UsageInv(s) && Enabled(s, ev) && NextProc(s, ev).Set?
    ensures ProcUsage(Apply(s, ev), NextProc(s, ev).proc)
  {
    ProcWritten(s, ev);
    TenantsStay(s, ev);
    UsageGrows(s, ev);
    MovedStage(s, ev);
  }

  lemma RowsUsageStep(s: State, ev: Event)
    requires UsageInv(s) && Enabled(s, ev)
    ensures forall u | u in Apply(s, ev).db.books.usage :: UsageHome(Apply(s, ev), u)
    ensures forall e | e in Apply(s, ev).db.rows :: DebitHome(Apply(s, ev), e)
  {
    var s' := Apply(s, ev);
    TenantsStay(s, ev);
    forall u | u in s'.db.books.usage
      ensures UsageHome(s', u)
    {
      if u !in s.db.books.usage { NewUsage(s, ev, u); }
    }
    forall e | e in s'.db.rows
      ensures DebitHome(s', e)
    {
      NewDebits(s, ev, e);
    }
  }

  lemma UsageStep(s: State, ev: Event)
    requires UsageInv(s) && Enabled(s, ev)
    ensures UsageInv(Apply(s, ev))
  {
    var s' := Apply(s, ev);
    MoneyStep(s, ev);
    TenantsStay(s, ev);
    RowsUsageStep(s, ev);
    forall p | p in s'.procs
      ensures ProcUsage(s', s'.procs[p])
    {
      ProcUsageStep(s, ev, p);
    }
  }

  lemma ProcUsageStep(s: State, ev: Event, p: nat)
    requires UsageInv(s) && Enabled(s, ev) && p in Apply(s, ev).procs
    ensures ProcUsage(Apply(s, ev), Apply(s, ev).procs[p])
  {
    if NextProc(s, ev).Set? && NextProc(s, ev).pid == p {
      MovedUsage(s, ev);
    } else {
      TenantsStay(s, ev);
      UsageGrows(s, ev);
      BystanderUsage(s, Apply(s, ev), s.procs[p]);
    }
  }

  lemma BystanderUsage(s: State, s': State, q: Proc)
    requires ProcUsage(s, q) && s.db.books.usage <= s'.db.books.usage
    requires q.job in s'.db.jobs && s'.db.jobs[q.job].tenant == s.db.jobs[q.job].tenant
    ensures ProcUsage(s', q)
  {
    if q.stage.Deciding? && q.stage.result == BilledOk {
      EventStays(s.db.books.usage, s'.db.books.usage, Usage(s.db.jobs[q.job].tenant, q.job, q.kind, q.amount));
    }
  }

  lemma {:induction false} UsageAlways(evs: seq<Event>)
    requires Valid(evs)
    ensures UsageInv(After(evs))
    decreases |evs|
  {
    if evs != [] {
      UsageAlways(evs[..|evs| - 1]);
      UsageStep(After(evs[..|evs| - 1]), evs[|evs| - 1]);
    }
  }

  // ---------------------------------------------------------------- Which kinds were metered

  predicate Meters(s: State, ev: Event, j: string, k: EventKind)
    requires Enabled(s, ev)
  {
    MeteredBy(s, ev).Some? && MeteredBy(s, ev).value.job == j && MeteredBy(s, ev).value.kind == k
  }

  /** A metering step of the job under this kind committed in the run. */
  predicate MeteredAs(evs: seq<Event>, j: string, k: EventKind)
    requires Valid(evs)
    decreases |evs|
  {
    evs != [] && (MeteredAs(evs[..|evs| - 1], j, k) || Meters(After(evs[..|evs| - 1]), evs[|evs| - 1], j, k))
  }

  ghost predicate HasKind(usage: seq<Usage>, j: string, k: EventKind) {
    exists u | u in usage :: u.job == j && u.kind == k
  }

  /** The kinds in the usage table are those of the committed metering steps. */
  lemma {:induction false} UsageIsMetered(evs: seq<Event>, j: string, k: EventKind)
    requires Valid(evs)
    ensures HasKind(After(evs).db.books.usage, j, k) <==> MeteredAs(evs, j, k)
    decreases |evs|
  {
    if evs != [] {
      var (s, ev) := (After(evs[..|evs| - 1]), evs[|evs| - 1]);
      UsageIsMetered(evs[..|evs| - 1], j, k);
      UsageGrows(s, ev);
      if HasKind(After(evs).db.books.usage, j, k) && !HasKind(s.db.books.usage, j, k) {
        var u :| u in After(evs).db.books.usage && u.job == j && u.kind == k;
        NewUsage(s, ev, u);
      }
      if HasKind(s.db.books.usage, j, k) {
        var u :| u in s.db.books.usage && u.job == j && u.kind == k;
        assert u in After(evs).db.books.usage;
      }
      if Meters(s, ev, j, k) {
        var u :| u in After(evs).db.books.usage && SameEvent(u, MeteredBy(s, ev).value);
      }
    }
  }

  /** No job of the tenant was metered under two kinds. */
  ghost predicate OneKindMetered(evs: seq<Event>, tenant: string)
    requires Valid(evs)
  {
    forall j, k, l | j in After(evs).db.jobs && After(evs).db.jobs[j].tenant == tenant && MeteredAs(evs, j, k) && MeteredAs(evs, j, l) ::
      k == l
  }

  lemma MeteredGivesKinds(evs: seq<Event>, tenant: string)
    requires Valid(evs) && OneKindMetered(evs, tenant)
    ensures OneKindEach(After(evs).db.rows, After(evs).db.books.usage, tenant)
  {
    var (rows, usage) := (After(evs).db.rows, After(evs).db.books.usage);
    UsageAlways(evs);
    forall e | e in rows && e.tenant == tenant && e.meta.ForJob?
      ensures RealJob(e.meta.job) && OneKind(usage, tenant, e.meta.job)
    {
      assert DebitHome(After(evs), e);
      forall u, v | u in usage && v in usage && IsFor(u, tenant, e.meta.job) && IsFor(v, tenant, e.meta.job)
        ensures u.kind == v.kind
      {
        UsageIsMetered(evs, e.meta.job, u.kind);
        UsageIsMetered(evs, e.meta.job, v.kind);
      }
    }
  }

  lemma KindsGiveMetered(evs: seq<Event>, tenant: string)
    requires Valid(evs) && OneKindEach(After(evs).db.rows, After(evs).db.books.usage, tenant)
    ensures OneKindMetered(evs, tenant)
  {
    var (rows, usage) := (After(evs).db.rows, After(evs).db.books.usage);
    UsageAlways(evs);
    forall j, k, l | j in After(evs).db.jobs && After(evs).db.jobs[j].tenant == tenant && MeteredAs(evs, j, k) && MeteredAs(evs, j, l)
      ensures k == l
    {
      UsageIsMetered(evs, j, k);
      UsageIsMetered(evs, j, l);
      var u :| u in usage && u.job == j && u.kind == k;
      var v :| v in usage && v.job == j && v.kind == l;
      assert UsageHome(After(evs), u) && UsageHome(After(evs), v);
      assert DebitEntry(tenant, j, u.cost) in rows;
      assert DebitEntry(tenant, j, u.cost).meta == ForJob(j);
    }
  }

  lemma OneKindIsMetered(evs: seq<Event>, tenant: string)
    requires Valid(evs)
    ensures OneKindMetered(evs, tenant) <==> OneKindEach(After(evs).db.rows, After(evs).db.books.usage, tenant)
  {
    if OneKindMetered(evs, tenant) { MeteredGivesKinds(evs, tenant); }
    if OneKindEach(After(evs).db.rows, After(evs).db.books.usage, tenant) { KindsGiveMetered(evs, tenant); }
  }

  /** Exactly when the debits keep up: the drift of a tenant is its unmetered debits, and so never
      negative, if and only if none of its jobs was metered by two committed steps of different
      kinds. */
  lemma DriftIffOneKind(evs: seq<Event>, tenant: string)
    requires Valid(evs)
    ensures
      var db := After(evs).db;
      SumDebit(db.rows, tenant) - SumUsage(db.books.usage, tenant) == Unmetered(db.rows, db.books.usage, tenant)
      <==> OneKindMetered(evs, tenant)
  {
    var db := After(evs).db;
    UsageAlways(evs);
    OneKindIsMetered(evs, tenant);
    DriftExact(db.rows, db.books.usage, tenant);
    assert forall e | e in db.rows && e.meta.ForJob? :: DebitHome(After(evs), e);
    RepeatedIffKinds(db.rows, db.books.usage, tenant);
  }

  // ---------------------------------------------------------------- A condition on how billing starts

  /** A process that will bill the job is on this kind of backend: the one its worker was
      dispatched to, or the one the row shows to a sweeper or a route. */
  predicate StartsUnder(s: State, ev: Event, kinds: string -> EventKind)
    requires Enabled(s, ev)
  {
    match ev
    case DispatchOk(p, b, f) => f == Fine ==> KindOf(Some(b)) == kinds(s.procs[p].job)
    case FetchPending(p, j) => KindOf(s.db.jobs[j].backend) == kinds(j)
    case StartComplete(p, j, a) => KindOf(s.db.jobs[j].backend) == kinds(j)
    case LateRecord(j, a, k) => k == kinds(j)
    case _ => true
  }

  ghost predicate OneBackend(evs: seq<Event>, kinds: string -> EventKind)
    decreases |evs|
  {
    Valid(evs) && (evs == [] || (OneBackend(evs[..|evs| - 1], kinds) && StartsUnder(After(evs[..|evs| - 1]), evs[|evs| - 1], kinds)))
  }

  predicate OnBackend(q: Proc) { q.stage.Polling? || q.Finalizing() }

  ghost predicate BillsUnder(s: State, kinds: string -> EventKind) {
    forall p | p in s.procs && OnBackend(s.procs[p]) :: s.procs[p].kind == kinds(s.procs[p].job)
  }

  lemma StartKeepsKind(s: State, ev: Event, kinds: string -> EventKind)
    requires Enabled(s, ev) && StartsUnder(s, ev, kinds) && NextProc(s, ev).Set? && OnBackend(NextProc(s, ev).proc)
    requires BillsUnder(s, kinds)
    ensures NextProc(s, ev).proc.kind == kinds(NextProc(s, ev).proc.job)
  {
  }

  lemma KindAssembled(s: State, rows: seq<Entry>, books: Books, w: Option<Write>, c: ProcChange, h: Option<HistWrite>,
                      kinds: string -> EventKind)
    requires BillsUnder(s, kinds) && (c.Set? && OnBackend(c.proc) ==> c.proc.kind == kinds(c.proc.job))
    ensures BillsUnder(Assemble(s, rows, books, w, c, h), kinds)
  {
  }

  lemma KindStep(s: State, ev: Event, kinds: string -> EventKind)
    requires Enabled(s, ev) && StartsUnder(s, ev, kinds) && BillsUnder(s, kinds)
    ensures BillsUnder(Apply(s, ev), kinds)
  {
    if NextProc(s, ev).Set? && OnBackend(NextProc(s, ev).proc) { StartKeepsKind(s, ev, kinds); }
    KindAssembled(s, NextRows(s, ev), NextBooks(s, ev), NextRow(s, ev), NextProc(s, ev), NextHist(s, ev), kinds);
  }

  lemma {:induction false} KindsFollow(evs: seq<Event>, kinds: string -> EventKind)
    requires OneBackend(evs, kinds)
    ensures BillsUnder(After(evs), kinds)
    ensures forall j, k | MeteredAs(evs, j, k) :: k == kinds(j)
    decreases |evs|
  {
    if evs != [] {
      KindsFollow(evs[..|evs| - 1], kinds);
      KindStep(After(evs[..|evs| - 1]), evs[|evs| - 1], kinds);
    }
  }

  /** If every process that bills a job starts while the job is on one kind of backend, the drift
      is the unmetered debits, in every run. */
  lemma OneBackendReconciles(evs: seq<Event>, kinds: string -> EventKind, tenant: string)
    requires OneBackend(evs, kinds)
    ensures
      var db := After(evs).db;
      && Repeated(db.rows, db.books.usage, tenant) == 0
      && SumDebit(db.rows, tenant) - SumUsage(db.books.usage, tenant) == Unmetered(db.rows, db.books.usage, tenant)
  {
    KindsFollow(evs, kinds);
    DriftIffOneKind(evs, tenant);
    UsageAlways(evs);
    DriftExact(After(evs).db.rows, After(evs).db.books.usage, tenant);
  }

  // ---------------------------------------------------------------- When nothing is left to meter

  /** At some moment a process that finalized the job was told "ok". */
  ghost predicate FinalizedOk(evs: seq<Event>, j: string) {
    exists n: nat, p: nat :: n <= |evs| && ToldOk(evs[..n], p, j)
  }

  predicate ToldOk(evs: seq<Event>, p: nat, j: string) {
    Valid(evs) && p in After(evs).procs
    && var q := After(evs).procs[p]; q.job == j && q.stage.Deciding? && q.stage.result == BilledOk
  }

  lemma {:induction false} UsageKept(evs: seq<Event>, n: nat)
    requires Valid(evs) && n <= |evs| && Valid(evs[..n])
    ensures After(evs[..n]).db.books.usage <= After(evs).db.books.usage
    ensures forall j | j in After(evs[..n]).db.jobs :: j in After(evs).db.jobs && After(evs).db.jobs[j].tenant == After(evs[..n]).db.jobs[j].tenant
    decreases |evs|
  {
    if n == |evs| {
      assert evs[..n] == evs;
    } else {
      var (front, ev) := (evs[..|evs| - 1], evs[|evs| - 1]);
      assert front[..n] == evs[..n];
      UsageKept(front, n);
      UsageGrows(After(front), ev);
      UsageAlways(front);
      TenantsStay(After(front), ev);
    }
  }

  lemma FinalizedIsMetered(evs: seq<Event>, j: string)
    requires Valid(evs) && FinalizedOk(evs, j)
    ensures j in After(evs).db.jobs && exists u | u in After(evs).db.books.usage :: IsFor(u, After(evs).db.jobs[j].tenant, j)
  {
    var n: nat, p: nat :| n <= |evs| && ToldOk(evs[..n], p, j);
    UsageAlways(evs[..n]);
    UsageKept(evs, n);
    var s := After(evs[..n]);
    assert ProcUsage(s, s.procs[p]);
    var u :| u in s.db.books.usage && SameEvent(u, Usage(s.db.jobs[j].tenant, j, s.procs[p].kind, s.procs[p].amount));
    assert u in After(evs).db.books.usage;
  }

  /** Once every debited job of the tenant has had a finalize that returned "ok", and each was on
      one kind of backend, debits and usage are equal. */
  lemma AllFinalizedNoDrift(evs: seq<Event>, kinds: string -> EventKind, tenant: string)
    requires OneBackend(evs, kinds)
    requires forall e | e in After(evs).db.rows && e.tenant == tenant && e.meta.ForJob? :: FinalizedOk(evs, e.meta.job)
    ensures SumDebit(After(evs).db.rows, tenant) == SumUsage(After(evs).db.books.usage, tenant)
  {
    var db := After(evs).db;
    OneBackendReconciles(evs, kinds, tenant);
    UsageAlways(evs);
    forall e | e in db.rows && e.tenant == tenant && e.meta.ForJob?
      ensures exists u | u in db.books.usage :: IsFor(u, tenant, e.meta.job)
    {
      assert DebitHome(After(evs), e);
      FinalizedIsMetered(evs, e.meta.job);
    }
    AllMetered(db.rows, db.books.usage, tenant);
  }
}
