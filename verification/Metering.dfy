/** Usage events and per-tenant totals, and how they add up against the ledger. */
module Metering {
  import opened Basics
  import opened Ledger

  datatype EventKind = GpuExecution | CpuExecution | TokenUsage

  datatype Usage = Usage(tenant: string, job: string, kind: EventKind, cost: nat)

  /** Only these ids are covered by the unique index on (tenant, job, event type). */
  predicate RealJob(job: string) { job != "" && job != "manual" && job != "auto" }

  predicate SameEvent(a: Usage, b: Usage) { a.tenant == b.tenant && a.job == b.job && a.kind == b.kind }

  function HasEvent(usage: seq<Usage>, u: Usage): (r: bool)
    ensures r <==> exists v | v in usage :: SameEvent(v, u)
  {
    if usage == [] then false
    else
      assert usage == usage[..|usage| - 1] + [usage[|usage| - 1]];
      SameEvent(usage[|usage| - 1], u) || HasEvent(usage[..|usage| - 1], u)
  }

  function TotalOf(totals: map<string, nat>, tenant: string): nat {
    if tenant in totals then totals[tenant] else 0
  }

  function CostFor(u: Usage, tenant: string): nat { if u.tenant == tenant then u.cost else 0 }

  function SumUsage(usage: seq<Usage>, tenant: string): nat {
    if usage == [] then 0
    else SumUsage(usage[..|usage| - 1], tenant) + CostFor(usage[|usage| - 1], tenant)
  }

  predicate Inserts(usage: seq<Usage>, u: Usage) { RealJob(u.job) ==> !HasEvent(usage, u) }

  datatype Books = Books(usage: seq<Usage>, totals: map<string, nat>)

  datatype RecordOutcome = Recorded(inserted: bool) | NotPersisted

  /** `record`: the usage row and the totals row are written by one transaction. */
  function RecordSpec(b: Books, u: Usage, f: Fault): (Books, RecordOutcome) {
    var after :=
      if f.Commits() && Inserts(b.usage, u)
      then Books(b.usage + [u], b.totals[u.tenant := TotalOf(b.totals, u.tenant) + u.cost])
      else b;
    (after, if f == Fine then Recorded(Inserts(b.usage, u)) else NotPersisted)
  }

  ghost predicate TotalsMatch(b: Books) {
    forall t: string :: TotalOf(b.totals, t) == SumUsage(b.usage, t)
  }

  ghost predicate UniqueEvents(usage: seq<Usage>) {
    forall i, k | 0 <= i < k < |usage| && RealJob(usage[i].job) :: !SameEvent(usage[i], usage[k])
  }

  /** Every usage row repeats, to the unit, a debit of the same tenant and job. */
  ghost predicate Backed(rows: seq<Entry>, usage: seq<Usage>) {
    forall u | u in usage :: DebitEntry(u.tenant, u.job, u.cost) in rows
  }

  /** The totals follow the usage rows through every failure of the transaction. */
  lemma RecordKeepsBooks(b: Books, u: Usage, f: Fault)
    requires TotalsMatch(b) && UniqueEvents(b.usage)
    ensures TotalsMatch(RecordSpec(b, u, f).0) && UniqueEvents(RecordSpec(b, u, f).0.usage)
    ensures RecordSpec(b, u, f).1.Recorded? ==> HasEvent(RecordSpec(b, u, f).0.usage, u)
  {
    var b' := RecordSpec(b, u, f).0;
    if b' != b {
      assert b'.usage[..|b.usage|] == b.usage;
      forall i, k | 0 <= i < k < |b'.usage| && RealJob(b'.usage[i].job)
        ensures !SameEvent(b'.usage[i], b'.usage[k])
      {
        if k == |b.usage| { assert b.usage[i] in b.usage; }
      }
    }
  }

  /** The row is stored, and its cost added to its tenant's total, when the transaction commits and
      the event of a real job is new; nothing else moves, and what is told is what happened. */
  lemma RecordExactly(b: Books, u: Usage, f: Fault, tenant: string)
    ensures
      var (after, o) := RecordSpec(b, u, f);
      var known := u.job !in {"", "manual", "auto"}
                   && exists v | v in b.usage :: v.tenant == u.tenant && v.job == u.job && v.kind == u.kind;
      && after.usage == (if f != Lost && !known then b.usage + [u] else b.usage)
      && TotalOf(after.totals, tenant) == TotalOf(b.totals, tenant) + (if f != Lost && !known && u.tenant == tenant then u.cost else 0)
      && o == (if f == Fine then Recorded(!known) else NotPersisted)
  {
    if HasEvent(b.usage, u) {
      var v :| v in b.usage && SameEvent(v, u);
      assert v.tenant == u.tenant && v.job == u.job && v.kind == u.kind;
    }
  }

  // ----- usage against debits

  predicate IsFor(u: Usage, tenant: string, job: string) { u.tenant == tenant && u.job == job }

  function Count(usage: seq<Usage>, tenant: string, job: string): nat {
    if usage == [] then 0
    else
      var u := usage[|usage| - 1];
      Count(usage[..|usage| - 1], tenant, job) + if IsFor(u, tenant, job) then 1 else 0
  }

  /** Each debit of the tenant, as often as its job was metered. */
  function Metered(rows: seq<Entry>, usage: seq<Usage>, tenant: string): nat {
    if rows == [] then 0
    else
      var e := rows[|rows| - 1];
      Metered(rows[..|rows| - 1], usage, tenant)
      + if e.tenant == tenant && e.meta.ForJob? then e.amount * Count(usage, tenant, e.meta.job) else 0
  }

  /** The debits of jobs that have no usage row. */
  function Unmetered(rows: seq<Entry>, usage: seq<Usage>, tenant: string): nat {
    if rows == [] then 0
    else
      var e := rows[|rows| - 1];
      Unmetered(rows[..|rows| - 1], usage, tenant)
      + if e.tenant == tenant && e.meta.ForJob? && Count(usage, tenant, e.meta.job) == 0 then e.amount else 0
  }

  /** The debits of jobs metered more than once, once for every extra time. */
  function Repeated(rows: seq<Entry>, usage: seq<Usage>, tenant: string): nat {
    if rows == [] then 0
    else
      var e := rows[|rows| - 1];
      Repeated(rows[..|rows| - 1], usage, tenant)
      + if e.tenant == tenant && e.meta.ForJob? && Count(usage, tenant, e.meta.job) > 1
        then e.amount * (Count(usage, tenant, e.meta.job) - 1) else 0
  }

  lemma {:induction false} MeterOnce(rows: seq<Entry>, usage: seq<Usage>, u: Usage, tenant: string)
    requires DistinctIds(rows) && WellKeyed(rows)
    ensures Metered(rows, usage + [u], tenant) == Metered(rows, usage, tenant)
      + if u.tenant != tenant then 0 else RowAmount(FindRow(rows, DebitId(tenant, u.job)), tenant, ForJob(u.job))
  {
    if rows != [] {
      var e := rows[|rows| - 1];
      PrefixSound(rows);
      MeterOnce(rows[..|rows| - 1], usage, u, tenant);
      assert e in rows;
      assert KeyedRow(e);
      assert (usage + [u])[..|usage|] == usage;
      if e.meta.ForJob? {
        var c, c' := Count(usage, tenant, e.meta.job), Count(usage + [u], tenant, e.meta.job);
        assert e.amount * (c + 1) == e.amount * c + e.amount;
      }
    }
  }

  lemma {:induction false} NothingMetered(rows: seq<Entry>, tenant: string)
    ensures Metered(rows, [], tenant) == 0
  {
    if rows != [] { NothingMetered(rows[..|rows| - 1], tenant); }
  }

  /** The usage table charges every debit as often as it metered its job, and nothing else. */
  lemma {:induction false} UsageIsMeteredDebits(rows: seq<Entry>, usage: seq<Usage>, tenant: string)
    requires DistinctIds(rows) && WellKeyed(rows) && Backed(rows, usage)
    ensures SumUsage(usage, tenant) == Metered(rows, usage, tenant)
  {
    if usage == [] {
      NothingMetered(rows, tenant);
    } else {
      var front, u := usage[..|usage| - 1], usage[|usage| - 1];
      assert usage == front + [u];
      UsageIsMeteredDebits(rows, front, tenant);
      MeterOnce(rows, front, u, tenant);
      var d := DebitEntry(u.tenant, u.job, u.cost);
      assert u in usage && d in rows;
      UniqueRow(rows, FindRow(rows, d.id).value, d);
    }
  }

  lemma {:induction false} DebitsSplit(rows: seq<Entry>, usage: seq<Usage>, tenant: string)
    requires WellKeyed(rows)
    ensures SumDebit(rows, tenant) + Repeated(rows, usage, tenant)
         == Metered(rows, usage, tenant) + Unmetered(rows, usage, tenant)
  {
    if rows != [] {
      var e := rows[|rows| - 1];
      assert e in rows;
      assert KeyedRow(e);
      assert forall x | x in rows[..|rows| - 1] :: x in rows;
      DebitsSplit(rows[..|rows| - 1], usage, tenant);
      if e.meta.ForJob? {
        var c := Count(usage, tenant, e.meta.job);
        if c > 1 { assert e.amount * c == e.amount * (c - 1) + e.amount; }
      }
    }
  }

  /** Reconciliation: the drift of a tenant is what it was debited for unmetered jobs, less what
      was metered twice over. */
  lemma DriftExact(rows: seq<Entry>, usage: seq<Usage>, tenant: string)
    requires DistinctIds(rows) && WellKeyed(rows) && Backed(rows, usage)
    ensures SumDebit(rows, tenant) - SumUsage(usage, tenant)
         == Unmetered(rows, usage, tenant) - Repeated(rows, usage, tenant)
  {
    UsageIsMeteredDebits(rows, usage, tenant);
    DebitsSplit(rows, usage, tenant);
  }

  /** One event type per job: no two usage rows of a job differ in kind. */
  ghost predicate OneKind(usage: seq<Usage>, tenant: string, job: string) {
    forall u, v | u in usage && v in usage && IsFor(u, tenant, job) && IsFor(v, tenant, job) :: u.kind == v.kind
  }

  lemma {:induction false} CountIsZero(usage: seq<Usage>, tenant: string, job: string)
    ensures Count(usage, tenant, job) == 0 <==> forall u | u in usage :: !IsFor(u, tenant, job)
  {
    if usage != [] {
      var front, last := usage[..|usage| - 1], usage[|usage| - 1];
      assert usage == front + [last];
      assert forall u :: u in usage <==> u in front || u == last;
      CountIsZero(front, tenant, job);
    }
  }

  lemma RepeatIsAnotherKind(front: seq<Usage>, u: Usage, v: Usage)
    requires UniqueEvents(front + [u]) && RealJob(u.job)
    requires v in front && IsFor(v, u.tenant, u.job)
    ensures v.kind != u.kind
  {
    var i :| 0 <= i < |front| && front[i] == v;
    assert (front + [u])[i] == v && (front + [u])[|front|] == u;
  }

  lemma {:induction false} MeteredAtMostOnce(usage: seq<Usage>, tenant: string, job: string)
    requires UniqueEvents(usage) && RealJob(job)
    ensures Count(usage, tenant, job) <= 1 <==> OneKind(usage, tenant, job)
  {
    if usage != [] {
      var front, u := usage[..|usage| - 1], usage[|usage| - 1];
      assert usage == front + [u];
      assert forall v :: v in usage <==> v in front || v == u;
      MeteredAtMostOnce(front, tenant, job);
      CountIsZero(front, tenant, job);
      if IsFor(u, tenant, job) && Count(front, tenant, job) > 0 {
        var v :| v in front && IsFor(v, tenant, job);
        RepeatIsAnotherKind(front, u, v);
      }
    }
  }

  /** Every debited job of the tenant keeps one event type. */
  ghost predicate OneKindEach(rows: seq<Entry>, usage: seq<Usage>, tenant: string) {
    forall e | e in rows && e.tenant == tenant && e.meta.ForJob? ::
      RealJob(e.meta.job) && OneKind(usage, tenant, e.meta.job)
  }

  lemma {:induction false} AllMetered(rows: seq<Entry>, usage: seq<Usage>, tenant: string)
    requires forall e | e in rows && e.tenant == tenant && e.meta.ForJob? ::
               exists u | u in usage :: IsFor(u, tenant, e.meta.job)
    ensures Unmetered(rows, usage, tenant) == 0
  {
    if rows != [] {
      var e := rows[|rows| - 1];
      assert e in rows;
      assert forall x | x in rows[..|rows| - 1] :: x in rows;
      AllMetered(rows[..|rows| - 1], usage, tenant);
      if e.tenant == tenant && e.meta.ForJob? { CountIsZero(usage, tenant, e.meta.job); }
    }
  }

  lemma CountMeansRow(usage: seq<Usage>, tenant: string, job: string)
    requires Count(usage, tenant, job) > 0
    ensures exists u | u in usage :: IsFor(u, tenant, job)
  {
    CountIsZero(usage, tenant, job);
  }

  /** What is paid and metered was metered once each if and only if it kept one event type. */
  lemma {:induction false} RepeatedIffKinds(rows: seq<Entry>, usage: seq<Usage>, tenant: string)
    requires UniqueEvents(usage)
    requires forall e | e in rows && e.meta.ForJob? :: RealJob(e.meta.job)
    requires forall e, u | e in rows && u in usage && e.meta.ForJob? && IsFor(u, e.tenant, e.meta.job) :: e.amount > 0
    ensures Repeated(rows, usage, tenant) == 0 <==> OneKindEach(rows, usage, tenant)
  {
    if rows != [] {
      var (front, e) := (rows[..|rows| - 1], rows[|rows| - 1]);
      assert rows == front + [e];
      assert forall x :: x in rows <==> x in front || x == e;
      RepeatedIffKinds(front, usage, tenant);
      if e.tenant == tenant && e.meta.ForJob? {
        var c := Count(usage, tenant, e.meta.job);
        MeteredAtMostOnce(usage, tenant, e.meta.job);
        if c > 1 {
          CountMeansRow(usage, tenant, e.meta.job);
          assert e.amount * (c - 1) > 0;
        }
      }
    }
  }

  class PGMeteringEngine {
    var books: Books

    ghost predicate Valid() reads this { TotalsMatch(books) && UniqueEvents(books.usage) }

    constructor ()
      ensures Valid() && books == Books([], map[])
    {
      books := Books([], map[]);
    }

    method Record(u: Usage, f: Fault) returns (o: RecordOutcome)
      requires Valid()
      modifies this
      ensures Valid()
      ensures (books, o) == RecordSpec(old(books), u, f)
    {
      RecordKeepsBooks(books, u, f);
      var inserted := Inserts(books.usage, u);
      if f.Commits() && inserted {
        var total := TotalOf(books.totals, u.tenant);
        books := Books(books.usage + [u], books.totals[u.tenant := total + u.cost]);
      }
      o := if f == Fine then Recorded(inserted) else NotPersisted;
    }
  }
}
