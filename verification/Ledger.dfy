/** The append-only ledger: `ledger_entries` and the operations of `PGBillingLedger`.
    Money is a whole number of units of 1e-8 USD; rows are kept in insertion order. */
module Ledger {
  import opened Basics
  import opened LedgerKeys

  datatype EntryType = CREDIT | DEBIT

  /** `led-<sha256 prefix>` of a preimage, or a fresh random id. */
  datatype LedgerId = Hashed(preimage: string) | Random(nonce: nat)

  /** The metadata the protocol reads back: the job debited, or the job refunded. */
  datatype Meta = ForJob(job: string) | RefundFor(job: string) | Plain

  datatype Entry = Entry(id: LedgerId, tenant: string, kind: EntryType, amount: nat, meta: Meta)

  function DebitId(tenant: string, job: string): LedgerId {
    Hashed(JobPreimage(tenant, JobDebit, job))
  }

  function RefundId(tenant: string, job: string): LedgerId {
    Hashed(JobPreimage(tenant, JobRefund, job))
  }

  function DebitEntry(tenant: string, job: string, amount: nat): Entry {
    Entry(DebitId(tenant, job), tenant, DEBIT, amount, ForJob(job))
  }

  function RefundEntry(tenant: string, job: string, amount: nat): Entry {
    Entry(RefundId(tenant, job), tenant, CREDIT, amount, RefundFor(job))
  }

  /** A credit made by an administrator, with or without an idempotency key. */
  function TopUpEntry(tenant: string, amount: nat, key: string, nonce: nat): Entry {
    Entry(if key == "" then Random(nonce) else Hashed(Preimage(tenant, key)), tenant, CREDIT, amount, Plain)
  }

  // ----- reading the table

  function FindRow(rows: seq<Entry>, id: LedgerId): (r: Option<Entry>)
    ensures r.Some? ==> r.value in rows && r.value.id == id
    ensures r.None? ==> forall e | e in rows :: e.id != id
  {
    if rows == [] then None
    else if rows[|rows| - 1].id == id then Some(rows[|rows| - 1])
    else
      var r := FindRow(rows[..|rows| - 1], id);
      assert rows == rows[..|rows| - 1] + [rows[|rows| - 1]];
      r
  }

  function Signed(e: Entry, tenant: string): int {
    if e.tenant != tenant then 0 else if e.kind == CREDIT then e.amount else 0 - e.amount
  }

  function Balance(rows: seq<Entry>, tenant: string): int {
    if rows == [] then 0
    else Balance(rows[..|rows| - 1], tenant) + Signed(rows[|rows| - 1], tenant)
  }

  function DebitOf(e: Entry, tenant: string): nat {
    if e.tenant == tenant && e.kind == DEBIT then e.amount else 0
  }

  function SumDebit(rows: seq<Entry>, tenant: string): nat {
    if rows == [] then 0
    else SumDebit(rows[..|rows| - 1], tenant) + DebitOf(rows[|rows| - 1], tenant)
  }

  /** The CREDIT rows of the tenant, each for its own amount. */
  function SumCredit(rows: seq<Entry>, tenant: string): nat {
    if rows == [] then 0
    else SumCredit(rows[..|rows| - 1], tenant)
         + if rows[|rows| - 1].tenant == tenant && rows[|rows| - 1].kind == CREDIT then rows[|rows| - 1].amount else 0
  }

  /** What the job has cost its tenant so far: its debits minus its refunds. */
  function NetCharge(rows: seq<Entry>, tenant: string, job: string): int {
    if rows == [] then 0
    else
      var e := rows[|rows| - 1];
      NetCharge(rows[..|rows| - 1], tenant, job)
      + if e.tenant == tenant && e.kind == DEBIT && e.meta == ForJob(job) then e.amount
        else if e.tenant == tenant && e.kind == CREDIT && e.meta == RefundFor(job) then 0 - e.amount
        else 0
  }

  datatype Lookup = Absent | Match | Mismatch

  /** `_ledger_idem_lookup`: the row under the key, compared with the expected debit. */
  function IdemLookup(rows: seq<Entry>, tenant: string, job: string, amount: nat): Lookup {
    match FindRow(rows, DebitId(tenant, job))
    case None => Absent
    case Some(e) =>
      if e.tenant != tenant then Absent
      else if e.kind == DEBIT && e.amount == amount && e.meta == ForJob(job) then Match
      else Mismatch
  }

  // ----- writing the table

  /** The conditional insert: the tenant's balance must cover the amount, and an
      existing row under the same id makes it a no-op. */
  function InsertIfFunds(rows: seq<Entry>, e: Entry): seq<Entry> {
    if FindRow(rows, e.id).None? && Balance(rows, e.tenant) >= e.amount then rows + [e] else rows
  }

  /** INSERT ... ON CONFLICT (ledger_id) DO NOTHING. */
  function InsertIgnore(rows: seq<Entry>, e: Entry): seq<Entry> {
    if FindRow(rows, e.id).None? then rows + [e] else rows
  }

  datatype DebitOutcome = Debited(isNew: bool) | NoFunds | IdemMismatch | Unavailable | Rejected

  /** `debit_if_funds` for a job: the transaction, then the re-check by ledger id when the
      transaction raised or inserted nothing. */
  function DebitSpec(rows: seq<Entry>, tenant: string, job: string, amount: int, txn: Fault, look: Fault)
    : (seq<Entry>, DebitOutcome)
  {
    if amount < 0 || job == "" then (rows, Rejected)
    else
      var after := if txn.Commits() then InsertIfFunds(rows, DebitEntry(tenant, job, amount)) else rows;
      if txn == Fine && after != rows then (after, Debited(true))
      else if look != Fine then (after, Unavailable)
      else
        match IdemLookup(after, tenant, job, amount)
        case Match => (after, Debited(txn != Fine))
        case Mismatch => (after, IdemMismatch)
        case Absent => (after, if txn == Fine then NoFunds else Unavailable)
  }

  datatype CreditOutcome = Credited(id: LedgerId) | CreditUnavailable | CreditRejected

  /** `credit`: insert-or-ignore, then the lookup that turns a conflict into success. */
  function CreditSpec(rows: seq<Entry>, e: Entry, ins: Fault, look: Fault): (seq<Entry>, CreditOutcome)
  {
    var after := if ins.Commits() then InsertIgnore(rows, e) else rows;
    if ins != Fine then (after, CreditUnavailable)
    else if after != rows then (after, Credited(e.id))
    else if e.id.Random? || look != Fine then (after, CreditUnavailable)
    else
      match FindRow(after, e.id)
      case Some(r) => if r.tenant == e.tenant then (after, Credited(e.id)) else (after, CreditUnavailable)
      case None => (after, CreditUnavailable)
  }

  // ----- what every operation keeps

  ghost predicate DistinctIds(rows: seq<Entry>) {
    forall i, k | 0 <= i < k < |rows| :: rows[i].id != rows[k].id
  }

  /** Debits and refunds sit under the key of their own job. */
  ghost predicate WellKeyed(rows: seq<Entry>) {
    forall e | e in rows :: KeyedRow(e)
  }

  ghost predicate KeyedRow(e: Entry) {
    && (e.kind == DEBIT ==> e.meta.ForJob? && e.id == DebitId(e.tenant, e.meta.job))
    && (e.meta.ForJob? ==> e.kind == DEBIT)
    && (e.meta.RefundFor? ==> e.kind == CREDIT && e.id == RefundId(e.tenant, e.meta.job))
  }

  ghost predicate RefundsPaired(rows: seq<Entry>) {
    forall e | e in rows && e.meta.RefundFor? :: DebitEntry(e.tenant, e.meta.job, e.amount) in rows
  }

  ghost predicate Solvent(rows: seq<Entry>) {
    forall t: string :: Balance(rows, t) >= 0
  }

  ghost predicate Sound(rows: seq<Entry>) {
    DistinctIds(rows) && WellKeyed(rows) && RefundsPaired(rows) && Solvent(rows)
  }

  /** The step every committed write takes, if any: one row is added at the end. */
  ghost predicate Grows(rows: seq<Entry>, after: seq<Entry>, e: Entry) {
    after == rows || (after == rows + [e] && FindRow(rows, e.id).None?)
  }

  lemma BalanceAppend(rows: seq<Entry>, e: Entry, tenant: string)
    ensures Balance(rows + [e], tenant) == Balance(rows, tenant) + Signed(e, tenant)
    ensures SumDebit(rows + [e], tenant) == SumDebit(rows, tenant) + DebitOf(e, tenant)
  {
    assert (rows + [e])[..|rows|] == rows;
  }

  /** The balance is what was credited less what was debited, every row counted once. */
  lemma {:induction false} BalanceIsSums(rows: seq<Entry>, tenant: string)
    ensures Balance(rows, tenant) == SumCredit(rows, tenant) - SumDebit(rows, tenant)
  {
    if rows != [] { BalanceIsSums(rows[..|rows| - 1], tenant); }
  }

  lemma SumsAppend(rows: seq<Entry>, e: Entry, tenant: string)
    ensures SumCredit(rows + [e], tenant) == SumCredit(rows, tenant) + if e.tenant == tenant && e.kind == CREDIT then e.amount else 0
    ensures SumDebit(rows + [e], tenant) == SumDebit(rows, tenant) + if e.tenant == tenant && e.kind == DEBIT then e.amount else 0
  {
    assert (rows + [e])[..|rows|] == rows;
  }

  lemma {:induction false} BalanceConcat(rows: seq<Entry>, more: seq<Entry>, tenant: string)
    ensures Balance(rows + more, tenant) == Balance(rows, tenant) + Balance(more, tenant)
  {
    if more == [] {
      assert rows + more == rows;
    } else {
      BalanceConcat(rows, more[..|more| - 1], tenant);
      assert (rows + more)[..|rows + more| - 1] == rows + more[..|more| - 1];
    }
  }

  /** A refund restores exactly what its debit took, whatever was booked in between, and touches no
      other tenant. */
  lemma RefundRestores(rows: seq<Entry>, between: seq<Entry>, tenant: string, job: string, amount: nat, t: string)
    ensures Balance(rows + [DebitEntry(tenant, job, amount)], tenant) == Balance(rows, tenant) - amount
    ensures Balance(rows + [DebitEntry(tenant, job, amount)] + between + [RefundEntry(tenant, job, amount)], t)
         == Balance(rows + between, t)
  {
    var (d, r) := (DebitEntry(tenant, job, amount), RefundEntry(tenant, job, amount));
    BalanceAppend(rows, d, t);
    BalanceAppend(rows, d, tenant);
    BalanceConcat(rows + [d], between, t);
    BalanceAppend(rows + [d] + between, r, t);
    BalanceConcat(rows, between, t);
  }

  lemma DistinctAppend(rows: seq<Entry>, e: Entry)
    requires DistinctIds(rows) && FindRow(rows, e.id).None?
    ensures DistinctIds(rows + [e])
  {
    forall i, k | 0 <= i < k < |rows + [e]|
      ensures (rows + [e])[i].id != (rows + [e])[k].id
    {
      if k == |rows| { assert rows[i] in rows; }
    }
  }

  lemma UniqueRow(rows: seq<Entry>, a: Entry, b: Entry)
    requires DistinctIds(rows) && a in rows && b in rows && a.id == b.id
    ensures a == b
  {
    var i :| 0 <= i < |rows| && rows[i] == a;
    var k :| 0 <= k < |rows| && rows[k] == b;
  }

  /** At most one DEBIT row per tenant and job, wherever in the table it stands. */
  lemma OneDebitPerJob(rows: seq<Entry>, i: nat, k: nat)
    requires DistinctIds(rows) && WellKeyed(rows)
    requires i < |rows| && k < |rows|
    requires rows[i].kind == DEBIT && rows[k].kind == DEBIT
    requires rows[i].tenant == rows[k].tenant && rows[i].meta == rows[k].meta
    ensures i == k
  {
    assert rows[i] in rows && rows[k] in rows;
    assert KeyedRow(rows[i]) && KeyedRow(rows[k]);
    assert rows[i].id == rows[k].id;
  }

  /** Adding an allowed row keeps the table sound. */
  lemma AppendSound(rows: seq<Entry>, e: Entry)
    requires Sound(rows) && FindRow(rows, e.id).None? && KeyedRow(e)
    requires e.kind == DEBIT ==> Balance(rows, e.tenant) >= e.amount
    requires e.meta.RefundFor? ==> DebitEntry(e.tenant, e.meta.job, e.amount) in rows
    ensures Sound(rows + [e])
  {
    DistinctAppend(rows, e);
    forall t: string
      ensures Balance(rows + [e], t) >= 0
    {
      BalanceAppend(rows, e, t);
    }
  }

  lemma InsertIfFundsSound(rows: seq<Entry>, tenant: string, job: string, amount: nat)
    requires Sound(rows)
    ensures
      var e := DebitEntry(tenant, job, amount);
      var after := InsertIfFunds(rows, e);
      Sound(after) && Grows(rows, after, e) && (after != rows ==> e in after)
  {
    var e := DebitEntry(tenant, job, amount);
    if FindRow(rows, e.id).None? && Balance(rows, tenant) >= amount {
      AppendSound(rows, e);
    }
  }

  lemma LookupMeans(rows: seq<Entry>, tenant: string, job: string, amount: nat)
    ensures IdemLookup(rows, tenant, job, amount).Match? ==> DebitEntry(tenant, job, amount) in rows
    ensures IdemLookup(rows, tenant, job, amount).Mismatch? ==> MismatchRow(rows, tenant, job, amount)
  {
    var r := FindRow(rows, DebitId(tenant, job));
    if r.Some? && r.value.tenant == tenant && r.value.meta == ForJob(job) {
      assert r.value == Entry(DebitId(tenant, job), tenant, r.value.kind, r.value.amount, ForJob(job));
    }
  }

  /** The tenant's row under the job's key that is not the expected debit. */
  ghost predicate MismatchRow(rows: seq<Entry>, tenant: string, job: string, amount: nat) {
    exists e | e in rows ::
      e.id == DebitId(tenant, job) && e.tenant == tenant && e != DebitEntry(tenant, job, amount)
  }

  /** What `debit_if_funds` reports is what the table holds, under every pattern of faults. */
  lemma DebitOutcomeIsDurable(rows: seq<Entry>, tenant: string, job: string, amount: nat, txn: Fault, look: Fault)
    requires Sound(rows)
    ensures
      var (after, o) := DebitSpec(rows, tenant, job, amount, txn, look);
      && Sound(after)
      && Grows(rows, after, DebitEntry(tenant, job, amount))
      && (o.Debited? ==> DebitEntry(tenant, job, amount) in after)
      && (o.IdemMismatch? ==> MismatchRow(after, tenant, job, amount))
      && (o.NoFunds? || o.Rejected? ==> after == rows)
  {
    var e := DebitEntry(tenant, job, amount);
    var after := if txn.Commits() then InsertIfFunds(rows, e) else rows;
    AfterInsert(rows, tenant, job, amount, after);
    LookupMeans(after, tenant, job, amount);
  }

  lemma AfterInsert(rows: seq<Entry>, tenant: string, job: string, amount: nat, after: seq<Entry>)
    requires Sound(rows) && (after == rows || after == InsertIfFunds(rows, DebitEntry(tenant, job, amount)))
    ensures Sound(after) && Grows(rows, after, DebitEntry(tenant, job, amount))
    ensures after != rows ==> DebitEntry(tenant, job, amount) in after && IdemLookup(after, tenant, job, amount) == Match
  {
    InsertIfFundsSound(rows, tenant, job, amount);
    if after != rows { AppendedIsFound(rows, DebitEntry(tenant, job, amount)); }
  }

  ghost predicate Unshared(rows: seq<Entry>, tenant: string, id: LedgerId) {
    forall e | e in rows && e.id == id :: e.tenant == tenant
  }

  /** The tenant has no row under the id; another tenant may. */
  ghost predicate Unheld(rows: seq<Entry>, tenant: string, id: LedgerId) {
    forall e | e in rows && e.id == id :: e.tenant != tenant
  }

  ghost predicate Free(rows: seq<Entry>, id: LedgerId) {
    forall e | e in rows :: e.id != id
  }

  /** For every pattern of faults each answer means exactly one thing, also when another tenant
      holds the id. The row is added when the transaction commits, the key is free and the tenant's credits
      cover its debits and this one; what is reported is what the transaction or the re-check saw. */
  lemma DebitExactly(rows: seq<Entry>, tenant: string, job: string, amount: nat, txn: Fault, look: Fault)
    requires Sound(rows) && job != ""
    ensures
      var (after, o) := DebitSpec(rows, tenant, job, amount, txn, look);
      var e := DebitEntry(tenant, job, amount);
      var inserted := txn != Lost && Free(rows, e.id) && SumDebit(rows, tenant) + amount <= SumCredit(rows, tenant);
      var told := txn == Fine && inserted;
      && after == (if inserted then rows + [e] else rows)
      && (o == Debited(true) <==> told || (txn != Fine && look == Fine && e in after))
      && (o == Debited(false) <==> txn == Fine && look == Fine && e in rows)
      && (o == IdemMismatch <==> look == Fine && MismatchRow(rows, tenant, job, amount))
      && (o == NoFunds <==> txn == Fine && look == Fine && !inserted && Unheld(rows, tenant, e.id))
      && (o == Unavailable <==> !told && (look != Fine || (txn != Fine && Unheld(after, tenant, e.id))))
  {
    var e := DebitEntry(tenant, job, amount);
    InsertExactly(rows, e);
    LookupExactly(rows, tenant, job, amount);
    if Free(rows, e.id) { LookupAppended(rows, tenant, job, amount); }
  }

  lemma InsertExactly(rows: seq<Entry>, e: Entry)
    ensures InsertIfFunds(rows, e)
         == if Free(rows, e.id) && SumDebit(rows, e.tenant) + e.amount <= SumCredit(rows, e.tenant) then rows + [e] else rows
  {
    BalanceIsSums(rows, e.tenant);
  }

  lemma LookupExactly(rows: seq<Entry>, tenant: string, job: string, amount: nat)
    requires Sound(rows)
    ensures
      var (e, l) := (DebitEntry(tenant, job, amount), IdemLookup(rows, tenant, job, amount));
      && (l == Absent <==> Unheld(rows, tenant, e.id))
      && (l == Match <==> e in rows)
      && (l == Mismatch <==> MismatchRow(rows, tenant, job, amount))
  {
    var r := FindRow(rows, DebitId(tenant, job));
    LookupMeans(rows, tenant, job, amount);
    if r.Some? {
      forall x | x in rows && x.id == DebitId(tenant, job)
        ensures x == r.value
      {
        UniqueRow(rows, x, r.value);
      }
    }
  }

  lemma LookupAppended(rows: seq<Entry>, tenant: string, job: string, amount: nat)
    requires Free(rows, DebitId(tenant, job))
    ensures
      var e := DebitEntry(tenant, job, amount);
      IdemLookup(rows + [e], tenant, job, amount) == Match && e in rows + [e] && e !in rows
      && !MismatchRow(rows, tenant, job, amount) && !Unheld(rows + [e], tenant, e.id)
  {
    AppendedIsFound(rows, DebitEntry(tenant, job, amount));
  }

  lemma AppendedIsFound(rows: seq<Entry>, e: Entry)
    ensures FindRow(rows + [e], e.id) == Some(e) && e in rows + [e]
  {
  }

  /** No job id in the ledger is ambiguous and no top-up key spells out the key of any job. */
  ghost predicate Separate(rows: seq<Entry>) {
    && (forall e | e in rows && !e.meta.Plain? :: Unambiguous(e.meta.job))
    && (forall e, t: string, k: KeyKind, j: string | e in rows && e.meta.Plain? :: e.id != Hashed(JobPreimage(t, k, j)))
  }

  /** Then the keys of a job are never shared between tenants. */
  lemma JobKeyUnshared(rows: seq<Entry>, tenant: string, k: KeyKind, job: string)
    requires WellKeyed(rows) && Separate(rows) && Unambiguous(job)
    ensures Unshared(rows, tenant, Hashed(JobPreimage(tenant, k, job)))
  {
    forall e | e in rows && e.id == Hashed(JobPreimage(tenant, k, job))
      ensures e.tenant == tenant
    {
      assert KeyedRow(e);
      PreimageInjective(tenant, k, job, e.tenant, if e.kind == DEBIT then JobDebit else JobRefund, e.meta.job);
    }
  }

  /** A job is billed once and for one amount: repeating the debit changes nothing whatever
      fails, and asking for another amount is a mismatch, never a second row. */
  lemma DebitIsIdempotent(rows: seq<Entry>, tenant: string, job: string, amount: nat, other: nat,
                          txn: Fault, look: Fault)
    requires Sound(rows) && DebitEntry(tenant, job, amount) in rows && job != ""
    ensures DebitSpec(rows, tenant, job, other, txn, look)
         == (rows, if look != Fine then Unavailable
                   else if other == amount then Debited(txn != Fine) else IdemMismatch)
  {
    var e := DebitEntry(tenant, job, amount);
    assert FindRow(rows, e.id).Some?;
    UniqueRow(rows, FindRow(rows, e.id).value, e);
  }

  /** What `credit` reports is what the table holds. */
  lemma CreditOutcomeIsDurable(rows: seq<Entry>, e: Entry, ins: Fault, look: Fault)
    requires Sound(rows) && KeyedRow(e) && e.kind == CREDIT
    requires e.meta.RefundFor? ==> DebitEntry(e.tenant, e.meta.job, e.amount) in rows
    ensures
      var (after, o) := CreditSpec(rows, e, ins, look);
      && Sound(after)
      && rows <= after && Grows(rows, after, e)
      && (ins.Commits() && FindRow(rows, e.id).None? ==> after == rows + [e] && (ins == Fine ==> o.Credited?))
      && (o.Credited? ==> o.id == e.id && exists r | r in after :: r.id == e.id && r.tenant == e.tenant)
  {
    if FindRow(rows, e.id).None? {
      AppendSound(rows, e);
      assert e in rows + [e];
    }
  }

  /** For every pattern of faults: the row is added when the insert commits on a free id, and success
      is told exactly for a new row or for the tenant's own row under a given key. */
  lemma CreditExactly(rows: seq<Entry>, e: Entry, ins: Fault, look: Fault)
    requires Sound(rows)
    ensures
      var (after, o) := CreditSpec(rows, e, ins, look);
      && after == (if ins != Lost && Free(rows, e.id) then rows + [e] else rows)
      && (o == Credited(e.id) <==>
            && ins == Fine
            && (Free(rows, e.id) || (e.id.Hashed? && look == Fine && exists r | r in rows :: r.id == e.id && r.tenant == e.tenant)))
      && (o == Credited(e.id) || o == CreditUnavailable)
  {
    var r := FindRow(rows, e.id);
    if r.Some? {
      forall x | x in rows && x.id == e.id
        ensures x == r.value
      {
        UniqueRow(rows, x, r.value);
      }
    }
  }

  ghost predicate RefundKeyTaken(rows: seq<Entry>, tenant: string, job: string) {
    exists r | r in rows :: r.id == RefundId(tenant, job) && r.tenant == tenant
  }

  /** A refund that reports success leaves its key taken, so no later attempt can credit again. */
  lemma RefundIsDurable(rows: seq<Entry>, tenant: string, job: string, amount: nat, ins: Fault, look: Fault)
    requires Sound(rows) && DebitEntry(tenant, job, amount) in rows
    ensures
      var (after, o) := CreditSpec(rows, RefundEntry(tenant, job, amount), ins, look);
      && Sound(after)
      && Grows(rows, after, RefundEntry(tenant, job, amount))
      && (o.Credited? ==> RefundKeyTaken(after, tenant, job))
  {
    CreditOutcomeIsDurable(rows, RefundEntry(tenant, job, amount), ins, look);
  }

  /** No top-up was given the key of a job by hand. */
  ghost predicate KeysClean(rows: seq<Entry>) {
    forall e, k: KeyKind, j: string | e in rows && e.meta.Plain? :: e.id != Hashed(JobPreimage(e.tenant, k, j))
  }

  /** Then the row under a job's key is the debit or the refund of that job. */
  lemma RowAtJobKey(rows: seq<Entry>, e: Entry, k: KeyKind, job: string)
    requires WellKeyed(rows) && KeysClean(rows)
    requires e in rows && e.id == Hashed(JobPreimage(e.tenant, k, job))
    ensures e == if k == JobDebit then DebitEntry(e.tenant, job, e.amount) else RefundEntry(e.tenant, job, e.amount)
  {
    assert KeyedRow(e);
    var own := if e.kind == DEBIT then JobDebit else JobRefund;
    SameTenantInjective(e.tenant, IdempotencyKey(own, e.meta.job), IdempotencyKey(k, job));
    JobKeysDiffer(own, e.meta.job, k, job);
  }

  /** A refund that reports success has put the refund of that very amount in the ledger, for
      every pattern of faults, if and only if nothing else occupied its key before. */
  lemma RefundReallyCredits(rows: seq<Entry>, tenant: string, job: string, amount: nat)
    requires Sound(rows) && DebitEntry(tenant, job, amount) in rows
    ensures
      var e := RefundEntry(tenant, job, amount);
      (forall ins: Fault, look: Fault ::
        CreditSpec(rows, e, ins, look).1.Credited? ==> e in CreditSpec(rows, e, ins, look).0)
      <==> (forall r | r in rows && r.id == e.id :: r.tenant == tenant ==> r.meta == RefundFor(job))
  {
    var e := RefundEntry(tenant, job, amount);
    if forall r | r in rows && r.id == e.id :: r.tenant == tenant ==> r.meta == RefundFor(job) {
      forall ins: Fault, look: Fault | CreditSpec(rows, e, ins, look).1.Credited?
        ensures e in CreditSpec(rows, e, ins, look).0
      {
        if FindRow(rows, e.id).Some? {
          RefundRowIsExact(rows, tenant, job, amount, FindRow(rows, e.id).value);
        }
      }
    }
    if r :| r in rows && r.id == e.id && r.tenant == tenant && r.meta != RefundFor(job) {
      UniqueRow(rows, FindRow(rows, e.id).value, r);
      assert CreditSpec(rows, e, Fine, Fine).1.Credited?;
      if e in rows { UniqueRow(rows, e, r); }
    }
  }

  lemma RefundRowIsExact(rows: seq<Entry>, tenant: string, job: string, amount: nat, r: Entry)
    requires Sound(rows) && DebitEntry(tenant, job, amount) in rows
    requires r in rows && r.tenant == tenant && r.meta == RefundFor(job)
    ensures r == RefundEntry(tenant, job, amount)
  {
    assert KeyedRow(r);
    UniqueRow(rows, DebitEntry(tenant, job, r.amount), DebitEntry(tenant, job, amount));
  }

  /** With clean keys a taken refund key is the refund of the job's debit, to the unit. */
  lemma TakenMeansRefunded(rows: seq<Entry>, tenant: string, job: string, amount: nat)
    requires Sound(rows) && KeysClean(rows)
    requires RefundKeyTaken(rows, tenant, job) && DebitEntry(tenant, job, amount) in rows
    ensures RefundEntry(tenant, job, amount) in rows
  {
    var r :| r in rows && r.id == RefundId(tenant, job) && r.tenant == tenant;
    RowAtJobKey(rows, r, JobRefund, job);
    RefundRowIsExact(rows, tenant, job, amount, r);
  }

  // ----- the net charge of a job

  lemma PrefixSound(rows: seq<Entry>)
    requires rows != [] && DistinctIds(rows) && WellKeyed(rows)
    ensures DistinctIds(rows[..|rows| - 1]) && WellKeyed(rows[..|rows| - 1])
    ensures FindRow(rows[..|rows| - 1], rows[|rows| - 1].id).None?
  {
    var front := rows[..|rows| - 1];
    assert forall e | e in front :: e in rows;
    forall e | e in front
      ensures e.id != rows[|rows| - 1].id
    {
      var i :| 0 <= i < |front| && front[i] == e;
      assert rows[i] == e;
    }
  }

  function RowAmount(r: Option<Entry>, tenant: string, m: Meta): nat {
    if r.Some? && r.value.tenant == tenant && r.value.meta == m then r.value.amount else 0
  }

  lemma {:induction false} NetChargeIsTwoRows(rows: seq<Entry>, tenant: string, job: string)
    requires DistinctIds(rows) && WellKeyed(rows)
    ensures NetCharge(rows, tenant, job)
         == RowAmount(FindRow(rows, DebitId(tenant, job)), tenant, ForJob(job))
          - RowAmount(FindRow(rows, RefundId(tenant, job)), tenant, RefundFor(job))
  {
    if rows != [] {
      PrefixSound(rows);
      NetChargeIsTwoRows(rows[..|rows| - 1], tenant, job);
      assert rows[|rows| - 1] in rows;
      assert KeyedRow(rows[|rows| - 1]);
      if DebitId(tenant, job) == RefundId(tenant, job) {
        SameTenantInjective(tenant, IdempotencyKey(JobDebit, job), IdempotencyKey(JobRefund, job));
        JobKeysDiffer(JobDebit, job, JobRefund, job);
      }
    }
  }

  /** A job is charged in full or not at all, and a refund gives back exactly its debit. */
  lemma NetChargeAllOrNothing(rows: seq<Entry>, tenant: string, job: string)
    requires Sound(rows)
    ensures NetCharge(rows, tenant, job) == 0
         || exists a: nat :: DebitEntry(tenant, job, a) in rows && NetCharge(rows, tenant, job) == a
    ensures forall a: nat :: RefundEntry(tenant, job, a) in rows ==>
              DebitEntry(tenant, job, a) in rows && NetCharge(rows, tenant, job) == 0
  {
    NetChargeIsTwoRows(rows, tenant, job);
    var d, r := FindRow(rows, DebitId(tenant, job)), FindRow(rows, RefundId(tenant, job));
    if d.Some? && d.value.tenant == tenant && d.value.meta == ForJob(job) {
      assert KeyedRow(d.value);
      assert d.value == DebitEntry(tenant, job, d.value.amount);
    }
    if r.Some? && r.value.tenant == tenant && r.value.meta == RefundFor(job) {
      assert KeyedRow(r.value);
      UniqueRow(rows, DebitEntry(tenant, job, r.value.amount), d.value);
    }
    forall a: nat | RefundEntry(tenant, job, a) in rows
      ensures DebitEntry(tenant, job, a) in rows && NetCharge(rows, tenant, job) == 0
    {
      UniqueRow(rows, RefundEntry(tenant, job, a), r.value);
    }
  }

  // ----- the object

  /** `PGBillingLedger`: the shared table and this process's in-memory mirror. */
  class PGBillingLedger {
    var rows: seq<Entry>
    var entries: seq<Entry>

    /** Nothing is mirrored that PostgreSQL does not hold. */
    ghost predicate Valid() reads this {
      Sound(rows) && forall e | e in entries :: e in rows
    }

    constructor ()
      ensures Valid() && rows == [] && entries == []
    {
      rows, entries := [], [];
    }

    method DebitIfFunds(tenant: string, job: string, amount: int, txn: Fault, look: Fault) returns (o: DebitOutcome)
      requires Valid()
      modifies this
      ensures Valid()
      ensures (rows, o) == DebitSpec(old(rows), tenant, job, amount, txn, look)
      ensures amount >= 0 ==> entries == if txn == Fine && rows != old(rows)
                                         then old(entries) + [DebitEntry(tenant, job, amount)] else old(entries)
      ensures amount < 0 ==> entries == old(entries)
      ensures o == Rejected <==> amount < 0 || job == ""
    {
      if amount < 0 || job == "" {
        return Rejected;
      }
      DebitOutcomeIsDurable(rows, tenant, job, amount, txn, look);
      var before := rows;
      var e := DebitEntry(tenant, job, amount);
      if txn.Commits() {
        rows := InsertIfFunds(rows, e);
      }
      if txn == Fine && rows != before {
        entries := entries + [e];
        return Debited(true);
      }
      if look != Fine {
        return Unavailable;
      }
      match IdemLookup(rows, tenant, job, amount) {
        case Match => o := Debited(txn != Fine);
        case Mismatch => o := IdemMismatch;
        case Absent => o := if txn == Fine then NoFunds else Unavailable;
      }
    }

    method Credit(e: Entry, ins: Fault, look: Fault) returns (o: CreditOutcome)
      requires Valid() && KeyedRow(e) && e.kind == CREDIT
      requires e.meta.RefundFor? ==> DebitEntry(e.tenant, e.meta.job, e.amount) in rows
      modifies this
      ensures Valid()
      ensures (rows, o) == CreditSpec(old(rows), e, ins, look)
      ensures entries == if ins == Fine && rows != old(rows) then old(entries) + [e] else old(entries)
    {
      CreditOutcomeIsDurable(rows, e, ins, look);
      var before := rows;
      if ins.Commits() {
        rows := InsertIgnore(rows, e);
      }
      if ins != Fine {
        return CreditUnavailable;
      }
      if rows != before {
        entries := entries + [e];
        return Credited(e.id);
      }
      if e.id.Random? || look != Fine {
        return CreditUnavailable;
      }
      var r := FindRow(rows, e.id);
      o := if r.Some? && r.value.tenant == e.tenant then Credited(e.id) else CreditUnavailable;
    }

    /** `refund`: without a job id there is no idempotency key, so nothing is written. */
    method Refund(tenant: string, job: string, amount: nat, ins: Fault, look: Fault) returns (o: CreditOutcome)
      requires Valid() && DebitEntry(tenant, job, amount) in rows
      modifies this
      ensures Valid()
      ensures job == "" ==> rows == old(rows) && o == CreditRejected && entries == old(entries)
      ensures job != "" ==> (rows, o) == CreditSpec(old(rows), RefundEntry(tenant, job, amount), ins, look)
      ensures job != "" ==> entries == if ins == Fine && rows != old(rows)
                                       then old(entries) + [RefundEntry(tenant, job, amount)] else old(entries)
    {
      if job == "" {
        return CreditRejected;
      }
      o := Credit(RefundEntry(tenant, job, amount), ins, look);
    }
  }
}
