/** Concurrent debits at the grain PostgreSQL sees them: a per-tenant advisory lock, one
    statement that reads the committed balance and inserts, a commit. Credits take no lock and
    may commit between any two of these steps. */
module DebitLock {
  import opened Basics
  import opened Ledger

  datatype Request = Request(tenant: string, job: string, amount: nat) {
    function Row(): Entry { DebitEntry(tenant, job, amount) }
  }

  /** One connection inside `debit_if_funds`. After the statement it holds the row it has
      written and not yet committed, if it wrote one. */
  datatype Txn =
    | Waiting(req: Request)
    | Locked(req: Request)
    | Inserted(req: Request, row: Option<Entry>)
  {
    predicate HoldsLock() { !Waiting? }
    predicate Pending(id: LedgerId) { Inserted? && row.Some? && row.value.id == id }
  }

  datatype Sys = Sys(rows: seq<Entry>, txns: map<nat, Txn>)

  datatype Event =
    | Begin(conn: nat, req: Request)
    | Lock(conn: nat)
    | Insert(conn: nat)
    | Commit(conn: nat)
    | Rollback(conn: nat)
    | CommitCredit(row: Entry)

  /** The unique index makes a writer wait for an uncommitted row under the same id. */
  ghost predicate NotPending(s: Sys, id: LedgerId) {
    forall c | c in s.txns :: !s.txns[c].Pending(id)
  }

  /** `lockKey` is the 31-bit checksum of the tenant; tenants may share a lock. */
  ghost predicate Enabled(s: Sys, ev: Event, lockKey: string -> nat) {
    match ev
    case Begin(c, req) => c !in s.txns
    case Lock(c) =>
      && c in s.txns && s.txns[c].Waiting?
      && (forall d | d in s.txns && s.txns[d].HoldsLock() ::
            lockKey(s.txns[d].req.tenant) != lockKey(s.txns[c].req.tenant))
    case Insert(c) => c in s.txns && s.txns[c].Locked? && NotPending(s, s.txns[c].req.Row().id)
    case Commit(c) => c in s.txns && s.txns[c].Inserted?
    case Rollback(c) => c in s.txns
    case CommitCredit(e) =>
      && KeyedRow(e) && e.kind == CREDIT && FindRow(s.rows, e.id).None? && NotPending(s, e.id)
      && (e.meta.RefundFor? ==> DebitEntry(e.tenant, e.meta.job, e.amount) in s.rows)
  }

  /** What the conditional insert writes, judged on the rows committed when it starts. */
  function Written(rows: seq<Entry>, req: Request): Option<Entry> {
    if FindRow(rows, req.Row().id).None? && Balance(rows, req.tenant) >= req.amount
    then Some(req.Row()) else None
  }

  ghost function Apply(s: Sys, ev: Event, lockKey: string -> nat): Sys
    requires Enabled(s, ev, lockKey)
  {
    match ev
    case Begin(c, req) => s.(txns := s.txns[c := Waiting(req)])
    case Lock(c) => s.(txns := s.txns[c := Locked(s.txns[c].req)])
    case Insert(c) => s.(txns := s.txns[c := Inserted(s.txns[c].req, Written(s.rows, s.txns[c].req))])
    case Commit(c) =>
      Sys(if s.txns[c].row.Some? then s.rows + [s.txns[c].row.value] else s.rows, s.txns - {c})
    case Rollback(c) => s.(txns := s.txns - {c})
    case CommitCredit(e) => s.(rows := s.rows + [e])
  }

  ghost predicate OneHolder(s: Sys, lockKey: string -> nat) {
    forall c, d | c in s.txns && d in s.txns && s.txns[c].HoldsLock() && s.txns[d].HoldsLock() && c != d ::
      lockKey(s.txns[c].req.tenant) != lockKey(s.txns[d].req.tenant)
  }

  /** An uncommitted row can still be committed: its id is free and its tenant can pay. */
  ghost predicate PendingCovered(s: Sys) {
    forall c | c in s.txns && s.txns[c].Inserted? && s.txns[c].row.Some? ::
      && s.txns[c].row.value == s.txns[c].req.Row()
      && FindRow(s.rows, s.txns[c].req.Row().id).None?
      && Balance(s.rows, s.txns[c].req.tenant) >= s.txns[c].req.amount
  }

  ghost predicate PendingDistinct(s: Sys) {
    forall c, d | c in s.txns && d in s.txns && c != d && s.txns[c].Inserted? && s.txns[c].row.Some? ::
      !s.txns[d].Pending(s.txns[c].row.value.id)
  }

  ghost predicate Inv(s: Sys, lockKey: string -> nat) {
    Sound(s.rows) && OneHolder(s, lockKey) && PendingCovered(s) && PendingDistinct(s)
  }

  /** Committing one row leaves every other uncommitted row committable, when that row is a
      credit or belongs to a tenant with another lock. */
  lemma OthersStayCovered(s: Sys, e: Entry, lockKey: string -> nat, but: set<nat>)
    requires Inv(s, lockKey)
    requires forall c | c in s.txns && c !in but :: !s.txns[c].Pending(e.id)
    requires e.kind == CREDIT || forall c | c in s.txns && c !in but && s.txns[c].HoldsLock() ::
               s.txns[c].req.tenant != e.tenant
    ensures PendingCovered(Sys(s.rows + [e], s.txns - but))
  {
    forall c | c in s.txns && c !in but && s.txns[c].Inserted? && s.txns[c].row.Some?
      ensures FindRow(s.rows + [e], s.txns[c].req.Row().id).None?
      ensures Balance(s.rows + [e], s.txns[c].req.tenant) >= s.txns[c].req.amount
    {
      BalanceAppend(s.rows, e, s.txns[c].req.tenant);
      assert (s.rows + [e])[..|s.rows|] == s.rows;
    }
  }

  lemma CommitKeepsInv(s: Sys, c: nat, lockKey: string -> nat)
    requires Inv(s, lockKey) && Enabled(s, Commit(c), lockKey)
    ensures Inv(Apply(s, Commit(c), lockKey), lockKey)
  {
    var t := s.txns[c];
    if t.row.Some? {
      AppendSound(s.rows, t.row.value);
      OthersStayCovered(s, t.row.value, lockKey, {c});
    }
  }

  lemma CreditKeepsInv(s: Sys, e: Entry, lockKey: string -> nat)
    requires Inv(s, lockKey) && Enabled(s, CommitCredit(e), lockKey)
    ensures Inv(Apply(s, CommitCredit(e), lockKey), lockKey)
  {
    AppendSound(s.rows, e);
    OthersStayCovered(s, e, lockKey, {});
    assert s.txns - {} == s.txns;
  }

  /** Every step keeps the balances non-negative and the pending rows covered. */
  lemma StepKeepsInv(s: Sys, ev: Event, lockKey: string -> nat)
    requires Inv(s, lockKey) && Enabled(s, ev, lockKey)
    ensures Inv(Apply(s, ev, lockKey), lockKey)
  {
    match ev
    case Commit(c) => CommitKeepsInv(s, c, lockKey);
    case CommitCredit(e) => CreditKeepsInv(s, e, lockKey);
    case Begin(c, req) =>
    case Lock(c) =>
    case Insert(c) =>
    case Rollback(c) =>
  }

  // ----- refinement: the interleaved debits are the atomic ones, in some order

  datatype Atomic = TryDebit(req: Request) | AddCredit(row: Entry)

  function Perform(rows: seq<Entry>, op: Atomic): seq<Entry> {
    match op
    case TryDebit(req) => InsertIfFunds(rows, req.Row())
    case AddCredit(e) => InsertIgnore(rows, e)
  }

  function PerformAll(rows: seq<Entry>, ops: seq<Atomic>): seq<Entry>
    decreases |ops|
  {
    if ops == [] then rows else PerformAll(Perform(rows, ops[0]), ops[1..])
  }

  /** A debit takes effect when its row is committed, or when its statement writes nothing. */
  ghost function Effect(s: Sys, ev: Event): seq<Atomic> {
    match ev
    case Commit(c) =>
      if c in s.txns && s.txns[c].Inserted? && s.txns[c].row.Some? then [TryDebit(s.txns[c].req)] else []
    case Insert(c) =>
      if c in s.txns && Written(s.rows, s.txns[c].req).None? then [TryDebit(s.txns[c].req)] else []
    case CommitCredit(e) => [AddCredit(e)]
    case _ => []
  }

  lemma StepIsAtomic(s: Sys, ev: Event, lockKey: string -> nat)
    requires Inv(s, lockKey) && Enabled(s, ev, lockKey)
    ensures PerformAll(s.rows, Effect(s, ev)) == Apply(s, ev, lockKey).rows
  {
  }

  ghost predicate Runs(s: Sys, evs: seq<Event>, lockKey: string -> nat)
    decreases |evs|
  {
    evs == [] || (Enabled(s, evs[0], lockKey) && Runs(Apply(s, evs[0], lockKey), evs[1..], lockKey))
  }

  ghost function Final(s: Sys, evs: seq<Event>, lockKey: string -> nat): Sys
    requires Runs(s, evs, lockKey)
    decreases |evs|
  {
    if evs == [] then s else Final(Apply(s, evs[0], lockKey), evs[1..], lockKey)
  }

  ghost function Effects(s: Sys, evs: seq<Event>, lockKey: string -> nat): seq<Atomic>
    requires Runs(s, evs, lockKey)
    decreases |evs|
  {
    if evs == [] then [] else Effect(s, evs[0]) + Effects(Apply(s, evs[0], lockKey), evs[1..], lockKey)
  }

  lemma {:induction false} PerformConcat(rows: seq<Entry>, a: seq<Atomic>, b: seq<Atomic>)
    ensures PerformAll(rows, a + b) == PerformAll(PerformAll(rows, a), b)
    decreases |a|
  {
    if a == [] {
      assert a + b == b;
    } else {
      assert (a + b)[1..] == a[1..] + b;
      PerformConcat(Perform(rows, a[0]), a[1..], b);
    }
  }

  /** Over every interleaving the invariant holds at the end, so no tenant is overdrawn, and the
      committed table is the one the atomic operations make, one after the other. */
  lemma {:induction false} RunsAreSerializable(s: Sys, evs: seq<Event>, lockKey: string -> nat)
    requires Inv(s, lockKey) && Runs(s, evs, lockKey)
    ensures Inv(Final(s, evs, lockKey), lockKey)
    ensures Final(s, evs, lockKey).rows == PerformAll(s.rows, Effects(s, evs, lockKey))
    decreases |evs|
  {
    if evs != [] {
      var next := Apply(s, evs[0], lockKey);
      StepKeepsInv(s, evs[0], lockKey);
      StepIsAtomic(s, evs[0], lockKey);
      RunsAreSerializable(next, evs[1..], lockKey);
      PerformConcat(s.rows, Effect(s, evs[0]), Effects(next, evs[1..], lockKey));
    }
  }

  /** From an empty ledger no interleaving of debits, credits and refunds overdraws a tenant. */
  lemma NeverOverdrawn(evs: seq<Event>, lockKey: string -> nat, tenant: string)
    requires Runs(Sys([], map[]), evs, lockKey)
    ensures
      var rows := Final(Sys([], map[]), evs, lockKey).rows;
      SumDebit(rows, tenant) <= SumCredit(rows, tenant) && Balance(rows, tenant) >= 0
  {
    RunsAreSerializable(Sys([], map[]), evs, lockKey);
    BalanceIsSums(Final(Sys([], map[]), evs, lockKey).rows, tenant);
  }

  /** No live transaction holds the tenant's lock. */
  ghost predicate LockFree(s: Sys, tenant: string, lockKey: string -> nat) {
    forall d | d in s.txns && s.txns[d].HoldsLock() :: lockKey(s.txns[d].req.tenant) != lockKey(tenant)
  }

  /** A debit whose lock is free, and whose key nobody is writing, goes through, whatever the others
      stand at: one row more or none, as the conditional insert decides, and the connection is free. */
  lemma GoesThrough(s: Sys, c: nat, req: Request, lockKey: string -> nat)
    requires c !in s.txns && LockFree(s, req.tenant, lockKey) && NotPending(s, req.Row().id)
    ensures
      Enabled(s, Begin(c, req), lockKey) &&
      var s1 := Apply(s, Begin(c, req), lockKey);
      Enabled(s1, Lock(c), lockKey) &&
      var s2 := Apply(s1, Lock(c), lockKey);
      Enabled(s2, Insert(c), lockKey) &&
      var s3 := Apply(s2, Insert(c), lockKey);
      Enabled(s3, Commit(c), lockKey) && Apply(s3, Commit(c), lockKey) == Sys(InsertIfFunds(s.rows, req.Row()), s.txns)
  {
    assert s.txns[c := Waiting(req)][c := Locked(req)][c := Inserted(req, Written(s.rows, req))] - {c} == s.txns;
  }

  /** A rollback, at any point, takes the transaction away and nothing else. */
  lemma RollsBack(s: Sys, c: nat, lockKey: string -> nat)
    requires c in s.txns
    ensures Enabled(s, Rollback(c), lockKey)
    ensures Apply(s, Rollback(c), lockKey) == Sys(s.rows, map d | d in s.txns && d != c :: s.txns[d])
  {
  }

  /** Why the lock is there: two uncommitted debits of one tenant, each covered by the committed
      balance but not both together, overdraw the tenant when both are committed. */
  lemma UnlockedPairOverdraws(s: Sys, c: nat, d: nat, lockKey: string -> nat)
    requires PendingCovered(s) && c != d && c in s.txns && d in s.txns
    requires s.txns[c].Inserted? && s.txns[c].row.Some? && s.txns[d].Inserted? && s.txns[d].row.Some?
    requires s.txns[c].req.tenant == s.txns[d].req.tenant
    requires Balance(s.rows, s.txns[c].req.tenant) < s.txns[c].req.amount + s.txns[d].req.amount
    ensures Balance(Apply(Apply(s, Commit(c), lockKey), Commit(d), lockKey).rows, s.txns[c].req.tenant) < 0
  {
    BalanceAppend(s.rows, s.txns[c].row.value, s.txns[c].req.tenant);
    BalanceAppend(s.rows + [s.txns[c].row.value], s.txns[d].row.value, s.txns[c].req.tenant);
  }
}
