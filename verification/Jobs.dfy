/** Rows of `execution_jobs`: statuses, the guarded update every writer goes through, the
    claim of queued jobs, and the transition guard of the routes. */
module Jobs {
  import opened Basics

  datatype Status =
    | Queued | Running | Completed | Failed | Timeout | Cancelled
    | Error | Stopped | Destroyed | BillingPending

  /** Statuses a final or client write never overwrites. */
  predicate Blocked(s: Status) { s != Queued && s != Running }

  predicate Terminal(s: Status) { s == Completed || s == Timeout || s == Failed || s == Cancelled }

  /** What a poll of the backend, or its deadline, can end a job with. */
  predicate ExecStatus(s: Status) { s != Queued && s != Running && s != BillingPending }

  /** Outcomes of finalizing that park a finished job, as named in its marker. */
  datatype BillingFault = PgError | OtherError | FundsShort

  /** The `error` column. Texts from elsewhere are free; the rest are the protocol's markers. */
  datatype ErrorField =
    | NoError
    | FreeText(text: string)
    | Billing(fault: BillingFault, exec: Option<Status>)
    | BillingMismatch
    | RefundPending(amount: nat)

  /** Only timeout and failed are remembered in the marker of a parked job. */
  function PendingMarker(fault: BillingFault, exec: Option<Status>): ErrorField {
    Billing(fault, if exec == Some(Timeout) || exec == Some(Failed) then exec else None)
  }

  function ExecOf(e: ErrorField): Option<Status> {
    if e.Billing? then e.exec else None
  }

  /** `_billing_exec_status(error) or default`. */
  function ExecOr(e: ErrorField, default: Status): Status {
    if ExecOf(e).Some? then ExecOf(e).value else default
  }

  datatype Backend = Vastai | Local

  datatype JobRow = JobRow(tenant: string, status: Status, error: ErrorField, cost: nat,
                           duration: nat, backend: Option<Backend>)

  type Table = map<string, JobRow>

  /** The columns an update sets; a column left out keeps its value. */
  datatype Patch = Patch(status: Option<Status>, error: Option<ErrorField>, cost: Option<nat>,
                         duration: Option<nat>, backend: Option<Backend>)
  {
    function On(r: JobRow): JobRow {
      JobRow(r.tenant,
             if status.Some? then status.value else r.status,
             if error.Some? then error.value else r.error,
             if cost.Some? then cost.value else r.cost,
             if duration.Some? then duration.value else r.duration,
             if backend.Some? then backend else r.backend)
    }
  }

  function SetStatus(s: Status): Patch { Patch(Some(s), None, None, None, None) }

  function SetError(e: ErrorField): Patch { Patch(None, Some(e), None, None, None) }

  /** UPDATE ... WHERE id = ? AND tenant_id = ? AND status NOT IN (guard); the row count. */
  function Update(jobs: Table, id: string, p: Patch, tenant: string, guard: set<Status>): (Table, nat) {
    if id in jobs && jobs[id].tenant == tenant && jobs[id].status !in guard
    then (jobs[id := p.On(jobs[id])], 1)
    else (jobs, 0)
  }

  /** What the compare-and-set does to a row: nothing, if the row is missing, of another tenant, or
      in a guarded status; otherwise that row alone changes, column by column, and one is counted. */
  lemma UpdateExactly(jobs: Table, id: string, p: Patch, tenant: string, guard: set<Status>, j: string)
    ensures
      var (after, n) := Update(jobs, id, p, tenant, guard);
      var hit := id in jobs && jobs[id].tenant == tenant && !(jobs[id].status in guard);
      && n == (if hit then 1 else 0)
      && after.Keys == jobs.Keys
      && (j in jobs && !(hit && j == id) ==> after[j] == jobs[j])
      && (hit ==>
            && after[id].tenant == jobs[id].tenant
            && after[id].status == (if p.status == None then jobs[id].status else p.status.value)
            && after[id].error == (if p.error == None then jobs[id].error else p.error.value)
            && after[id].cost == (if p.cost == None then jobs[id].cost else p.cost.value)
            && after[id].duration == (if p.duration == None then jobs[id].duration else p.duration.value)
            && after[id].backend == (if p.backend == None then jobs[id].backend else p.backend))
  {
  }

  /** One guarded update. */
  datatype GuardedWrite = GuardedWrite(id: string, patch: Patch, tenant: string, guard: set<Status>)

  function UpdateAll(jobs: Table, writes: seq<GuardedWrite>): Table
    decreases |writes|
  {
    if writes == [] then jobs
    else UpdateAll(Update(jobs, writes[0].id, writes[0].patch, writes[0].tenant, writes[0].guard).0, writes[1..])
  }

  /** Once a row's status has entered a set that every write guards, the row never changes again,
      whoever writes what. */
  lemma {:induction false} GuardedForEver(jobs: Table, writes: seq<GuardedWrite>, guard: set<Status>, j: string)
    requires j in jobs && jobs[j].status in guard && forall w | w in writes :: guard <= w.guard
    ensures j in UpdateAll(jobs, writes) && UpdateAll(jobs, writes)[j] == jobs[j]
    decreases |writes|
  {
    if writes != [] {
      var w := writes[0];
      assert w in writes && forall x | x in writes[1..] :: x in writes;
      GuardedForEver(Update(jobs, w.id, w.patch, w.tenant, w.guard).0, writes[1..], guard, j);
    }
  }

  /** And a row of one tenant is never changed by writes made for others. */
  lemma {:induction false} TenantsApart(jobs: Table, writes: seq<GuardedWrite>, j: string)
    requires j in jobs && forall w | w in writes :: w.tenant != jobs[j].tenant
    ensures j in UpdateAll(jobs, writes) && UpdateAll(jobs, writes)[j] == jobs[j]
    decreases |writes|
  {
    if writes != [] {
      var w := writes[0];
      assert w in writes && forall x | x in writes[1..] :: x in writes;
      TenantsApart(Update(jobs, w.id, w.patch, w.tenant, w.guard).0, writes[1..], j);
    }
  }

  const BLOCKED: set<Status> := {Completed, Timeout, Failed, Cancelled, Error, Stopped, Destroyed, BillingPending}
  const TERMINAL: set<Status> := {Completed, Timeout, Failed, Cancelled}

  lemma GuardSets(s: Status)
    ensures s in BLOCKED <==> Blocked(s)
    ensures s in TERMINAL <==> Terminal(s)
  {
  }

  // ----- the transition guard

  function Targets(s: Status): set<Status> {
    match s
    case Queued => {Running, Cancelled}
    case Running => {Completed, Failed, Cancelled}
    case Failed => {Queued}
    case _ => {}
  }

  predicate Allowed(from: Status, to: Status) { to in Targets(from) }

  /** The guard's whole graph. */
  lemma TransitionGraph(from: Status, to: Status)
    ensures Allowed(from, to) <==>
            || (from == Queued && to in {Running, Cancelled})
            || (from == Running && to in {Completed, Failed, Cancelled})
            || (from == Failed && to == Queued)
  {
  }

  /** What a client may not overwrite is all but queued and running; what ends a job for a sweeper is
      how a run or a client ends it. */
  lemma GuardedStatuses(s: Status)
    ensures s in BLOCKED <==> s !in {Queued, Running}
    ensures s in TERMINAL <==> s in {Completed, Failed, Timeout, Cancelled}
    ensures ExecStatus(s) <==> s !in {Queued, Running, BillingPending}
  {
  }

  // ----- claiming

  function QueuedIn(jobs: Table, order: seq<string>): (r: seq<string>)
    ensures forall id | id in r :: id in order && id in jobs && jobs[id].status == Queued
    ensures forall id | id in order && id in jobs && jobs[id].status == Queued :: id in r
  {
    if order == [] then []
    else if order[0] in jobs && jobs[order[0]].status == Queued then [order[0]] + QueuedIn(jobs, order[1..])
    else QueuedIn(jobs, order[1..])
  }

  function Oldest(ids: seq<string>, limit: nat): seq<string> {
    if |ids| <= limit then ids else ids[..limit]
  }

  function MarkRunning(jobs: Table, ids: seq<string>): Table {
    if ids == [] then jobs
    else
      var before := MarkRunning(jobs, ids[..|ids| - 1]);
      var id := ids[|ids| - 1];
      if id in before && before[id].status == Queued then before[id := SetStatus(Running).On(before[id])] else before
  }

  lemma {:induction false} MarkRunningMeans(jobs: Table, ids: seq<string>)
    requires forall id | id in ids :: id in jobs && jobs[id].status == Queued
    ensures
      var after := MarkRunning(jobs, ids);
      && after.Keys == jobs.Keys
      && forall id | id in jobs ::
           after[id] == if id in ids then SetStatus(Running).On(jobs[id]) else jobs[id]
  {
    if ids != [] {
      var front := ids[..|ids| - 1];
      assert ids == front + [ids[|ids| - 1]];
      MarkRunningMeans(jobs, front);
    }
  }

  ghost predicate Distinct(ids: seq<string>) {
    forall i, k | 0 <= i < k < |ids| :: ids[i] != ids[k]
  }

  lemma OldestQueued(jobs: Table, order: seq<string>, limit: nat)
    requires Distinct(order)
    ensures
      var rows := Oldest(QueuedIn(jobs, order), limit);
      Distinct(rows) && forall id | id in rows :: id in jobs && jobs[id].status == Queued
  {
    QueuedOrder(jobs, order);
    assert forall id | id in Oldest(QueuedIn(jobs, order), limit) :: id in QueuedIn(jobs, order);
  }

  lemma {:induction false} QueuedOrder(jobs: Table, order: seq<string>)
    requires Distinct(order)
    ensures Distinct(QueuedIn(jobs, order))
  {
    if order != [] {
      QueuedOrder(jobs, order[1..]);
      var r := QueuedIn(jobs, order);
      if order[0] in jobs && jobs[order[0]].status == Queued {
        var rest := QueuedIn(jobs, order[1..]);
        assert forall m | 0 < m < |order| :: order[m] != order[0];
        assert order[0] !in order[1..];
        forall i, k | 0 <= i < k < |r|
          ensures r[i] != r[k]
        {
          assert r[k] == rest[k - 1] && rest[k - 1] in order[1..];
          if i > 0 { assert r[i] == rest[i - 1]; }
        }
      }
    }
  }

  function CountQueued(jobs: Table, order: seq<string>): nat {
    if order == [] then 0
    else (if order[0] in jobs && jobs[order[0]].status == Queued then 1 else 0) + CountQueued(jobs, order[1..])
  }

  /** A claim takes as many as are queued, up to its limit. */
  lemma {:induction false} ClaimTakes(jobs: Table, order: seq<string>, limit: nat)
    ensures |QueuedIn(jobs, order)| == CountQueued(jobs, order)
    ensures |Oldest(QueuedIn(jobs, order), limit)| == Min(limit, CountQueued(jobs, order))
  {
    if order != [] { ClaimTakes(jobs, order[1..], limit); }
  }

  /** Two replicas never claim the same job: the second finds none of the first one's jobs. */
  lemma ClaimsAreDisjoint(jobs: Table, order1: seq<string>, n1: nat, order2: seq<string>, n2: nat)
    ensures
      var first := Oldest(QueuedIn(jobs, order1), n1);
      var second := Oldest(QueuedIn(MarkRunning(jobs, first), order2), n2);
      forall id | id in first :: id !in second
  {
    var all := QueuedIn(jobs, order1);
    var first := Oldest(all, n1);
    assert forall id | id in first :: id in all;
    MarkRunningMeans(jobs, first);
  }

  class JobTable {
    var jobs: Table
    // The ids by `created_at`.
    var created: seq<string>

    ghost predicate Valid() reads this {
      Distinct(created) && forall id :: id in created <==> id in jobs
    }

    constructor ()
      ensures Valid() && jobs == map[]
    {
      jobs, created := map[], [];
    }

    /** `insert_execution_job`; the id is the primary key. */
    method InsertExecutionJob(id: string, tenant: string) returns (ok: bool)
      requires Valid()
      modifies this
      ensures Valid() && ok == (id !in old(jobs))
      ensures jobs == if ok then old(jobs)[id := JobRow(tenant, Queued, NoError, 0, 0, None)] else old(jobs)
      ensures created == if ok then old(created) + [id] else old(created)
    {
      ok := id !in jobs;
      if ok {
        jobs := jobs[id := JobRow(tenant, Queued, NoError, 0, 0, None)];
        created := created + [id];
      }
    }

    /** `update_execution_job`; a failed call may still have been committed. */
    method UpdateExecutionJob(id: string, p: Patch, tenant: string, guard: set<Status>, f: Fault)
      returns (n: nat, raised: bool)
      modifies this`jobs
      ensures old(Valid()) ==> Valid()
      ensures id !in old(jobs) || old(jobs)[id].tenant != tenant || old(jobs)[id].status in guard || f == Lost ==> jobs == old(jobs)
      ensures id in jobs ==> jobs - {id} == old(jobs) - {id}
      ensures !raised ==> n == if id in old(jobs) && old(jobs)[id].tenant == tenant && !(old(jobs)[id].status in guard) then 1 else 0
      ensures jobs == if f.Commits() then Update(old(jobs), id, p, tenant, guard).0 else old(jobs)
      ensures raised <==> f != Fine
      ensures !raised ==> n == Update(old(jobs), id, p, tenant, guard).1
    {
      n, raised := 0, f != Fine;
      if f.Commits() && id in jobs && jobs[id].tenant == tenant && jobs[id].status !in guard {
        jobs := jobs[id := p.On(jobs[id])];
        n := 1;
      }
    }

    /** `claim_queued_execution_jobs`: the queued jobs created first, at most `limit`, become running
        and are handed to this caller; every other row is left alone. */
    method ClaimQueued(limit: nat) returns (claimed: seq<string>)
      requires Valid()
      modifies this`jobs
      ensures Valid()
      ensures claimed == Oldest(QueuedIn(old(jobs), created), limit)
      ensures jobs == MarkRunning(old(jobs), claimed)
      ensures forall id | id in claimed :: id in jobs && jobs[id].status == Running
    {
      var rows := Oldest(QueuedIn(jobs, created), limit);
      OldestQueued(jobs, created, limit);
      claimed := [];
      for i := 0 to |rows|
        invariant claimed == rows[..i]
        invariant jobs == MarkRunning(old(jobs), rows[..i])
        invariant forall id | id in rows[i..] :: id in jobs && jobs[id].status == Queued
      {
        assert rows[..i + 1][..i] == rows[..i];
        assert rows[i] in rows[i..];
        assert rows[i..] == [rows[i]] + rows[i + 1..];
        assert forall m | i < m < |rows| :: rows[m] != rows[i];
        assert rows[i] !in rows[i + 1..];
        if jobs[rows[i]].status == Queued {
          jobs := jobs[rows[i] := SetStatus(Running).On(jobs[rows[i]])];
          claimed := claimed + [rows[i]];
        }
      }
      assert rows[..|rows|] == rows;
      MarkRunningMeans(old(jobs), rows);
    }
  }

  /** No job left queued was created before one that is claimed. */
  lemma ClaimsOldestFirst(jobs: Table, created: seq<string>, limit: nat, i: nat, k: nat)
    requires Distinct(created) && i < k < |created|
    requires created[i] in jobs && jobs[created[i]].status == Queued
    requires created[k] in Oldest(QueuedIn(jobs, created), limit)
    ensures created[i] in Oldest(QueuedIn(jobs, created), limit)
  {
    var q := QueuedIn(jobs, created);
    var m :| 0 <= m < |Oldest(q, limit)| && Oldest(q, limit)[m] == created[k];
    var l := QueuedInOrder(jobs, created, i, k, m);
    assert Oldest(q, limit)[l] == created[i];
  }

  lemma {:induction false} QueuedInOrder(jobs: Table, order: seq<string>, i: nat, k: nat, m: nat) returns (l: nat)
    requires Distinct(order) && i < k < |order| && order[i] in jobs && jobs[order[i]].status == Queued
    requires m < |QueuedIn(jobs, order)| && QueuedIn(jobs, order)[m] == order[k]
    ensures l < m && QueuedIn(jobs, order)[l] == order[i]
  {
    var rest := order[1..];
    assert rest[k - 1] == order[k] && (i > 0 ==> rest[i - 1] == order[i]) && order[0] != order[k];
    if i == 0 {
      l := 0;
    } else if order[0] in jobs && jobs[order[0]].status == Queued {
      assert QueuedIn(jobs, order) == [order[0]] + QueuedIn(jobs, rest);
      l := QueuedInOrder(jobs, rest, i - 1, k - 1, m - 1);
      l := l + 1;
    } else {
      l := QueuedInOrder(jobs, rest, i - 1, k - 1, m);
    }
  }
}
