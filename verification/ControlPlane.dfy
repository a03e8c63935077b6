/** The control plane's registry, job store, lease manager and reconciler as objects. */
module ControlPlane {
  import opened Basics
  import opened JobLifecycle
  import opened Healing

  ghost predicate NoRepeats<T>(s: seq<T>) {
    forall i, k | 0 <= i < k < |s| :: s[i] != s[k]
  }

  class JobStore {
    var jobs: Records
    // The dictionary's insertion order.
    var order: seq<JobId>
    var number: nat

    ghost predicate Valid() reads this {
      && NoRepeats(order)
      && (forall id :: id in order <==> id in jobs)
      && (forall id | id in jobs :: id.number <= number)
    }

    constructor ()
      ensures Valid() && jobs == map[]
    {
      jobs, order, number := map[], [], 0;
    }

    /** `submit`: the running number makes the id new. */
    method Submit(nonce: string, gpus: nat, maxRetries: int) returns (id: JobId)
      requires Valid()
      modifies this
      ensures Valid() && id !in old(jobs)
      ensures jobs == old(jobs)[id := JobData(Submitted, None, gpus, None, 0, maxRetries)]
      ensures Book(order, jobs) == Next(Event.Submit(id, gpus, maxRetries), old(Book(order, jobs)))
    {
      number := number + 1;
      id := JobId(number, nonce);
      assert id !in jobs;
      jobs := jobs[id := NewJob(gpus, maxRetries)];
      order := order + [id];
    }

    /** What every single-job operation promises: the answer, and the one job it may change. */
    twostate predicate Did(op: Op, id: JobId, ok: bool) reads this {
      && Valid()
      && ok == (id in old(jobs) && Accepts(op, old(jobs)[id]))
      && jobs == if id in old(jobs) then old(jobs)[id := Act(op, old(jobs)[id])] else old(jobs)
    }

    method Schedule(id: JobId, worker: string) returns (ok: bool)
      requires Valid()
      modifies this`jobs
      ensures Did(Op.Schedule(worker), id, ok)
    {
      if id !in jobs || jobs[id].status != Submitted {
        return false;
      }
      jobs := jobs[id := jobs[id].(status := Scheduled, worker := Some(worker))];
      return true;
    }

    method Start(id: JobId) returns (ok: bool)
      requires Valid()
      modifies this`jobs
      ensures Did(Op.Start, id, ok)
    {
      if id !in jobs || jobs[id].status != Scheduled {
        return false;
      }
      jobs := jobs[id := jobs[id].(status := Running)];
      return true;
    }

    method Complete(id: JobId) returns (ok: bool)
      requires Valid()
      modifies this`jobs
      ensures Did(Op.Complete, id, ok)
    {
      if id !in jobs || jobs[id].status != Running {
        return false;
      }
      jobs := jobs[id := jobs[id].(status := Completed)];
      return true;
    }

    method Commit(id: JobId) returns (ok: bool)
      requires Valid()
      modifies this`jobs
      ensures Did(Op.Commit, id, ok)
    {
      if id !in jobs || jobs[id].status != Completed {
        return false;
      }
      jobs := jobs[id := jobs[id].(status := Committed)];
      return true;
    }

    method Fail(id: JobId, error: string) returns (ok: bool)
      requires Valid()
      modifies this`jobs
      ensures Did(Op.Fail(error), id, ok)
    {
      if id !in jobs || jobs[id].status !in {Running, Scheduled} {
        return false;
      }
      jobs := jobs[id := jobs[id].(status := Failed, error := Some(error))];
      return true;
    }

    method Requeue(id: JobId) returns (ok: bool)
      requires Valid()
      modifies this`jobs
      ensures Did(Op.Requeue, id, ok)
    {
      if id !in jobs {
        return false;
      }
      var j := jobs[id];
      if !j.Retryable() {
        jobs := jobs[id := j.(status := Dead)];
        return false;
      }
      jobs := jobs[id := j.(status := PendingRetry, worker := None, retryCount := j.retryCount + 1)];
      return true;
    }

    method ListByWorker(worker: string) returns (found: seq<JobId>)
      requires Valid()
      ensures NoRepeats(found)
      ensures forall id :: id in found <==> id in jobs && jobs[id].worker == Some(worker)
    {
      found := [];
      for i := 0 to |order|
        invariant NoRepeats(found)
        invariant forall id :: id in found <==> id in order[..i] && jobs[id].worker == Some(worker)
      {
        assert order[..i + 1] == order[..i] + [order[i]];
        if jobs[order[i]].worker == Some(worker) {
          found := found + [order[i]];
        }
      }
      assert order[..|order|] == order;
    }

    /** `advance_pending`: the retry queue is emptied into the submitted jobs. */
    method AdvancePending() returns (ready: seq<JobId>)
      requires Valid()
      modifies this`jobs
      ensures Valid() && jobs == Requeued(old(jobs))
      ensures forall id :: id in ready <==> id in old(jobs) && old(jobs)[id].status == PendingRetry
    {
      ready := [];
      for i := 0 to |order|
        invariant forall id :: id in ready <==> id in order[..i] && jobs[id].status == PendingRetry
      {
        assert order[..i + 1] == order[..i] + [order[i]];
        if jobs[order[i]].status == PendingRetry {
          ready := ready + [order[i]];
        }
      }
      assert order[..|order|] == order;
      for i := 0 to |ready|
        invariant jobs.Keys == old(jobs).Keys
        invariant forall id | id in jobs :: jobs[id] == if id in ready[..i] then Advance(old(jobs)[id]) else old(jobs)[id]
      {
        assert ready[..i + 1] == ready[..i] + [ready[i]];
        assert ready[i] in ready;
        jobs := jobs[ready[i] := jobs[ready[i]].(status := Submitted)];
      }
      assert ready[..|ready|] == ready;
    }
  }

  class GPULeaseManager {
    var leases: Leases

    constructor ()
      ensures leases == map[]
    {
      leases := map[];
    }

    /** A GPU is given to a job unless an unexpired lease holds it. */
    method Acquire(gpu: string, job: JobId, worker: string, ttl: int, now: int) returns (ok: bool)
      modifies this
      ensures ok <==> (gpu in old(leases) ==> old(leases)[gpu].Expired(now))
      ensures leases == if ok then old(leases)[gpu := Lease(job, worker, ttl, now, 0)] else old(leases)
      ensures leases == LeaseNext(old(leases), LeaseOp.Acquire(gpu, job, worker, ttl, now))
    {
      if gpu !in leases || leases[gpu].Expired(now) {
        leases := leases[gpu := Lease(job, worker, ttl, now, 0)];
        return true;
      }
      return false;
    }

    method Release(gpu: string, job: JobId) returns (ok: bool)
      modifies this
      ensures ok <==> gpu in old(leases) && old(leases)[gpu].job == job
      ensures leases == if ok then old(leases) - {gpu} else old(leases)
      ensures leases == LeaseNext(old(leases), LeaseOp.Release(gpu, job))
    {
      ok := gpu in leases && leases[gpu].job == job;
      if ok {
        leases := leases - {gpu};
      }
    }

    method Renew(gpu: string, job: JobId) returns (ok: bool)
      modifies this
      ensures ok <==> gpu in old(leases) && old(leases)[gpu].job == job
      ensures leases == if ok then old(leases)[gpu := old(leases)[gpu].(renewed := old(leases)[gpu].renewed + 1)]
                        else old(leases)
      ensures leases == LeaseNext(old(leases), LeaseOp.Renew(gpu, job))
    {
      ok := gpu in leases && leases[gpu].job == job;
      if ok {
        leases := leases[gpu := leases[gpu].(renewed := leases[gpu].renewed + 1)];
      }
    }

    method CleanupExpired(now: string -> int)
      modifies this
      ensures leases == LeaseNext(old(leases), LeaseOp.Cleanup(now))
    {
      leases := Live(leases, now);
    }
  }

  datatype WorkerStatus = Healthy | Degraded | DeadWorker | Unknown

  datatype Worker = Worker(status: WorkerStatus, lastHeartbeat: int)

  class WorkerRegistry {
    var workers: map<string, Worker>
    var order: seq<string>

    ghost predicate Valid() reads this {
      && NoRepeats(order)
      && (forall id :: id in order <==> id in workers)
    }

    constructor ()
      ensures Valid() && workers == map[]
    {
      workers, order := map[], [];
    }

    /** Registering a known name replaces its record. */
    method Register(id: string, now: int)
      requires Valid()
      modifies this
      ensures Valid() && workers == old(workers)[id := Worker(Healthy, now)]
    {
      if id !in workers {
        order := order + [id];
      }
      workers := workers[id := Worker(Healthy, now)];
    }

    /** A heartbeat also brings a worker back that was declared dead. */
    method Heartbeat(id: string, now: int) returns (known: bool)
      requires Valid()
      modifies this`workers
      ensures Valid() && known == (id in old(workers))
      ensures workers == if known then old(workers)[id := Worker(Healthy, now)] else old(workers)
      ensures forall limit :: workers == RegNext(old(workers), Hears(id, now), limit)
    {
      known := id in workers;
      if known {
        workers := workers[id := workers[id].(lastHeartbeat := now, status := Healthy)];
      }
    }

    method MarkDead(id: string)
      requires Valid()
      modifies this`workers
      ensures Valid()
      ensures workers == if id in old(workers) then old(workers)[id := old(workers)[id].(status := DeadWorker)] else old(workers)
    {
      if id in workers {
        workers := workers[id := workers[id].(status := DeadWorker)];
      }
    }
  }

  predicate Overdue(w: Worker, seen: int, limit: int) {
    seen - w.lastHeartbeat > limit && w.status == Healthy
  }

  ghost function OverdueIn(ws: map<string, Worker>, now: string -> int, limit: int): set<string> {
    set id | id in ws && Overdue(ws[id], now(id), limit)
  }

  /** Overdue are the healthy workers whose last heartbeat lies more than the limit back. */
  lemma OverdueExactly(ws: map<string, Worker>, now: string -> int, limit: int, id: string)
    ensures id in OverdueIn(ws, now, limit) <==>
            id in ws && ws[id].status == Healthy && now(id) > ws[id].lastHeartbeat + limit
  {}

  // ---------------------------------------------------------------- Runs of the registry

  /** A worker is heard, or the reconciler looks at all of them. */
  datatype Beat = Hears(id: string, at: int) | Looks(now: string -> int)

  function RegNext(ws: map<string, Worker>, e: Beat, limit: int): map<string, Worker> {
    match e
    case Hears(id, at) => if id in ws then ws[id := Worker(Healthy, at)] else ws
    case Looks(now) => map id | id in ws :: if Overdue(ws[id], now(id), limit) then ws[id].(status := DeadWorker) else ws[id]
  }

  function RegAfter(ws: map<string, Worker>, es: seq<Beat>, limit: int): map<string, Worker>
    decreases |es|
  {
    if es == [] then ws else RegAfter(RegNext(ws, es[0], limit), es[1..], limit)
  }

  /** Whenever the reconciler looks, the worker was heard at most the limit ago. */
  predicate Attentive(es: seq<Beat>, id: string, last: int, limit: int)
    decreases |es|
  {
    es == [] ||
    match es[0]
    case Hears(w, at) => Attentive(es[1..], id, if w == id then at else last, limit)
    case Looks(now) => now(id) <= last + limit && Attentive(es[1..], id, last, limit)
  }

  /** Some look has declared the worker dead. */
  predicate DeclaredDead(ws: map<string, Worker>, es: seq<Beat>, id: string, limit: int)
    requires id in ws
    decreases |es|
  {
    es != [] &&
    var next := RegNext(ws, es[0], limit);
    (ws[id].status == Healthy && next[id].status == DeadWorker) || DeclaredDead(next, es[1..], id, limit)
  }

  /** A healthy worker is ever declared dead if and only if at some look its last heartbeat lay more
      than the limit back. */
  lemma {:induction false} DeclaredDeadExactly(ws: map<string, Worker>, es: seq<Beat>, id: string, limit: int)
    requires id in ws && ws[id].status == Healthy
    ensures DeclaredDead(ws, es, id, limit) <==> !Attentive(es, id, ws[id].lastHeartbeat, limit)
    ensures Attentive(es, id, ws[id].lastHeartbeat, limit) ==>
              id in RegAfter(ws, es, limit) && RegAfter(ws, es, limit)[id].status == Healthy
    decreases |es|
  {
    if es != [] && RegNext(ws, es[0], limit)[id].status == Healthy {
      DeclaredDeadExactly(RegNext(ws, es[0], limit), es[1..], id, limit);
    }
  }

  /** The registry once the workers `dead` are declared dead. */
  ghost predicate Buried(ws: map<string, Worker>, dead: set<string>, us: map<string, Worker>) {
    && us.Keys == ws.Keys
    && (forall id | id in ws :: us[id] == if id in dead then ws[id].(status := DeadWorker) else ws[id])
  }

  lemma BuriedIsNext(ws: map<string, Worker>, now: string -> int, limit: int)
    ensures forall us | Buried(ws, OverdueIn(ws, now, limit), us) :: us == RegNext(ws, Looks(now), limit)
  {}

  class Reconciler {
    const reg: WorkerRegistry
    const store: JobStore
    const leases: GPULeaseManager
    const limit: int
    var ticks: nat

    ghost predicate Valid() reads reg, store {
      reg.Valid() && store.Valid()
    }

    constructor (reg: WorkerRegistry, store: JobStore, leases: GPULeaseManager, limit: int)
      ensures this.reg == reg && this.store == store && this.leases == leases && this.limit == limit && ticks == 0
    {
      this.reg, this.store, this.leases, this.limit, ticks := reg, store, leases, limit, 0;
    }

    method ReleaseGpus(id: JobId, worker: string, gpus: nat)
      modifies leases
      ensures Released(old(leases.leases), id, worker, gpus, leases.leases)
    {
      for i := 0 to gpus
        invariant Released(old(leases.leases), id, worker, i, leases.leases)
      {
        OneMoreGpu(old(leases.leases), id, worker, i, leases.leases);
        var released := leases.Release(GpuId(worker, i), id);
      }
    }

    /** The inner loop's body: fail the job if it was running, requeue it, and free its GPUs if
        that succeeded. */
    method RecoverJob(id: JobId, worker: string)
      requires Valid() && id in store.jobs
      modifies store`jobs, leases
      ensures Valid() && store.jobs == old(store.jobs)[id := Orphaned(old(store.jobs)[id], worker)]
      ensures var d := old(store.jobs)[id];
              if Retried(d) then Released(old(leases.leases), id, worker, d.gpus, leases.leases)
              else leases.leases == old(leases.leases)
    {
      OrphanedByOps(store.jobs[id], worker);
      if store.jobs[id].status == Running {
        var failed := store.Fail(id, DeathNote(worker));
      }
      if store.jobs[id].status in {Scheduled, Failed} {
        var requeued := store.Requeue(id);
        if requeued {
          ReleaseGpus(id, worker, store.jobs[id].gpus);
        }
      }
    }

    /** The jobs `ids` have been orphaned since the store was `s` and the leases `ls`. */
    ghost predicate Handled(s: Records, ls: Leases, ids: set<JobId>) reads store, leases {
      Mended(s, ids, store.jobs) && Freed(ls, s, ids, leases.leases)
    }

    /** One more job of a dead worker, after `handled`. */
    method RecoverNext(id: JobId, worker: string, ghost s: Records, ghost ls: Leases, ghost handled: set<JobId>)
      requires Valid() && id in store.jobs && store.jobs[id].worker == Some(worker) && Handled(s, ls, handled)
      modifies store`jobs, leases
      ensures Valid() && Handled(s, ls, handled + {id})
      ensures forall k | k in old(store.jobs) && k != id :: k in store.jobs && store.jobs[k] == old(store.jobs)[k]
    {
      ghost var t, fs := store.jobs, leases.leases;
      RecoverJob(id, worker);
      OneMoreJob(s, ls, handled, id, t, fs, leases.leases);
    }

    /** The inner loop, continuing from workers already handled. */
    method RecoverWorker(worker: string, ghost s: Records, ghost ls: Leases, ghost dead: set<string>)
      requires Valid() && worker !in dead && Handled(s, ls, HeldBy(s, dead))
      modifies store`jobs, leases
      ensures Valid() && Handled(s, ls, HeldBy(s, dead + {worker}))
    {
      var orphans := store.ListByWorker(worker);
      ghost var before := HeldBy(s, dead);
      HeldAre(s, dead, worker, store.jobs, orphans);
      for i := 0 to |orphans|
        invariant forall k | i <= k < |orphans| :: orphans[k] in store.jobs && store.jobs[orphans[k]].worker == Some(worker)
        invariant Valid() && Handled(s, ls, WithIds(before, orphans, i))
      {
        OneMoreId(before, orphans, i);
        RecoverNext(orphans[i], worker, s, ls, WithIds(before, orphans, i));
      }
    }

    /** The outer loop: every overdue worker is declared dead and its jobs orphaned. */
    method BuryOverdue(now: string -> int)
      requires Valid()
      modifies reg`workers, store`jobs, leases
      ensures Valid()
      ensures var dead := OverdueIn(old(reg.workers), now, limit);
              Buried(old(reg.workers), dead, reg.workers)
              && Handled(old(store.jobs), old(leases.leases), HeldBy(old(store.jobs), dead))
    {
      ghost var ws, s, ls := reg.workers, store.jobs, leases.leases;
      ghost var dead: set<string> := {};
      var all := reg.order;
      for i := 0 to |all|
        invariant Valid() && reg.order == all
        invariant dead == set id | id in OverdueIn(ws, now, limit) && id in all[..i]
        invariant Buried(ws, dead, reg.workers)
        invariant Handled(s, ls, HeldBy(s, dead))
      {
        var w := all[i];
        assert all[..i + 1] == all[..i] + [w];
        assert w !in all[..i];
        if Overdue(reg.workers[w], now(w), limit) {
          reg.MarkDead(w);
          RecoverWorker(w, s, ls, dead);
          dead := dead + {w};
        }
      }
      assert all[..|all|] == all;
      assert dead == OverdueIn(ws, now, limit);
    }

    /** The tick but for its count. */
    method Reconcile(now: string -> int, expiry: string -> int)
      requires Valid()
      modifies reg`workers, store`jobs, leases
      ensures Valid()
      ensures Buried(old(reg.workers), OverdueIn(old(reg.workers), now, limit), reg.workers)
      ensures store.jobs == TickedAll(old(store.jobs), OverdueIn(old(reg.workers), now, limit))
      ensures Swept(old(leases.leases), old(store.jobs),
                    HeldBy(old(store.jobs), OverdueIn(old(reg.workers), now, limit)), expiry, leases.leases)
    {
      ghost var s, dead := store.jobs, OverdueIn(reg.workers, now, limit);
      BuryOverdue(now);
      TickedStore(s, dead, store.jobs);
      leases.CleanupExpired(expiry);
      var ready := store.AdvancePending();
    }

    /** One tick: overdue workers are dead, their jobs orphaned, the leases of the retried jobs
        freed, expired leases dropped and the retry queue emptied. */
    method Tick(now: string -> int, expiry: string -> int)
      requires Valid()
      modifies this`ticks, reg`workers, store`jobs, leases
      ensures Valid() && ticks == old(ticks) + 1
      ensures reg.workers.Keys == old(reg.workers).Keys
      ensures forall id | id in old(reg.workers) ::
                var w := old(reg.workers)[id];
                reg.workers[id] == if w.status == Healthy && now(id) > w.lastHeartbeat + limit then w.(status := DeadWorker) else w
      ensures reg.workers == RegNext(old(reg.workers), Looks(now), limit)
      ensures store.jobs == TickedAll(old(store.jobs), OverdueIn(old(reg.workers), now, limit))
      ensures NoOrphans(old(store.jobs), OverdueIn(old(reg.workers), now, limit), store.jobs)
      ensures Swept(old(leases.leases), old(store.jobs),
                    HeldBy(old(store.jobs), OverdueIn(old(reg.workers), now, limit)), expiry, leases.leases)
    {
      BuriedIsNext(reg.workers, now, limit);
      TickedHasNoOrphans(store.jobs, OverdueIn(reg.workers, now, limit));
      ticks := ticks + 1;
      Reconcile(now, expiry);
    }
  }

  /** In the runs of the store the tick is one event. */
  lemma TickIsEvent(b: Book, dead: set<string>)
    ensures Next(Event.Tick(dead), b) == Book(b.order, TickedAll(b.jobs, dead))
  {}
}
