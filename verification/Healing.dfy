/** What declaring workers dead does to the whole job store and to the GPU leases. */
module Healing {
  import opened Basics
  import opened JobLifecycle
  import Markers

  type Records = map<JobId, JobData>

  /** A lease lasts its time to live once, and once more for every renewal. */
  datatype Lease = Lease(job: JobId, worker: string, ttl: int, created: int, renewed: nat) {
    predicate Expired(now: int) {
      now > created + ttl * (1 + renewed)
    }
  }

  type Leases = map<string, Lease>

  /** A new lease runs out one time to live after it was made, and each renewal adds one more. */
  lemma LeaseLasts(l: Lease, now: int)
    ensures l.renewed == 0 ==> (l.Expired(now) <==> now - l.created > l.ttl)
    ensures l.(renewed := l.renewed + 1).Expired(now + l.ttl) <==> l.Expired(now)
  {
    assert l.ttl * (1 + (l.renewed + 1)) == l.ttl * (1 + l.renewed) + l.ttl;
  }

  datatype LeaseOp =
    | Acquire(gpu: string, job: JobId, worker: string, ttl: int, now: int)
    | Release(gpu: string, job: JobId)
    | Renew(gpu: string, job: JobId)
    | Cleanup(seen: string -> int)

  function LeaseNext(ls: Leases, op: LeaseOp): Leases {
    match op
    case Acquire(gpu, job, worker, ttl, now) =>
      if gpu !in ls || ls[gpu].Expired(now) then ls[gpu := Lease(job, worker, ttl, now, 0)] else ls
    case Release(gpu, job) => if gpu in ls && ls[gpu].job == job then ls - {gpu} else ls
    case Renew(gpu, job) =>
      if gpu in ls && ls[gpu].job == job then ls[gpu := ls[gpu].(renewed := ls[gpu].renewed + 1)] else ls
    case Cleanup(now) => Live(ls, now)
  }

  function LeasesAfter(ls: Leases, ops: seq<LeaseOp>): Leases
    decreases |ops|
  {
    if ops == [] then ls else LeasesAfter(LeaseNext(ls, ops[0]), ops[1..])
  }

  /** Nobody looks at the GPU after its lease has run out, and its holder does not give it up. */
  ghost predicate HeldThrough(ls: Leases, ops: seq<LeaseOp>, gpu: string, job: JobId)
    decreases |ops|
  {
    ops == [] ||
    (&& gpu in ls
     && (match ops[0]
         case Acquire(g, _, _, _, now) => g == gpu ==> now <= ls[gpu].created + ls[gpu].ttl * (1 + ls[gpu].renewed)
         case Release(g, j) => !(g == gpu && j == job)
         case Renew(_, _) => true
         case Cleanup(now) => now(gpu) <= ls[gpu].created + ls[gpu].ttl * (1 + ls[gpu].renewed))
     && HeldThrough(LeaseNext(ls, ops[0]), ops[1..], gpu, job))
  }

  /** Then the job keeps the GPU, whatever the others try. */
  lemma {:induction false} HolderKeeps(ls: Leases, ops: seq<LeaseOp>, gpu: string, job: JobId)
    requires gpu in ls && ls[gpu].job == job && HeldThrough(ls, ops, gpu, job)
    ensures gpu in LeasesAfter(ls, ops) && LeasesAfter(ls, ops)[gpu].job == job
    decreases |ops|
  {
    if ops != [] { HolderKeeps(LeaseNext(ls, ops[0]), ops[1..], gpu, job); }
  }

  lemma GpuSpelled(worker: string)
    ensures GpuId(worker, 0) == worker + "-gpu-0" && GpuId(worker, 7) == worker + "-gpu-7"
  {
  }

  /** The GPUs of a worker are told apart. */
  lemma GpusDiffer(worker: string, i: nat, k: nat)
    requires GpuId(worker, i) == GpuId(worker, k)
    ensures i == k
  {
    var head := worker + "-gpu-";
    assert GpuId(worker, i)[|head|..] == Markers.Decimal(i) && GpuId(worker, k)[|head|..] == Markers.Decimal(k);
    Markers.ValueOfDecimal(i);
    Markers.ValueOfDecimal(k);
  }

  function GpuId(worker: string, i: nat): string {
    worker + "-gpu-" + Markers.Decimal(i)
  }

  ghost predicate OneOf(gpu: string, worker: string, gpus: nat) {
    exists i: nat :: i < gpus && gpu == GpuId(worker, i)
  }

  /** A lease is taken from a retried job among `ids` when it is on a GPU of that job's worker. */
  ghost predicate Taken(gpu: string, l: Lease, s: Records, ids: set<JobId>) {
    && l.job in ids
    && l.job in s
    && s[l.job].worker.Some?
    && Retried(s[l.job])
    && OneOf(gpu, s[l.job].worker.value, s[l.job].gpus)
  }

  /** `fs` is `ls` without the leases taken from `ids`. */
  ghost predicate Freed(ls: Leases, s: Records, ids: set<JobId>, fs: Leases) {
    && (forall gpu :: gpu in fs <==> gpu in ls && !Taken(gpu, ls[gpu], s, ids))
    && (forall gpu | gpu in fs :: fs[gpu] == ls[gpu])
  }

  /** Also without the leases that have run out. */
  ghost predicate Swept(ls: Leases, s: Records, ids: set<JobId>, now: string -> int, fs: Leases) {
    && (forall gpu :: gpu in fs <==> gpu in ls && !Taken(gpu, ls[gpu], s, ids) && !ls[gpu].Expired(now(gpu)))
    && (forall gpu | gpu in fs :: fs[gpu] == ls[gpu])
  }

  function Mend(d: JobData, hit: bool): JobData {
    if hit && d.worker.Some? then Orphaned(d, d.worker.value) else d
  }

  /** `t` is `s` with the jobs `ids` orphaned. */
  ghost predicate Mended(s: Records, ids: set<JobId>, t: Records) {
    && t.Keys == s.Keys
    && (forall id | id in s :: t[id] == Mend(s[id], id in ids))
  }

  ghost function HeldBy(s: Records, dead: set<string>): set<JobId> {
    set id | id in s && s[id].worker.Some? && s[id].worker.value in dead
  }

  /** Which leases are gone after a tick: those that have run out, and those that a running or failed
      job with retries left had on the GPUs of its dead worker. */
  lemma SweptExactly(ls: Leases, s: Records, dead: set<string>, now: string -> int, fs: Leases, gpu: string)
    requires Swept(ls, s, HeldBy(s, dead), now, fs) && gpu in ls
    ensures
      var l := ls[gpu];
      var orphaned := l.job in s && s[l.job].worker.Some? && s[l.job].worker.value in dead
                      && s[l.job].status in {Running, Failed} && s[l.job].retryCount < s[l.job].maxRetries
                      && exists i: nat :: i < s[l.job].gpus && gpu == GpuId(s[l.job].worker.value, i);
      && (gpu in fs <==> now(gpu) <= l.created + l.ttl * (1 + l.renewed) && !orphaned)
      && (gpu in fs ==> fs[gpu] == l)
  {
  }

  function Live(ls: Leases, now: string -> int): Leases {
    map gpu | gpu in ls && !ls[gpu].Expired(now(gpu)) :: ls[gpu]
  }

  function Requeued(s: Records): Records {
    map id | id in s :: Advance(s[id])
  }

  /** `fs` is `ls` without the job's leases on the worker's first `n` GPUs. */
  ghost predicate Released(ls: Leases, id: JobId, worker: string, n: nat, fs: Leases) {
    && (forall gpu :: gpu in fs <==> gpu in ls && !(ls[gpu].job == id && OneOf(gpu, worker, n)))
    && (forall gpu | gpu in fs :: fs[gpu] == ls[gpu])
  }

  lemma OneMoreGpu(ls: Leases, id: JobId, worker: string, n: nat, fs: Leases)
    requires Released(ls, id, worker, n, fs)
    ensures Released(ls, id, worker, n + 1,
              if GpuId(worker, n) in fs && fs[GpuId(worker, n)].job == id then fs - {GpuId(worker, n)} else fs)
  {
    forall gpu | gpu in ls
      ensures OneOf(gpu, worker, n + 1) <==> OneOf(gpu, worker, n) || gpu == GpuId(worker, n)
    {}
  }

  /** Orphaning one more job that still has a worker. */
  lemma OneMoreJob(s: Records, ls: Leases, ids: set<JobId>, id: JobId, t: Records, fs: Leases, gs: Leases)
    requires Mended(s, ids, t) && Freed(ls, s, ids, fs)
    requires id in s && t[id].worker.Some?
    requires if Retried(t[id]) then Released(fs, id, t[id].worker.value, t[id].gpus, gs) else gs == fs
    ensures Mended(s, ids + {id}, t[id := Orphaned(t[id], t[id].worker.value)])
    ensures Freed(ls, s, ids + {id}, gs)
  {
    forall gpu | gpu in ls
      ensures Taken(gpu, ls[gpu], s, ids + {id}) <==> Taken(gpu, ls[gpu], s, ids) || Taken(gpu, ls[gpu], t, {id})
    {}
  }

  ghost function WithIds(ids: set<JobId>, more: seq<JobId>, n: nat): set<JobId>
    requires n <= |more|
  {
    ids + set k | 0 <= k < n :: more[k]
  }

  lemma OneMoreId(ids: set<JobId>, more: seq<JobId>, n: nat)
    requires n < |more|
    ensures WithIds(ids, more, n + 1) == WithIds(ids, more, n) + {more[n]}
  {}

  /** The jobs a later worker held are the ones it still holds after the earlier ones. */
  lemma HeldAre(s: Records, dead: set<string>, w: string, t: Records, ids: seq<JobId>)
    requires w !in dead && Mended(s, HeldBy(s, dead), t)
    requires forall id :: id in ids <==> id in t && t[id].worker == Some(w)
    ensures WithIds(HeldBy(s, dead), ids, 0) == HeldBy(s, dead)
    ensures WithIds(HeldBy(s, dead), ids, |ids|) == HeldBy(s, dead + {w})
  {
    HeldLater(s, dead, w, t, set id | id in ids);
    assert (set id | id in ids) == set k | 0 <= k < |ids| :: ids[k];
  }

  lemma HeldLater(s: Records, dead: set<string>, w: string, t: Records, ids: set<JobId>)
    requires w !in dead && Mended(s, HeldBy(s, dead), t)
    requires forall id :: id in ids <==> id in t && t[id].worker == Some(w)
    ensures HeldBy(s, dead + {w}) == HeldBy(s, dead) + ids
  {}

  /** The store after a whole tick. */
  function TickedAll(s: Records, dead: set<string>): Records {
    map id | id in s :: Ticked(s[id], dead)
  }

  lemma TickedStore(s: Records, dead: set<string>, t: Records)
    requires Mended(s, HeldBy(s, dead), t)
    ensures Requeued(t) == TickedAll(s, dead)
  {}

  /** What a tick promises of the whole store: nothing waits for a retry any more, no job of a dead
      worker is scheduled, running or failed, each orphan has become what its retries allow, and
      every other job has at most left the retry queue. */
  ghost predicate NoOrphans(s: Records, dead: set<string>, t: Records) {
    && t.Keys == s.Keys
    && (forall id | id in t :: t[id].status != PendingRetry)
    && (forall id | id in t && t[id].worker.Some? && t[id].worker.value in dead ::
          t[id].status !in {Scheduled, Running, Failed})
    && (forall id | id in s ::
          if Orphan(s[id], dead) then
            if Retried(s[id]) then t[id].status == Submitted && t[id].worker == None && t[id].retryCount == s[id].retryCount + 1
            else t[id].status == Dead && t[id].worker == s[id].worker && t[id].retryCount == s[id].retryCount
          else t[id] == if s[id].status == PendingRetry then s[id].(status := Submitted) else s[id])
  }

  predicate Orphan(d: JobData, dead: set<string>) {
    d.worker.Some? && d.worker.value in dead && d.status in {Running, Failed, Scheduled}
  }

  lemma TickedHasNoOrphans(s: Records, dead: set<string>)
    ensures NoOrphans(s, dead, TickedAll(s, dead))
  {
    forall id | id in s
      ensures TickedAll(s, dead)[id] == Ticked(s[id], dead)
    {
      TickLeavesNoOrphans(s[id], dead);
    }
  }
}
