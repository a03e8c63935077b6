/** The control plane's jobs as values: what each store operation and the reconciler's tick do to
    a job, and why jobs cannot be retried for ever. */
module JobLifecycle {
  import opened Basics

  datatype Status = Submitted | Scheduled | Running | Completed | Committed | Failed | Dead | PendingRetry

  /** The store's running number and a random part. */
  datatype JobId = JobId(number: nat, nonce: string)

  datatype JobData = JobData(status: Status, worker: Option<string>, gpus: nat, error: Option<string>,
                             retryCount: nat, maxRetries: int) {
    predicate Retryable() {
      retryCount < maxRetries && (status == Failed || status == Dead)
    }
  }

  datatype Op = Schedule(worker: string) | Start | Complete | Commit | Fail(error: string) | Requeue

  /** When the store answers True. */
  predicate Accepts(op: Op, d: JobData) {
    match op
    case Schedule(_) => d.status == Submitted
    case Start => d.status == Scheduled
    case Complete => d.status == Running
    case Commit => d.status == Completed
    case Fail(_) => d.status == Running || d.status == Scheduled
    case Requeue => d.Retryable()
  }

  function Act(op: Op, d: JobData): JobData {
    if !Accepts(op, d) then
      if op.Requeue? then d.(status := Dead) else d
    else
      match op
      case Schedule(w) => d.(status := Scheduled, worker := Some(w))
      case Start => d.(status := Running)
      case Complete => d.(status := Completed)
      case Commit => d.(status := Committed)
      case Fail(e) => d.(status := Failed, error := Some(e))
      case Requeue => d.(status := PendingRetry, worker := None, retryCount := d.retryCount + 1)
  }

  /** The store's state machine, operation by operation: from which status each is accepted, what an
      accepted one writes, and that a refused one changes nothing but for a requeue, which buries. */
  lemma ActsAs(op: Op, d: JobData)
    ensures Accepts(op, d) <==>
            match op
            case Schedule(_) => d.status == Submitted
            case Start => d.status == Scheduled
            case Complete => d.status == Running
            case Commit => d.status == Completed
            case Fail(_) => d.status in {Running, Scheduled}
            case Requeue => d.status in {Failed, Dead} && d.retryCount < d.maxRetries
    ensures var a := Act(op, d);
            && a.gpus == d.gpus && a.maxRetries == d.maxRetries
            && a.status == (if op.Requeue? && !(d.status in {Failed, Dead} && d.retryCount < d.maxRetries) then Dead
                            else if !Accepts(op, d) then d.status
                            else match op
                                 case Schedule(_) => Scheduled
                                 case Start => Running
                                 case Complete => Completed
                                 case Commit => Committed
                                 case Fail(_) => Failed
                                 case Requeue => PendingRetry)
            && a.worker == (if op.Schedule? && d.status == Submitted then Some(op.worker)
                            else if op.Requeue? && a.status == PendingRetry then None else d.worker)
            && a.error == (if op.Fail? && d.status in {Running, Scheduled} then Some(op.error) else d.error)
            && a.retryCount == d.retryCount + (if op.Requeue? && a.status == PendingRetry then 1 else 0)
  {}

  function Advance(d: JobData): JobData {
    if d.status == PendingRetry then d.(status := Submitted) else d
  }

  function DeathNote(worker: string): string {
    "Worker " + worker + " died"
  }

  /** Whether a worker's death sends the job back to the queue, leases and all. */
  predicate Retried(d: JobData) {
    d.retryCount < d.maxRetries && (d.status == Running || d.status == Failed)
  }

  /** What becomes of a job when its worker is declared dead. */
  function Orphaned(d: JobData, worker: string): JobData {
    var noted := if d.status == Running then d.(error := Some(DeathNote(worker))) else d;
    if Retried(d) then noted.(status := PendingRetry, worker := None, retryCount := d.retryCount + 1)
    else if d.status in {Running, Failed, Scheduled} then noted.(status := Dead)
    else d
  }

  /** The reconciler gets there with the store's own operations. */
  lemma OrphanedByOps(d: JobData, worker: string)
    ensures var failed := if d.status == Running then Act(Fail(DeathNote(worker)), d) else d;
            Orphaned(d, worker) == if failed.status in {Scheduled, Failed} then Act(Requeue, failed) else failed
  {}

  function Healed(d: JobData, dead: set<string>): JobData {
    if d.worker.Some? && d.worker.value in dead then Orphaned(d, d.worker.value) else d
  }

  function Ticked(d: JobData, dead: set<string>): JobData {
    Advance(Healed(d, dead))
  }

  /** After a tick nothing is left waiting for a retry, and no job of a worker declared dead is
      scheduled, running or failed: with retries left and its work begun it is back in the queue,
      unassigned and counted; otherwise it is dead. Jobs of other workers only leave the retry
      queue. */
  lemma TickLeavesNoOrphans(d: JobData, dead: set<string>)
    ensures var t := Ticked(d, dead);
            && t.status != PendingRetry
            && t.gpus == d.gpus && t.maxRetries == d.maxRetries
            && t.error == (if d.worker.Some? && d.worker.value in dead && d.status == Running
                           then Some("Worker " + d.worker.value + " died") else d.error)
            && (t.worker.Some? && t.worker.value in dead ==> t.status !in {Scheduled, Running, Failed})
            && (d.worker.Some? && d.worker.value in dead && d.status in {Running, Failed, Scheduled} ==>
                  if Retried(d) then t.status == Submitted && t.worker == None && t.retryCount == d.retryCount + 1
                  else t.status == Dead && t.worker == d.worker && t.retryCount == d.retryCount)
            && (d.worker.None? || d.worker.value !in dead || d.status !in {Running, Failed, Scheduled} ==>
                  t == if d.status == PendingRetry then d.(status := Submitted) else d)
  {}

  // ---------------------------------------------------------------- Runs of the store

  /** The jobs in the order they were submitted. */
  datatype Book = Book(order: seq<JobId>, jobs: map<JobId, JobData>) {
    ghost predicate Valid() {
      && (forall i, k | 0 <= i < k < |order| :: order[i] != order[k])
      && (forall id | id in order :: id in jobs)
    }
  }

  datatype Event = Submit(id: JobId, gpus: nat, maxRetries: int) | OnJob(id: JobId, op: Op) | AdvancePending | Tick(dead: set<string>)

  function NewJob(gpus: nat, maxRetries: int): JobData {
    JobData(Submitted, None, gpus, None, 0, maxRetries)
  }

  /** What an event does to a job already there. */
  function Touch(e: Event, id: JobId, d: JobData): JobData {
    match e
    case Submit(_, _, _) => d
    case OnJob(target, op) => if target == id then Act(op, d) else d
    case AdvancePending => Advance(d)
    case Tick(dead) => Ticked(d, dead)
  }

  function Next(e: Event, b: Book): (r: Book)
    ensures b.Valid() ==> r.Valid()
    ensures forall id | id in b.jobs :: id in r.jobs && r.jobs[id] == Touch(e, id, b.jobs[id])
  {
    if !e.Submit? then Book(b.order, map id | id in b.jobs :: Touch(e, id, b.jobs[id]))
    else if e.id in b.jobs then b
    else Book(b.order + [e.id], b.jobs[e.id := NewJob(e.gpus, e.maxRetries)])
  }

  function After(events: seq<Event>, b: Book): (r: Book)
    ensures b.Valid() ==> r.Valid()
    ensures forall id | id in b.jobs :: id in r.jobs
  {
    if events == [] then b else After(events[1..], Next(events[0], b))
  }

  // ---------------------------------------------------------------- Retries end

  function Left(d: JobData): nat {
    if d.retryCount < d.maxRetries then d.maxRetries - d.retryCount else 0
  }

  function Rank(s: Status): nat {
    match s
    case Dead => 0
    case Committed => 1
    case Failed => 1
    case Completed => 2
    case Running => 3
    case Scheduled => 4
    case Submitted => 5
    case PendingRetry => 6
  }

  function Measure(d: JobData): nat {
    7 * Left(d) + Rank(d.status)
  }

  /** Whatever changes a job uses up some of its measure. */
  lemma TouchDecreases(e: Event, id: JobId, d: JobData)
    ensures Touch(e, id, d) == d || Measure(Touch(e, id, d)) < Measure(d)
  {
    if e.Tick? { assert Left(Touch(e, id, d)) <= Left(d); }
  }

  ghost function Total(order: seq<JobId>, jobs: map<JobId, JobData>): nat
    requires forall id | id in order :: id in jobs
  {
    if order == [] then 0
    else
      assert forall id | id in order[1..] :: id in order;
      Measure(jobs[order[0]]) + Total(order[1..], jobs)
  }

  lemma {:induction false} TotalDecreases(e: Event, order: seq<JobId>, b: Book, r: Book)
    requires forall id | id in order :: id in b.jobs && id in r.jobs && r.jobs[id] == Touch(e, id, b.jobs[id])
    ensures Total(order, r.jobs) <= Total(order, b.jobs)
    ensures (exists id | id in order :: r.jobs[id] != b.jobs[id]) ==> Total(order, r.jobs) < Total(order, b.jobs)
  {
    if order != [] {
      TouchDecreases(e, order[0], b.jobs[order[0]]);
      assert forall id | id in order[1..] :: id in order;
      TotalDecreases(e, order[1..], b, r);
      assert forall id | id in order :: id == order[0] || id in order[1..];
    }
  }

  lemma {:induction false} TotalOfAppended(order: seq<JobId>, jobs: map<JobId, JobData>, id: JobId, d: JobData)
    requires forall k | k in order :: k in jobs
    requires id !in order
    ensures Total(order + [id], jobs[id := d]) == Total(order, jobs) + Measure(d)
  {
    if order == [] {
      assert [id][1..] == [];
    } else {
      assert (order + [id])[1..] == order[1..] + [id];
      assert forall k | k in order[1..] :: k in order;
      TotalOfAppended(order[1..], jobs, id, d);
    }
  }

  ghost predicate Effective(e: Event, b: Book) {
    !e.Submit? && Next(e, b) != b
  }

  ghost function EffectiveSteps(events: seq<Event>, b: Book): nat {
    if events == [] then 0
    else (if Effective(events[0], b) then 1 else 0) + EffectiveSteps(events[1..], Next(events[0], b))
  }

  /** What the jobs submitted in a run bring with them. */
  function Brought(events: seq<Event>, b: Book): nat {
    if events == [] then 0
    else
      var e := events[0];
      (if e.Submit? && e.id !in b.jobs then Measure(NewJob(e.gpus, e.maxRetries)) else 0)
      + Brought(events[1..], Next(e, b))
  }

  ghost predicate Listed(b: Book) {
    b.Valid() && forall id | id in b.jobs :: id in b.order
  }

  lemma StepDecreases(e: Event, b: Book)
    requires Listed(b)
    ensures Listed(Next(e, b))
    ensures Total(Next(e, b).order, Next(e, b).jobs) + (if Effective(e, b) then 1 else 0)
            <= Total(b.order, b.jobs) + (if e.Submit? && e.id !in b.jobs then Measure(NewJob(e.gpus, e.maxRetries)) else 0)
  {
    var r := Next(e, b);
    if e.Submit? {
      if e.id !in b.jobs { TotalOfAppended(b.order, b.jobs, e.id, NewJob(e.gpus, e.maxRetries)); }
    } else {
      TotalDecreases(e, b.order, b, r);
      if r.jobs != b.jobs {
        var id :| id in b.jobs && r.jobs[id] != b.jobs[id];
        assert id in b.order;
      }
    }
  }

  /** Retries end: in any run, the steps that change something number at most 7 * maxRetries + 5
      for every job submitted, on top of what the jobs already there had left. */
  lemma {:induction false} EffectiveStepsBounded(events: seq<Event>, b: Book)
    requires Listed(b)
    ensures EffectiveSteps(events, b) <= Total(b.order, b.jobs) + Brought(events, b)
  {
    if events != [] {
      StepDecreases(events[0], b);
      EffectiveStepsBounded(events[1..], Next(events[0], b));
    }
  }

  function Starts(events: seq<Event>, id: JobId, b: Book): nat
    requires id in b.jobs
  {
    if events == [] then 0
    else
      var r := Next(events[0], b);
      (if b.jobs[id].status != Running && r.jobs[id].status == Running then 1 else 0) + Starts(events[1..], id, r)
  }

  /** The runs a job may still begin. */
  function Chances(d: JobData): nat {
    Left(d) + if d.status in {Submitted, Scheduled, PendingRetry} then 1 else 0
  }

  lemma TouchUsesChance(e: Event, id: JobId, d: JobData)
    ensures var t := Touch(e, id, d);
            Chances(t) + (if d.status != Running && t.status == Running then 1 else 0) <= Chances(d)
  {}

  lemma TouchCountsRetries(e: Event, id: JobId, d: JobData)
    requires d.retryCount <= Max(0, d.maxRetries)
    ensures var t := Touch(e, id, d);
            t.maxRetries == d.maxRetries && d.retryCount <= t.retryCount <= Max(0, d.maxRetries)
  {}

  lemma {:induction false} StartsUseChances(events: seq<Event>, id: JobId, b: Book)
    requires id in b.jobs
    ensures Starts(events, id, b) + Chances(After(events, b).jobs[id]) <= Chances(b.jobs[id])
  {
    if events != [] {
      TouchUsesChance(events[0], id, b.jobs[id]);
      StartsUseChances(events[1..], id, Next(events[0], b));
    }
  }

  /** A job enters RUNNING at most maxRetries + 1 times, and its retry count stays within
      maxRetries. */
  lemma {:induction false} StartsBounded(events: seq<Event>, id: JobId, b: Book)
    requires id in b.jobs && b.jobs[id].retryCount <= Max(0, b.jobs[id].maxRetries)
    ensures var d := After(events, b).jobs[id];
            && d.maxRetries == b.jobs[id].maxRetries
            && b.jobs[id].retryCount <= d.retryCount <= Max(0, d.maxRetries)
    ensures Starts(events, id, b) <= Max(0, b.jobs[id].maxRetries) + 1
  {
    StartsUseChances(events, id, b);
    if events != [] {
      TouchCountsRetries(events[0], id, b.jobs[id]);
      StartsBounded(events[1..], id, Next(events[0], b));
    }
  }

  /** Nothing is running, completed or committed that was not started. */
  lemma {:induction false} DoneWasStarted(events: seq<Event>, id: JobId, b: Book)
    requires id in b.jobs && b.jobs[id].status !in {Running, Completed, Committed}
    requires After(events, b).jobs[id].status in {Running, Completed, Committed}
    ensures Starts(events, id, b) >= 1
  {
    TouchStarts(events[0], id, b.jobs[id]);
    if Next(events[0], b).jobs[id].status != Running { DoneWasStarted(events[1..], id, Next(events[0], b)); }
  }

  lemma TouchStarts(e: Event, id: JobId, d: JobData)
    requires d.status !in {Running, Completed, Committed}
    ensures Touch(e, id, d).status !in {Completed, Committed}
    ensures Touch(e, id, d).status == Running <==> e == OnJob(id, Start) && d.status == Scheduled
  {}

  // ---------------------------------------------------------------- Committed jobs

  /** A committed job is disturbed by one call only: a requeue addressed to it, whose refusal is a
      write. */
  lemma CommittedDisturbedBy(e: Event, id: JobId, d: JobData)
    requires d.status == Committed
    ensures Touch(e, id, d) != d <==> e == OnJob(id, Requeue)
  {}

  lemma {:induction false} CommittedIsFinal(events: seq<Event>, id: JobId, b: Book)
    requires id in b.jobs && b.jobs[id].status == Committed
    requires OnJob(id, Requeue) !in events
    ensures After(events, b).jobs[id] == b.jobs[id]
  {
    if events != [] {
      assert events[0] in events;
      CommittedDisturbedBy(events[0], id, b.jobs[id]);
      CommittedIsFinal(events[1..], id, Next(events[0], b));
    }
  }

  /** Two requeues bring a committed job back exactly when it has a retry left. */
  lemma CommittedRunsAgain(d: JobData)
    requires d.status == Committed
    ensures Act(Requeue, Act(Requeue, d)).status == (if d.retryCount < d.maxRetries then PendingRetry else Dead)
  {}
}
