/** Compensating a cancelled job, over whole runs: what the worker leaves behind when it is done,
    how long a refund marker lives, and which step can destroy one too early. */
module ProtocolMarker {
  import opened Basics
  import opened Ledger
  import opened Jobs
  import opened Billing
  import opened Protocol
  import opened ProtocolMoney
  import opened ProtocolStatus

  /** The marker stands for a debit, and whoever holds a debit of the job holds that one. */
  lemma OneAmount(rows: seq<Entry>, tenant: string, j: string, a: nat, b: nat)
    requires Sound(rows) && DebitEntry(tenant, j, a) in rows && DebitEntry(tenant, j, b) in rows
    ensures a == b
  {
    UniqueRow(rows, DebitEntry(tenant, j, a), DebitEntry(tenant, j, b));
  }

  ghost predicate Promised(s: State, j: string, a: nat) {
    j in s.db.jobs && s.db.jobs[j].error == RefundPending(a)
  }

  ghost predicate PaidBack(s: State, j: string, a: nat) {
    j in s.db.jobs && RefundEntry(s.db.jobs[j].tenant, j, a) in s.db.rows
  }

  lemma ClearingIsPaid(s: State, p: nat, j: string, a: nat)
    requires Sound(s.db.rows) && KeysClean(s.db.rows) && MoneyFact(s, p) && s.procs[p].job == j
    requires s.procs[p].stage.Clearing? && DebitEntry(s.db.jobs[j].tenant, j, a) in s.db.rows
    ensures PaidBack(s, j, a)
  {
    OneAmount(s.db.rows, s.db.jobs[j].tenant, j, a, s.procs[p].amount);
    TakenMeansRefunded(s.db.rows, s.db.jobs[j].tenant, j, a);
  }

  // ---------------------------------------------------------------- Jobs that were not retried

  lemma WritersSpareMarker(s: State, ev: Event, j: string, a: nat)
    requires Enabled(s, ev) && !ev.Tamper? && !ev.ClearMarker? && !ev.Retry? && Writes(ev) && JobOf(s, ev) == j
    requires !ev.Submit? && JobFact(s, j) && (!OnJob(ev) ==> ActorFact(s, ev.pid))
    requires Promised(s, j, a) && !s.hist[j].retried
    ensures RowAfter(s, ev, j).error == RefundPending(a)
  {
  }

  lemma MarkerStep(s: State, ev: Event, j: string, a: nat)
    requires StatusInv(s) && Enabled(s, ev) && Orderly(s, ev) && Promised(s, j, a)
    requires j in s.hist && !s.hist[j].retried && ev != Retry(j)
    ensures RowAfter(s, ev, j).error == RefundPending(a) || PaidBack(s, j, a)
  {
    assert JobFact(s, j);
    if RowAfter(s, ev, j) != s.db.jobs[j] {
      WrittenJob(s, ev, j);
      assert RowBacked(s.db.rows, j, s.db.jobs[j]);
      if ev.ClearMarker? {
        assert MoneyFact(s, ev.pid);
        ClearingIsPaid(s, ev.pid, j, a);
      } else {
        assert !OnJob(ev) ==> ActorFact(s, ev.pid);
        WritersSpareMarker(s, ev, j, a);
      }
    }
  }

  lemma TenantStays(s: State, ev: Event, j: string)
    requires MoneyInv(s) && Enabled(s, ev) && j in s.db.jobs
    ensures RowAfter(s, ev, j).tenant == s.db.jobs[j].tenant
  {
    RowWritten(s, ev);
  }

  lemma PaidStays(s: State, ev: Event, j: string, a: nat)
    requires MoneyInv(s) && Enabled(s, ev) && PaidBack(s, j, a)
    ensures PaidBack(Apply(s, ev), j, a)
  {
    MoneyStep(s, ev);
    TenantStays(s, ev, j);
    RowOfApply(s, ev, j);
  }

  /** Once written, the marker of a job that is never retried stays until the refund of exactly its
      amount is in the ledger, in every orderly run. */
  lemma {:induction false} MarkerStays(evs: seq<Event>, n: nat, j: string, a: nat)
    requires Tame(evs) && n <= |evs| && Valid(evs[..n]) && Promised(After(evs[..n]), j, a)
    requires j in After(evs).hist && !After(evs).hist[j].retried
    ensures Promised(After(evs), j, a) || PaidBack(After(evs), j, a)
    decreases |evs|
  {
    if n == |evs| {
      assert evs[..n] == evs;
    } else {
      var (front, ev) := (evs[..|evs| - 1], evs[|evs| - 1]);
      assert front[..n] == evs[..n];
      StatusAlways(front);
      JobStays(front, n, j);
      FlagsStep(After(front), ev, j);
      MarkerStays(front, n, j, a);
      if PaidBack(After(front), j, a) {
        PaidStays(After(front), ev, j, a);
      } else {
        MarkerStep(After(front), ev, j, a);
        RowOfApply(After(front), ev, j);
      }
    }
  }

  lemma {:induction false} JobStays(evs: seq<Event>, n: nat, j: string)
    requires Valid(evs) && n <= |evs| && Valid(evs[..n]) && j in After(evs[..n]).db.jobs
    ensures j in After(evs).db.jobs && j in After(evs).hist
    decreases |evs|
  {
    if n == |evs| {
      assert evs[..n] == evs;
    } else {
      var (front, ev) := (evs[..|evs| - 1], evs[|evs| - 1]);
      assert front[..n] == evs[..n];
      JobStays(front, n, j);
      RowOfApply(After(front), ev, j);
    }
    HistoryOfJobs(evs);
  }

  // ---------------------------------------------------------------- Where markers stand

  /** Neither status leads back to the queue. */
  predicate Ended(r: JobRow) { r.status == Cancelled || r.status == Completed }

  ghost predicate Repaying(q: Proc) { q.stage.Refunding? || q.stage.Marking? }

  ghost predicate MarkedOk(s: State, j: string) {
    j in s.db.jobs && (s.db.jobs[j].error.RefundPending? ==> Ended(s.db.jobs[j]) && NoWorkerOn(s, j))
  }

  ghost predicate RepayingOk(s: State, p: nat) {
    p in s.procs && (Repaying(s.procs[p]) ==> s.procs[p].job in s.db.jobs && Ended(s.db.jobs[s.procs[p].job]))
  }

  /** A marker stands on a cancelled or completed job with no worker left on it, and a worker that
      repays works on such a job. */
  ghost predicate RepayInv(s: State) {
    && (forall j | j in s.db.jobs :: MarkedOk(s, j))
    && (forall p | p in s.procs :: RepayingOk(s, p))
  }

  predicate Dispatch(ev: Event) { ev.DispatchOk? || ev.DispatchFail? }

  lemma EndedStays(s: State, ev: Event, j: string)
    requires Enabled(s, ev) && !ev.Tamper? && j in s.db.jobs && Ended(s.db.jobs[j])
    requires Dispatch(ev) ==> s.procs[ev.pid].job != j
    ensures Ended(RowAfter(s, ev, j)) && !(ev.Claim? && ev.job == j)
  {
    GuardSets(s.db.jobs[j].status);
  }

  lemma OnlyMarkRefundMarks(s: State, ev: Event, j: string)
    requires Enabled(s, ev) && j in s.db.jobs
    requires RowAfter(s, ev, j).error.RefundPending? && !s.db.jobs[j].error.RefundPending?
    ensures ev.MarkRefund? && s.procs[ev.pid].job == j
  {
  }

  /** A worker after the step was one before it, or has just claimed its job. */
  lemma WorkersBefore(s: State, ev: Event, q: nat)
    requires Enabled(s, ev) && q in Apply(s, ev).procs && Apply(s, ev).procs[q].Worker()
    ensures (ev.Claim? && ev.job == Apply(s, ev).procs[q].job)
            || (q in s.procs && s.procs[q].Worker() && s.procs[q].job == Apply(s, ev).procs[q].job
                && NextProc(s, ev) != Drop(q))
  {
    if NextProc(s, ev).Set? && NextProc(s, ev).pid == q { WorkersComeFromClaims(s, ev); }
  }

  lemma MarkedStep(s: State, ev: Event, j: string)
    requires StatusInv(s) && RepayInv(s) && Enabled(s, ev) && !ev.Tamper? && j in s.db.jobs
    requires RowAfter(s, ev, j).error.RefundPending?
    ensures Ended(RowAfter(s, ev, j)) && NoWorkerOn(Apply(s, ev), j)
  {
    MarkerHolds(s, ev, j);
    forall q | q in Apply(s, ev).procs
      ensures !(Apply(s, ev).procs[q].Worker() && Apply(s, ev).procs[q].job == j)
    {
      if Apply(s, ev).procs[q].Worker() && Apply(s, ev).procs[q].job == j { WorkersBefore(s, ev, q); }
    }
  }

  /** Before the step the job was marked and left alone, or its one worker marks it now. */
  lemma MarkerHolds(s: State, ev: Event, j: string)
    requires StatusInv(s) && RepayInv(s) && Enabled(s, ev) && !ev.Tamper? && j in s.db.jobs
    requires RowAfter(s, ev, j).error.RefundPending?
    ensures Ended(RowAfter(s, ev, j)) && !(ev.Claim? && ev.job == j)
    ensures forall q | q in s.procs && s.procs[q].Worker() && s.procs[q].job == j :: NextProc(s, ev) == Drop(q)
  {
    assert MarkedOk(s, j);
    if !s.db.jobs[j].error.RefundPending? {
      OnlyMarkRefundMarks(s, ev, j);
      assert RepayingOk(s, ev.pid);
    }
    EndedStays(s, ev, j);
  }

  lemma StillRepaying(s: State, ev: Event, p: nat)
    requires Enabled(s, ev) && p in Apply(s, ev).procs && Repaying(Apply(s, ev).procs[p])
    ensures p in s.procs && Apply(s, ev).procs[p].job == s.procs[p].job
    ensures Repaying(s.procs[p]) || (ev == CheckCancel(p, Fine) && s.procs[p].job in s.db.jobs && s.db.jobs[s.procs[p].job].status == Cancelled)
    ensures s.procs[p].Worker() && !s.procs[p].stage.Dispatching?
  {
  }

  lemma RepayingStep(s: State, ev: Event, p: nat)
    requires StatusInv(s) && RepayInv(s) && Enabled(s, ev) && !ev.Tamper?
    requires p in Apply(s, ev).procs && Repaying(Apply(s, ev).procs[p])
    ensures RepayingOk(Apply(s, ev), p)
  {
    StillRepaying(s, ev, p);
    assert RepayingOk(s, p) && ActorFact(s, p);
    EndedStays(s, ev, s.procs[p].job);
    RowOfApply(s, ev, s.procs[p].job);
  }

  lemma NewJobIsUnmarked(s: State, ev: Event, j: string)
    requires MoneyInv(s) && Enabled(s, ev) && j in Apply(s, ev).db.jobs && j !in s.db.jobs
    ensures Apply(s, ev).db.jobs[j].error == NoError
  {
    assert NextRow(s, ev).Some? && NextRow(s, ev).value.job == j;
  }

  lemma RepayStep(s: State, ev: Event)
    requires StatusInv(s) && RepayInv(s) && Enabled(s, ev) && Orderly(s, ev)
    ensures RepayInv(Apply(s, ev))
  {
    var s' := Apply(s, ev);
    forall j | j in s'.db.jobs
      ensures MarkedOk(s', j)
    {
      if j in s.db.jobs {
        RowOfApply(s, ev, j);
        if s'.db.jobs[j].error.RefundPending? { MarkedStep(s, ev, j); }
      } else {
        NewJobIsUnmarked(s, ev, j);
      }
    }
    forall p | p in s'.procs
      ensures RepayingOk(s', p)
    {
      if Repaying(s'.procs[p]) { RepayingStep(s, ev, p); }
    }
  }

  lemma {:induction false} RepayAlways(evs: seq<Event>)
    requires Tame(evs)
    ensures RepayInv(After(evs))
    decreases |evs|
  {
    if evs != [] {
      RepayAlways(evs[..|evs| - 1]);
      StatusAlways(evs[..|evs| - 1]);
      RepayStep(After(evs[..|evs| - 1]), evs[|evs| - 1]);
    }
  }

  // ---------------------------------------------------------------- What compensation leaves

  ghost predicate Forsaken(s: State, j: string, a: nat) {
    !PaidBack(s, j, a) && !Promised(s, j, a)
  }

  /** A death, a drain in one of its pauses, or a marker write that is lost. */
  predicate Fails(ev: Event, p: nat) {
    ev == Crash(p) || (ev.Drain? && ev.pid == p) || (ev.MarkRefund? && ev.pid == p && ev.f == Lost)
  }

  lemma OnlyOwnStepEnds(s: State, ev: Event, p: nat)
    requires Enabled(s, ev) && p in s.procs && p !in Apply(s, ev).procs
    ensures NextProc(s, ev) == Drop(p)
  {
  }

  lemma EndsWell(s: State, ev: Event, p: nat)
    requires Enabled(s, ev) && MoneyFact(s, p) && Sound(s.db.rows) && KeysClean(NextRows(s, ev))
    requires Repaying(s.procs[p]) && NextProc(s, ev) == Drop(p) && !Fails(ev, p)
    ensures
      var (j, a, t) := (s.procs[p].job, s.procs[p].amount, s.db.jobs[s.procs[p].job].tenant);
      RefundEntry(t, j, a) in NextRows(s, ev) || RowAfter(s, ev, j).error == RefundPending(a)
  {
    if ev.RefundTry? {
      var (j, a, t) := (s.procs[p].job, s.procs[p].amount, s.db.jobs[s.procs[p].job].tenant);
      RefundIsDurable(s.db.rows, t, j, a, ev.ins, ev.look);
      TakenMeansRefunded(NextRows(s, ev), t, j, a);
    }
  }

  lemma EndsBadly(s: State, ev: Event, p: nat)
    requires Enabled(s, ev) && Fails(ev, p) && p in s.procs && s.procs[p].job in s.db.jobs && Ended(s.db.jobs[s.procs[p].job])
    ensures RowAfter(s, ev, s.procs[p].job) == s.db.jobs[s.procs[p].job] && NextRows(s, ev) == s.db.rows
  {
    GuardSets(s.db.jobs[s.procs[p].job].status);
  }

  /** A worker that has seen a job cancelled after its debit leaves neither refund nor marker behind
      if and only if no attempt had brought the refund into the ledger, and it died, was drained in
      one of its pauses, or lost the marker write. */
  lemma CompensationEnds(evs: seq<Event>, p: nat)
    requires Tame(evs) && evs != [] && p in Before(evs).procs && p !in After(evs).procs
    requires Repaying(Before(evs).procs[p])
    ensures
      var (q, ev) := (Before(evs).procs[p], evs[|evs| - 1]);
      Forsaken(After(evs), q.job, q.amount) <==> !PaidBack(Before(evs), q.job, q.amount) && Fails(ev, p)
  {
    var front := evs[..|evs| - 1];
    StatusAlways(front);
    RepayAlways(front);
    CompensationStep(After(front), evs[|evs| - 1], p);
  }

  lemma CompensationStep(s: State, ev: Event, p: nat)
    requires StatusInv(s) && RepayInv(s) && Enabled(s, ev) && Orderly(s, ev)
    requires p in s.procs && p !in Apply(s, ev).procs && Repaying(s.procs[p])
    ensures Forsaken(Apply(s, ev), s.procs[p].job, s.procs[p].amount)
       <==> !PaidBack(s, s.procs[p].job, s.procs[p].amount) && Fails(ev, p)
  {
    var (j, a) := (s.procs[p].job, s.procs[p].amount);
    OnlyOwnStepEnds(s, ev, p);
    assert MoneyFact(s, p) && RepayingOk(s, p) && MarkedOk(s, j);
    assert !Promised(s, j, a);
    TenantStays(s, ev, j);
    RowOfApply(s, ev, j);
    if Fails(ev, p) {
      EndsBadly(s, ev, p);
    } else {
      KeysStep(s, ev);
      EndsWell(s, ev, p);
    }
  }

  // ---------------------------------------------------------------- How a marker is lost

  /** A sweeper that found no funds, and fetched another marker than its own, writes it. */
  predicate Overwrites(s: State, ev: Event, j: string)
    requires Enabled(s, ev)
  {
    && ev.SweepWrite? && s.procs[ev.pid].job == j && ev.f.Commits() && s.procs[ev.pid].stage.result == NoFundsLeft
    && s.procs[ev.pid].stage.caller.marker != PendingMarker(FundsShort, ExecOf(s.procs[ev.pid].stage.caller.marker))
  }

  lemma EndedWrites(s: State, ev: Event, j: string, a: nat)
    requires Enabled(s, ev) && !ev.Tamper? && !ev.ClearMarker? && Writes(ev) && !ev.Submit? && JobOf(s, ev) == j
    requires Promised(s, j, a) && Ended(s.db.jobs[j]) && (Own(ev) ==> !s.procs[ev.pid].Worker())
    ensures RowAfter(s, ev, j).error != RefundPending(a) <==> Overwrites(s, ev, j)
  {
    GuardSets(s.db.jobs[j].status);
  }

  lemma LostByWriter(s: State, ev: Event, j: string, a: nat)
    requires Enabled(s, ev) && !ev.Tamper? && Writes(ev) && !ev.Submit? && JobOf(s, ev) == j
    requires Sound(s.db.rows) && KeysClean(s.db.rows) && (!OnJob(ev) ==> MoneyFact(s, ev.pid))
    requires Promised(s, j, a) && MarkedOk(s, j) && !PaidBack(s, j, a)
    requires DebitEntry(s.db.jobs[j].tenant, j, a) in s.db.rows
    ensures RowAfter(s, ev, j).error != RefundPending(a) <==> Overwrites(s, ev, j)
  {
    if ev.ClearMarker? {
      ClearingIsPaid(s, ev.pid, j, a);
      assert false;
    } else {
      EndedWrites(s, ev, j, a);
    }
  }

  lemma LostByOther(s: State, ev: Event, j: string, a: nat)
    requires Enabled(s, ev) && !ev.Tamper? && j in s.hist && Promised(s, j, a)
    requires Writes(ev) && !ev.Submit? ==> JobOf(s, ev) != j
    ensures RowAfter(s, ev, j).error == RefundPending(a) && !Overwrites(s, ev, j)
  {
    ElsewhereSame(s, ev, j);
  }

  /** A marker that is not paid back yet is destroyed by exactly these writes. */
  lemma MarkerLostExactly(s: State, ev: Event, j: string, a: nat)
    requires StatusInv(s) && RepayInv(s) && Enabled(s, ev) && Orderly(s, ev)
    requires Promised(s, j, a) && !PaidBack(s, j, a)
    ensures RowAfter(s, ev, j).error != RefundPending(a) <==> Overwrites(s, ev, j)
  {
    if Writes(ev) && !ev.Submit? && JobOf(s, ev) == j {
      assert RowBacked(s.db.rows, j, s.db.jobs[j]) && MarkedOk(s, j);
      assert !OnJob(ev) ==> MoneyFact(s, ev.pid);
      LostByWriter(s, ev, j, a);
    } else {
      assert JobFact(s, j);
      LostByOther(s, ev, j, a);
    }
  }

  /** Such a write has struck the job after the first n steps. */
  predicate OverwrittenSince(evs: seq<Event>, n: nat, j: string)
    requires Valid(evs)
    decreases |evs|
  {
    n < |evs| && (OverwrittenSince(evs[..|evs| - 1], n, j) || Overwrites(Before(evs), evs[|evs| - 1], j))
  }

  /** Every marker of every job, retried or not, in every orderly run: it is still there, or paid
      back, or a sweeper's no-funds write has struck the job since. */
  lemma {:induction false} MarkerFate(evs: seq<Event>, n: nat, j: string, a: nat)
    requires Tame(evs) && n <= |evs| && Valid(evs[..n]) && Promised(After(evs[..n]), j, a)
    ensures Promised(After(evs), j, a) || PaidBack(After(evs), j, a) || OverwrittenSince(evs, n, j)
    decreases |evs|
  {
    if n == |evs| {
      assert evs[..n] == evs;
    } else {
      var front := evs[..|evs| - 1];
      assert front[..n] == evs[..n];
      MarkerFate(front, n, j, a);
      if !OverwrittenSince(front, n, j) { FateStep(evs, j, a); }
    }
  }

  lemma FateStep(evs: seq<Event>, j: string, a: nat)
    requires Tame(evs) && evs != [] && (Promised(Before(evs), j, a) || PaidBack(Before(evs), j, a))
    ensures Promised(After(evs), j, a) || PaidBack(After(evs), j, a) || Overwrites(Before(evs), evs[|evs| - 1], j)
  {
    var (s, ev) := (Before(evs), evs[|evs| - 1]);
    StatusAlways(evs[..|evs| - 1]);
    if PaidBack(s, j, a) {
      PaidStays(s, ev, j, a);
    } else {
      RepayAlways(evs[..|evs| - 1]);
      MarkerLostExactly(s, ev, j, a);
      RowOfApply(s, ev, j);
    }
  }

  // ---------------------------------------------------------------- Which markers are ever read

  /** What the refund sweeper's query returns. */
  predicate Fetchable(s: State, j: string) {
    j in s.db.jobs && s.db.jobs[j].status == Cancelled && s.db.jobs[j].error.RefundPending?
  }

  /** A route that has billed the job writes its last word. */
  predicate Completes(s: State, ev: Event, j: string)
    requires Enabled(s, ev)
  {
    ev.RouteWrite? && s.procs[ev.pid].job == j && s.procs[ev.pid].stage.result == BilledOk && ev.f.Commits()
  }

  lemma LeavesCancelled(s: State, ev: Event, j: string)
    requires Enabled(s, ev) && !ev.Tamper? && j in s.db.jobs && Ended(s.db.jobs[j])
    requires Dispatch(ev) ==> s.procs[ev.pid].job != j
    ensures RowAfter(s, ev, j).status == if Completes(s, ev, j) then Completed else s.db.jobs[j].status
  {
    GuardSets(s.db.jobs[j].status);
  }

  ghost predicate Retired(s: State, j: string) {
    j in s.db.jobs && Ended(s.db.jobs[j]) && NoWorkerOn(s, j)
  }

  lemma RetiredStays(s: State, ev: Event, j: string)
    requires Enabled(s, ev) && Orderly(s, ev) && Retired(s, j)
    ensures Retired(Apply(s, ev), j)
    ensures Apply(s, ev).db.jobs[j].status == if Completes(s, ev, j) then Completed else s.db.jobs[j].status
  {
    EndedStays(s, ev, j);
    LeavesCancelled(s, ev, j);
    RowOfApply(s, ev, j);
    forall q | q in Apply(s, ev).procs
      ensures !(Apply(s, ev).procs[q].Worker() && Apply(s, ev).procs[q].job == j)
    {
      if Apply(s, ev).procs[q].Worker() && Apply(s, ev).procs[q].job == j { WorkersBefore(s, ev, q); }
    }
  }

  /** That has happened after the first n steps. */
  predicate CompletedSince(evs: seq<Event>, n: nat, j: string)
    requires Valid(evs)
    decreases |evs|
  {
    n < |evs| && (CompletedSince(evs[..|evs| - 1], n, j) || Completes(Before(evs), evs[|evs| - 1], j))
  }

  lemma {:induction false} RetiredFate(evs: seq<Event>, n: nat, j: string)
    requires Tame(evs) && n <= |evs| && Valid(evs[..n]) && Retired(After(evs[..n]), j)
    ensures Retired(After(evs), j)
    ensures After(evs).db.jobs[j].status == if CompletedSince(evs, n, j) then Completed else After(evs[..n]).db.jobs[j].status
    decreases |evs|
  {
    if n == |evs| {
      assert evs[..n] == evs;
    } else {
      var front := evs[..|evs| - 1];
      assert front[..n] == evs[..n];
      RetiredFate(front, n, j);
      RetiredStays(After(front), evs[|evs| - 1], j);
    }
  }

  lemma {:induction false} TamePrefix(evs: seq<Event>, n: nat)
    requires Tame(evs) && n <= |evs|
    ensures Tame(evs[..n])
    decreases |evs|
  {
    if n == |evs| {
      assert evs[..n] == evs;
    } else {
      assert evs[..|evs| - 1][..n] == evs[..n];
      TamePrefix(evs[..|evs| - 1], n);
    }
  }

  /** From the moment a marker stands, the refund sweeper can fetch the job for as long as the marker
      is there and no route has completed it: after that the marker may stay, but nobody reads it. */
  lemma FetchableUntilCompleted(evs: seq<Event>, n: nat, j: string, a: nat)
    requires Tame(evs) && n <= |evs| && Valid(evs[..n]) && Promised(After(evs[..n]), j, a)
    ensures j in After(evs).db.jobs
    ensures Fetchable(After(evs), j) <==>
            && After(evs).db.jobs[j].error.RefundPending?
            && Fetchable(After(evs[..n]), j) && !CompletedSince(evs, n, j)
  {
    TamePrefix(evs, n);
    RepayAlways(evs[..n]);
    assert MarkedOk(After(evs[..n]), j);
    RetiredFate(evs, n, j);
  }
}
