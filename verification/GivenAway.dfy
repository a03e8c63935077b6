/** The two ways a worker's last write gives a run away, as runs: the job was acknowledged as failed
    and retried around the worker's look at it, or the backend ended the run in a raw status. */
module GivenAway {
  import opened Basics
  import opened Jobs
  import opened Billing
  import opened Protocol
  import opened ProtocolStatus
  import opened ProtocolExits
  import opened Runs

  const STARTED := NEW.(status := Running, backend := Some(Local))

  function Lived(n: nat, exec: Status): Hist { FRESH.(claimed := true, run := Some(Run(n, exec))) }
  function Worker(n: nat, stage: Stage): Proc { Finished(n, Local, stage) }

  lemma PollsAs(h: Hist, p: nat, n: nat, exec: Status)
    requires ExecStatus(exec)
    ensures Goes(Snap([], NOTHING, STARTED, NOBODY[p := Dispatched(Local)], h), PollDone(p, exec, n),
              Snap([], NOTHING, STARTED, NOBODY[p := Worker(n, Reading(ByWorker(exec, n)))], h.(run := Some(Run(n, exec)))))
  {
    var to := Worker(n, Reading(ByWorker(exec, n)));
    Assembled([], NOTHING, STARTED, NOBODY[p := Dispatched(Local)], h, [], NOTHING, None, Set(p, to),
              Some(HistWrite(JOB, h.(run := Some(Run(n, exec))))));
    Overwritten(NOBODY, p, Dispatched(Local), to);
  }

  lemma WritesAs(r: JobRow, h: Hist, p: nat, n: nat, exec: Status, res: BillingStatus, r': JobRow)
    requires r.status in {Queued, Running} && r.tenant == OWNER
    requires r' == WorkerPatch(exec, res, n, Cost(n)).On(r) && r'.status != BillingPending
    ensures Goes(Snap([], NOTHING, r, NOBODY[p := Worker(n, Deciding(ByWorker(exec, n), res))], h), WorkerWrite(p, Fine),
              Snap([], NOTHING, r', NOBODY, h))
  {
    var q := Worker(n, Deciding(ByWorker(exec, n), res));
    GuardSets(r.status);
    Dropped(NOBODY, p, q);
    Assembled([], NOTHING, r, NOBODY[p := q], h, [], NOTHING, Some(Write(JOB, r')), Drop(p), None);
  }

  /** A job of an owner without money is run and ends as the backend says. */
  lemma Ends(n: nat, exec: Status) returns (evs: seq<Event>)
    requires ExecStatus(exec)
    ensures Tame(evs)
    ensures After(evs) == Snap([], NOTHING, STARTED, NOBODY[0 := Worker(n, Reading(ByWorker(exec, n)))], Lived(n, exec))
  {
    var h := FRESH.(claimed := true);
    Submits();
    evs := Step([], Submit(JOB, OWNER), Snap([], NOTHING, NEW, NOBODY, FRESH));
    Claims([], NOTHING, NEW, NOBODY, FRESH, 0);
    evs := Step(evs, Claim(0, JOB), Snap([], NOTHING, NEW.(status := Running), NOBODY[0 := Working(Dispatching)], h));
    Dispatches([], NOTHING, NEW.(status := Running), NOBODY, h, 0, Local);
    evs := Step(evs, DispatchOk(0, Local, Fine), Snap([], NOTHING, STARTED, NOBODY[0 := Dispatched(Local)], h));
    PollsAs(h, 0, n, exec);
    evs := Step(evs, PollDone(0, exec, n),
                Snap([], NOTHING, STARTED, NOBODY[0 := Worker(n, Reading(ByWorker(exec, n)))], Lived(n, exec)));
  }

  // ---------------------------------------------------------------- Retried around the look

  lemma FailsByAck(procs: Procs, h: Hist)
    ensures Goes(Snap([], NOTHING, STARTED, procs, h), AckFail(JOB, None), Snap([], NOTHING, STARTED.(status := Failed), procs, h))
  {
    Assembled([], NOTHING, STARTED, procs, h, [], NOTHING, Some(Write(JOB, STARTED.(status := Failed))), Keep, None);
  }

  lemma SkippedAndRetried(n: nat) returns (evs: seq<Event>)
    ensures Tame(evs)
    ensures After(evs) == Snap([], NOTHING, STARTED.(status := Queued),
                               NOBODY[0 := Worker(n, Deciding(ByWorker(Completed, n), Skipped))], Lived(n, Completed).(retried := true))
  {
    var (c, h, r) := (ByWorker(Completed, n), Lived(n, Completed), STARTED.(status := Failed));
    evs := Ends(n, Completed);
    FailsByAck(NOBODY[0 := Worker(n, Reading(c))], h);
    evs := Step(evs, AckFail(JOB, None), Snap([], NOTHING, r, NOBODY[0 := Worker(n, Reading(c))], h));
    Reads([], NOTHING, r, NOBODY, h, 0, Worker(n, Reading(c)), Fine);
    evs := Step(evs, Read(0, Fine), Snap([], NOTHING, r, NOBODY[0 := Worker(n, Deciding(c, Skipped))], h));
    Runs.Retries([], NOTHING, r, NOBODY[0 := Worker(n, Deciding(c, Skipped))], h);
    evs := Step(evs, Retry(JOB), Snap([], NOTHING, STARTED.(status := Queued), NOBODY[0 := Worker(n, Deciding(c, Skipped))], h.(retried := true)));
  }

  /** The worker finds the job ended and skips the billing; a retry opens it again; and the worker's
      last write completes it, for any length of the run, at no cost. */
  lemma SkippedThenRetried(n: nat) returns (evs: seq<Event>)
    requires n > 0
    ensures Tame(evs) && evs != [] && evs[|evs| - 1] == WorkerWrite(0, Fine)
    ensures After(evs) == Snap([], NOTHING, STARTED.(status := Completed, duration := n), NOBODY, Lived(n, Completed).(retried := true))
    ensures LeavesFree(After(evs), JOB, Cost(n))
  {
    var h := Lived(n, Completed).(retried := true);
    evs := SkippedAndRetried(n);
    WritesAs(STARTED.(status := Queued), h, 0, n, Completed, Skipped, STARTED.(status := Completed, duration := n));
    evs := Step(evs, WorkerWrite(0, Fine), Snap([], NOTHING, STARTED.(status := Completed, duration := n), NOBODY, h));
  }

  // ---------------------------------------------------------------- A raw status

  lemma RawRow(n: nat)
    ensures WorkerPatch(Error, OtherFailed, n, Cost(n)).On(STARTED)
         == STARTED.(status := Error, error := Billing(OtherError, None), duration := n)
  {}

  /** The backend ends the run in "error" and the billing fails on its first read: the job is written
      with that status, never parked, and so never billed. */
  lemma RawStatusIsFree(n: nat) returns (evs: seq<Event>)
    requires n > 0
    ensures Tame(evs) && evs != [] && evs[|evs| - 1] == WorkerWrite(0, Fine)
    ensures After(evs) == Snap([], NOTHING, STARTED.(status := Error, error := Billing(OtherError, None), duration := n), NOBODY, Lived(n, Error))
    ensures !After(evs).hist[JOB].retried
    ensures LeavesFree(After(evs), JOB, Cost(n))
  {
    var (c, h) := (ByWorker(Error, n), Lived(n, Error));
    var r' := STARTED.(status := Error, error := Billing(OtherError, None), duration := n);
    evs := Ends(n, Error);
    Reads([], NOTHING, STARTED, NOBODY, h, 0, Worker(n, Reading(c)), Lost);
    evs := Step(evs, Read(0, Lost), Snap([], NOTHING, STARTED, NOBODY[0 := Worker(n, Deciding(c, OtherFailed))], h));
    RawRow(n);
    WritesAs(STARTED, h, 0, n, Error, OtherFailed, r');
    evs := Step(evs, WorkerWrite(0, Fine), Snap([], NOTHING, r', NOBODY, h));
  }
}
