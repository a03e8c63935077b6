/** The run that leaves billing_pending unpaid: parked with nothing to pay, fetched by two
    sweepers, retried, parked again with a real cost, and released by the sweeper that was late. */
module FreeExit {
  import opened Basics
  import opened Jobs
  import opened Billing
  import opened Protocol
  import opened ProtocolStatus
  import opened Runs

  /** Parked after a run of `n`, and released without billing. */
  function Parked(n: nat): JobRow { JobRow(OWNER, BillingPending, MARK, 0, n, Some(Local)) }
  function Freed(n: nat): JobRow { JobRow(OWNER, Failed, NoError, 0, n, Some(Local)) }

  const IDLE := Hist(true, false, false, true, true, false, Some(Run(0, Failed)))
  const RETRIED := IDLE.(retried := true)

  /** A sweeper of the job parked for nothing, told that there is nothing to bill. */
  const TOLD := Sweeping(Parked(0), Deciding(BySweeper(MARK, 0), Skipped))
  const LATE: Procs := NOBODY[2 := TOLD]

  lemma Frees(n: nat, base: Procs, h: Hist, p: nat)
    requires p !in base
    ensures Goes(Snap([], NOTHING, Parked(n), base[p := TOLD], h), SweepWrite(p, Fine), Snap([], NOTHING, Freed(n), base, h))
  {
    GuardSets(BillingPending);
    Sweeps([], NOTHING, Parked(n), base, h, p, TOLD, SweepPatch(Skipped, MARK, 0).value);
  }

  /** A sweeper fetches the job and finds nothing to bill. */
  lemma Told(evs: seq<Event>, base: Procs, h: Hist, p: nat) returns (more: seq<Event>)
    requires Tame(evs) && After(evs) == Snap([], NOTHING, Parked(0), base, h) && p !in base
    ensures Tame(more) && After(more) == Snap([], NOTHING, Parked(0), base[p := TOLD], h)
  {
    var q := Sweeping(Parked(0), Reading(BySweeper(MARK, 0)));
    Fetches([], NOTHING, Parked(0), base, h, p);
    more := Step(evs, FetchPending(p, JOB), Snap([], NOTHING, Parked(0), base[p := q], h));
    Reads([], NOTHING, Parked(0), base, h, p, q, Fine);
    more := Step(more, Read(p, Fine), Snap([], NOTHING, Parked(0), base[p := TOLD], h));
  }

  /** The job runs for no time at all and is parked. */
  lemma ParkedForNothing() returns (evs: seq<Event>)
    ensures Tame(evs) && After(evs) == Snap([], NOTHING, Parked(0), NOBODY, IDLE)
  {
    Submits();
    evs := Step([], Submit(JOB, OWNER), Snap([], NOTHING, NEW, NOBODY, FRESH));
    evs := Runs.Parks(evs, [], NOTHING, NEW, NOBODY, FRESH, 0, 0, Local);
  }

  /** Both sweepers fetch it. */
  lemma BothTold() returns (evs: seq<Event>)
    ensures Tame(evs) && After(evs) == Snap([], NOTHING, Parked(0), LATE[1 := TOLD], IDLE)
  {
    evs := ParkedForNothing();
    evs := Told(evs, NOBODY, IDLE, 2);
    evs := Told(evs, LATE, IDLE, 1);
  }

  /** One of them releases it, and its owner retries it. */
  lemma Requeued() returns (evs: seq<Event>)
    ensures Tame(evs) && After(evs) == Snap([], NOTHING, Freed(0).(status := Queued), LATE, RETRIED)
  {
    evs := BothTold();
    Frees(0, LATE, IDLE, 1);
    evs := Step(evs, SweepWrite(1, Fine), Snap([], NOTHING, Freed(0), LATE, IDLE));
    Retries([], NOTHING, Freed(0), LATE, IDLE);
    evs := Step(evs, Retry(JOB), Snap([], NOTHING, Freed(0).(status := Queued), LATE, RETRIED));
  }

  lemma ParkedAgain(n: nat) returns (evs: seq<Event>)
    ensures Tame(evs) && After(evs) == Snap([], NOTHING, Parked(n), LATE, RETRIED.(run := Some(Run(n, Failed))))
  {
    evs := Requeued();
    evs := Runs.Parks(evs, [], NOTHING, Freed(0).(status := Queued), LATE, RETRIED, 3, n, Local);
  }

  /** The other half of `NoFreeExit`, an exit that nobody paid for: for any length of its second run
      there are orderly steps after which the job leaves billing_pending with that length on its
      row and no money in the ledger. It was parked for nothing before, and retried. */
  lemma RetriedJobLeavesUnpaid(n: nat) returns (evs: seq<Event>)
    requires n > 0
    ensures Tame(evs) && evs != [] && JOB in Before(evs).db.jobs
    ensures Before(evs).db.jobs[JOB].status == BillingPending && After(evs).db.jobs[JOB].status == Failed
    ensures Cost(After(evs).db.jobs[JOB].duration) == Cost(n) > 0 && After(evs).db.rows == []
    ensures After(evs).hist[JOB].retried && After(evs).hist[JOB].zeroParked
  {
    var h := RETRIED.(run := Some(Run(n, Failed)));
    var parked := ParkedAgain(n);
    Frees(n, NOBODY, h, 2);
    evs := Step(parked, SweepWrite(2, Fine), Snap([], NOTHING, Freed(n), NOBODY, h));
    assert evs[..|evs| - 1] == parked;
  }
}
