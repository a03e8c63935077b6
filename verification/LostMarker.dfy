/** The run that loses a refund marker: a sweeper that found no funds is late with its own marker,
    and by then the job has been billed, retried, billed again, cancelled and marked. */
module LostMarker {
  import opened Basics
  import opened Ledger
  import opened Metering
  import opened Jobs
  import opened Billing
  import opened Protocol
  import opened ProtocolStatus
  import opened Runs

  function Parked(n: nat): JobRow { JobRow(OWNER, BillingPending, MARK, 0, n, Some(Local)) }
  function Released(n: nat): JobRow { JobRow(OWNER, Failed, NoError, Cost(n), n, Some(Local)) }
  function Halted(n: nat): JobRow { Released(n).(status := Cancelled) }
  function Lived(n: nat): Hist { Hist(true, false, false, true, n == 0, false, Some(Run(n, Failed))) }
  function Metered(n: nat): Books { BooksWith(NOTHING, Finished(n, Local, Polling)) }

  /** A sweeper that found no funds, and the worker of the second run. */
  function Short(n: nat): Proc { Sweeping(Parked(n), Deciding(BySweeper(MARK, n), NoFundsLeft)) }
  function Late(n: nat): Procs { NOBODY[5 := Short(n)] }
  function Worker(n: nat, stage: Stage): Proc { Finished(n, Local, stage) }

  lemma MeteredTwice(n: nat, q: Proc)
    requires q.kind == CpuExecution && q.amount == Cost(n)
    ensures BooksWith(NOTHING, q) == Metered(n) && BooksWith(Metered(n), q) == Metered(n)
  {
    var u := Usage(OWNER, JOB, CpuExecution, Cost(n));
    assert RealJob(JOB) by { assert JOB[0] == 'j'; }
    assert Metered(n).usage == [u];
  }

  function Marked(n: nat): JobRow { Halted(n).(error := RefundPending(Cost(n))) }

  // ---------------------------------------------------------------- The run

  /** The job runs and is parked, with no money on the account. */
  lemma RunAndParked(n: nat) returns (evs: seq<Event>)
    ensures Tame(evs) && After(evs) == Snap([], NOTHING, Parked(n), NOBODY, Lived(n))
  {
    Submits();
    evs := Step([], Submit(JOB, OWNER), Snap([], NOTHING, NEW, NOBODY, FRESH));
    evs := Runs.Parks(evs, [], NOTHING, NEW, NOBODY, FRESH, 0, n, Local);
  }

  lemma ShortOfFunds(n: nat)
    requires n > 0
    ensures var c := BySweeper(MARK, n);
            && AfterRead(Parked(n), Sweeping(Parked(n), Reading(c)), Fine) == Sweeping(Parked(n), Debiting(c))
            && AfterDebit(Sweeping(Parked(n), Debiting(c)), NoFunds) == Short(n)
  {}

  /** A sweeper finds no funds for it. */
  lemma FoundShort(n: nat) returns (evs: seq<Event>)
    requires n > 0
    ensures Tame(evs) && After(evs) == Snap([], NOTHING, Parked(n), Late(n), Lived(n))
  {
    var c := BySweeper(MARK, n);
    var q := Sweeping(Parked(n), Reading(c));
    var q' := Sweeping(Parked(n), Debiting(c));
    ShortOfFunds(n);
    evs := RunAndParked(n);
    Fetches([], NOTHING, Parked(n), NOBODY, Lived(n), 5);
    evs := Step(evs, FetchPending(5, JOB), Snap([], NOTHING, Parked(n), NOBODY[5 := q], Lived(n)));
    Reads([], NOTHING, Parked(n), NOBODY, Lived(n), 5, q, Fine);
    evs := Step(evs, Read(5, Fine), Snap([], NOTHING, Parked(n), NOBODY[5 := q'], Lived(n)));
    evs := Refused(evs, n);
  }

  lemma Refused(evs: seq<Event>, n: nat) returns (more: seq<Event>)
    requires n > 0 && Tame(evs)
    requires After(evs) == Snap([], NOTHING, Parked(n), NOBODY[5 := Sweeping(Parked(n), Debiting(BySweeper(MARK, n)))], Lived(n))
    ensures Tame(more) && After(more) == Snap([], NOTHING, Parked(n), Late(n), Lived(n))
  {
    ShortOfFunds(n);
    DebitFails(n);
    Debits([], NOTHING, Parked(n), NOBODY, Lived(n), 5, Sweeping(Parked(n), Debiting(BySweeper(MARK, n))), [], NoFunds);
    more := Step(evs, Event.Debit(5, Fine, Fine), Snap([], NOTHING, Parked(n), Late(n), Lived(n)));
  }

  /** Money arrives, another sweeper bills the job and releases it, and its owner retries it. */
  lemma BilledAndRetried(n: nat) returns (evs: seq<Event>)
    requires n > 0
    ensures Tame(evs)
    ensures After(evs) == Snap(Spent(n), Metered(n), Released(n).(status := Queued), Late(n), Lived(n).(retried := true))
  {
    var q := Sweeping(Parked(n), Reading(BySweeper(MARK, n)));
    evs := FoundShort(n);
    TopsUp(NOTHING, Parked(n), Late(n), Lived(n), Cost(n));
    evs := Step(evs, TopUp(OWNER, Cost(n), "", 0), Snap(Money(n), NOTHING, Parked(n), Late(n), Lived(n)));
    Fetches(Money(n), NOTHING, Parked(n), Late(n), Lived(n), 6);
    evs := Step(evs, FetchPending(6, JOB), Snap(Money(n), NOTHING, Parked(n), Late(n)[6 := q], Lived(n)));
    evs := BilledBySweeper(evs, n);
    Retries(Spent(n), Metered(n), Released(n), Late(n), Lived(n));
    evs := Step(evs, Retry(JOB),
                Snap(Spent(n), Metered(n), Released(n).(status := Queued), Late(n), Lived(n).(retried := true)));
  }

  lemma ReleasedRow(n: nat)
    ensures BillingPending !in SweepGuard(BilledOk)
    ensures SweepPatch(BilledOk, MARK, n).Some? && SweepPatch(BilledOk, MARK, n).value.On(Parked(n)) == Released(n)
  {}

  lemma BilledBySweeper(evs: seq<Event>, n: nat) returns (more: seq<Event>)
    requires n > 0 && Tame(evs)
    requires After(evs) == Snap(Money(n), NOTHING, Parked(n), Late(n)[6 := Sweeping(Parked(n), Reading(BySweeper(MARK, n)))], Lived(n))
    ensures Tame(more) && After(more) == Snap(Spent(n), Metered(n), Released(n), Late(n), Lived(n))
  {
    var c := BySweeper(MARK, n);
    DebitSucceeds(n);
    more := Bills(evs, Money(n), NOTHING, Parked(n), Late(n), Lived(n), 6, Sweeping(Parked(n), Reading(c)), Spent(n), true);
    MeteredTwice(n, Sweeping(Parked(n), Reading(c)));
    ReleasedRow(n);
    Sweeps(Spent(n), Metered(n), Parked(n), Late(n), Lived(n), 6, Sweeping(Parked(n), Deciding(c, BilledOk)),
           SweepPatch(BilledOk, MARK, n).value);
    more := Step(more, SweepWrite(6, Fine), Snap(Spent(n), Metered(n), Released(n), Late(n), Lived(n)));
  }

  /** The second run is billed under the same debit. */
  lemma BilledAgain(n: nat) returns (evs: seq<Event>)
    requires n > 0
    ensures Tame(evs)
    ensures After(evs) == Snap(Spent(n), Metered(n), Released(n).(status := Running),
                               Late(n)[7 := Worker(n, Deciding(ByWorker(Failed, n), BilledOk))], Lived(n).(retried := true))
  {
    var (c, h) := (ByWorker(Failed, n), Lived(n).(retried := true));
    evs := BilledAndRetried(n);
    evs := Ran(evs, Spent(n), Metered(n), Released(n).(status := Queued), Late(n), h, 7, n, Local);
    DebitMatches(n);
    MeteredTwice(n, Worker(n, Reading(c)));
    evs := Bills(evs, Spent(n), Metered(n), Released(n).(status := Running), Late(n), h, 7, Worker(n, Reading(c)), Spent(n), false);
  }

  /** It is cancelled before its last write, all three refunds fail, and the worker leaves the
      marker. */
  lemma MarkerLeft(n: nat) returns (evs: seq<Event>)
    requires n > 0
    ensures Tame(evs)
    ensures After(evs) == Snap(Spent(n), Metered(n), Marked(n), Late(n), Lived(n).(retried := true, marked := true))
  {
    var h := Lived(n).(retried := true);
    evs := BilledAgain(n);
    evs := StartsRepaying(evs, Spent(n), Metered(n), Released(n).(status := Running), Late(n), h, 7, n, Local);
    evs := LeavesMarker(evs, Spent(n), Metered(n), Halted(n), Late(n), h, 7, n, Local);
  }

  function Charged(n: nat): JobRow { Halted(n).(error := PendingMarker(FundsShort, Some(Failed))) }

  lemma ChargedRow(n: nat)
    ensures SweepPatch(NoFundsLeft, MARK, n).Some? && SweepPatch(NoFundsLeft, MARK, n).value.On(Marked(n)) == Charged(n)
  {}

  lemma NoRefund(n: nat)
    ensures RefundEntry(OWNER, JOB, Cost(n)) !in Spent(n) && DebitEntry(OWNER, JOB, Cost(n)) in Spent(n)
  {
    assert forall e | e in Spent(n) :: e == TopUpOf(Cost(n)) || e == DebitEntry(OWNER, JOB, Cost(n));
    assert Spent(n)[1] == DebitEntry(OWNER, JOB, Cost(n));
  }

  /** The limit of `MarkerStays`: after these orderly steps a retried job is cancelled and charged,
      its marker has been there and is gone, nothing was refunded, and no process is left. */
  lemma LateSweeperTakesMarker(n: nat) returns (evs: seq<Event>)
    requires n > 0
    ensures Tame(evs) && evs != []
    ensures Before(evs).db.jobs == map[JOB := Marked(n)] && evs[|evs| - 1] == SweepWrite(5, Fine)
    ensures After(evs) == Snap(Spent(n), Metered(n), Charged(n), NOBODY, Lived(n).(retried := true, marked := true))
    ensures RefundEntry(OWNER, JOB, Cost(n)) !in After(evs).db.rows && DebitEntry(OWNER, JOB, Cost(n)) in After(evs).db.rows
  {
    var h := Lived(n).(retried := true, marked := true);
    var left := MarkerLeft(n);
    ChargedRow(n);
    NoRefund(n);
    Sweeps(Spent(n), Metered(n), Marked(n), NOBODY, h, 5, Short(n), SweepPatch(NoFundsLeft, MARK, n).value);
    evs := Step(left, SweepWrite(5, Fine), Snap(Spent(n), Metered(n), Charged(n), NOBODY, h));
    assert evs[..|evs| - 1] == left;
  }
}
