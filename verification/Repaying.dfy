/** Three short runs of a job cancelled after its debit that ends charged: drained before its marker,
    marked where nobody reads, and refunded under a key that was taken by hand. */
module Repaying {
  import opened Basics
  import opened LedgerKeys
  import opened Ledger
  import opened Metering
  import opened Jobs
  import opened Billing
  import opened Protocol
  import opened ProtocolStatus
  import opened ProtocolMarker
  import opened Runs

  /** The first run of the job, on a backend, and its row when it has been cancelled. */
  const STARTED := NEW.(status := Running, backend := Some(Local))
  const STOPPED := STARTED.(status := Cancelled)

  function Lived(n: nat): Hist { FRESH.(claimed := true, run := Some(Run(n, Failed))) }
  function Worker(n: nat, stage: Stage): Proc { Finished(n, Local, stage) }
  function Metered(n: nat): Books { BooksWith(NOTHING, Worker(n, Polling)) }
  function Charge(n: nat): Entry { DebitEntry(OWNER, JOB, Cost(n)) }

  /** A first credit that pays for the run. */
  ghost predicate Pays(t: Entry, n: nat) {
    DebitSpec([t], OWNER, JOB, Cost(n), Fine, Fine) == ([t, Charge(n)], Debited(true))
  }

  /** The run is billed. */
  lemma Billed(evs: seq<Event>, t: Entry, n: nat) returns (more: seq<Event>)
    requires n > 0 && Pays(t, n) && Valid(evs) && After(evs) == Snap([t], NOTHING, NEW, NOBODY, FRESH)
    ensures Extends(evs, more)
    ensures After(more) == Snap([t, Charge(n)], Metered(n), STARTED,
                                NOBODY[0 := Worker(n, Deciding(ByWorker(Failed, n), BilledOk))], Lived(n))
  {
    var c := ByWorker(Failed, n);
    more := Ran(evs, [t], NOTHING, NEW, NOBODY, FRESH, 0, n, Local);
    more := Bills(more, [t], NOTHING, STARTED, NOBODY, Lived(n), 0, Worker(n, Reading(c)), [t, Charge(n)], true);
  }

  /** A submitted job whose owner has the money for it. */
  lemma Funded(n: nat) returns (evs: seq<Event>)
    ensures Tame(evs) && After(evs) == Snap(Money(n), NOTHING, NEW, NOBODY, FRESH) && Pays(TopUpOf(Cost(n)), n)
  {
    Submits();
    evs := Step([], Submit(JOB, OWNER), Snap([], NOTHING, NEW, NOBODY, FRESH));
    TopsUp(NOTHING, NEW, NOBODY, FRESH, Cost(n));
    evs := Step(evs, TopUp(OWNER, Cost(n), "", 0), Snap(Money(n), NOTHING, NEW, NOBODY, FRESH));
    DebitSucceeds(n);
    assert Spent(n) == [TopUpOf(Cost(n)), Charge(n)];
  }

  lemma NotPaidBack(t: Entry, n: nat)
    requires t.meta.Plain?
    ensures RefundEntry(OWNER, JOB, Cost(n)) !in [t, Charge(n)]
  {}

  // ---------------------------------------------------------------- Drained

  lemma Drains(rows: seq<Entry>, books: Books, r: JobRow, base: Procs, h: Hist, p: nat, q: Proc)
    requires p !in base && q.job == JOB && q.stage.Sleeps() && r.status == Cancelled
    ensures Goes(Snap(rows, books, r, base[p := q], h), Drain(p, Fine), Snap(rows, books, r, base, h))
  {
    GuardSets(Cancelled);
    Dropped(base, p, q);
    Assembled(rows, books, r, base[p := q], h, rows, books, None, Drop(p), None);
  }

  /** The bad ending of `CompensationEnds`: a worker drained in the pause after its first failed refund
      leaves a job that is cancelled and charged, with no refund, no marker and no process. */
  lemma DrainedLeavesNothing(n: nat) returns (evs: seq<Event>)
    requires n > 0
    ensures Tame(evs) && evs != [] && evs[|evs| - 1] == Drain(0, Fine)
    ensures 0 in Before(evs).procs && ProtocolMarker.Repaying(Before(evs).procs[0])
    ensures After(evs) == Snap([TopUpOf(Cost(n)), Charge(n)], Metered(n), STOPPED, NOBODY, Lived(n))
    ensures Forsaken(After(evs), JOB, Cost(n))
  {
    var t := TopUpOf(Cost(n));
    evs := Funded(n);
    evs := Billed(evs, t, n);
    evs := StartsRepaying(evs, [t, Charge(n)], Metered(n), STARTED, NOBODY, Lived(n), 0, n, Local);
    RefundFails([t, Charge(n)], Metered(n), STOPPED, NOBODY, Lived(n), 0, n, Local, 0);
    evs := Step(evs, RefundTry(0, Lost, Lost), Snap([t, Charge(n)], Metered(n), STOPPED, NOBODY[0 := Worker(n, Refunding(1))], Lived(n)));
    Drains([t, Charge(n)], Metered(n), STOPPED, NOBODY, Lived(n), 0, Worker(n, Refunding(1)));
    var before := evs;
    evs := Step(before, Drain(0, Fine), Snap([t, Charge(n)], Metered(n), STOPPED, NOBODY, Lived(n)));
    assert evs[..|evs| - 1] == before;
    NotPaidBack(t, n);
  }

  // ---------------------------------------------------------------- Marked where nobody reads

  function Route(n: nat, stage: Stage): Proc { Proc(JOB, Cost(n), CpuExecution, stage) }

  lemma RouteStarts(rows: seq<Entry>, books: Books, base: Procs, h: Hist, p: nat, n: nat)
    requires p !in base
    ensures Goes(Snap(rows, books, STARTED, base, h), StartComplete(p, JOB, Cost(n)),
              Snap(rows, books, STARTED, base[p := Route(n, Reading(ByRoute))], h.(routed := true)))
  {
    Assembled(rows, books, STARTED, base, h, rows, books, None, Set(p, Route(n, Reading(ByRoute))),
              Some(HistWrite(JOB, h.(routed := true))));
  }

  lemma RouteEnds(rows: seq<Entry>, books: Books, r: JobRow, base: Procs, h: Hist, p: nat, n: nat)
    requires p !in base
    ensures Goes(Snap(rows, books, r, base[p := Route(n, Deciding(ByRoute, BilledOk))], h), RouteWrite(p, Fine),
              Snap(rows, books, r.(status := Completed), base, h))
  {
    Dropped(base, p, Route(n, Deciding(ByRoute, BilledOk)));
    Assembled(rows, books, r, base[p := Route(n, Deciding(ByRoute, BilledOk))], h, rows, books,
              Some(Write(JOB, r.(status := Completed))), Drop(p), None);
  }

  lemma BilledOnce(n: nat)
    ensures BooksWith(Metered(n), Route(n, Reading(ByRoute))) == Metered(n)
  {
    assert RealJob(JOB) by { assert JOB[0] == 'j'; }
    assert Metered(n).usage == [Usage(OWNER, JOB, CpuExecution, Cost(n))];
  }

  /** While the worker has billed the job and not written yet, a route bills it for the same amount. */
  lemma BothBilled(n: nat) returns (evs: seq<Event>)
    requires n > 0
    ensures Tame(evs)
    ensures After(evs) == Snap(Spent(n), Metered(n), STARTED,
                               NOBODY[1 := Route(n, Deciding(ByRoute, BilledOk))][0 := Worker(n, Deciding(ByWorker(Failed, n), BilledOk))],
                               Lived(n).(routed := true))
  {
    var q := Worker(n, Deciding(ByWorker(Failed, n), BilledOk));
    evs := Funded(n);
    evs := Billed(evs, TopUpOf(Cost(n)), n);
    assert [TopUpOf(Cost(n)), Charge(n)] == Spent(n);
    RouteStarts(Spent(n), Metered(n), NOBODY[0 := q], Lived(n), 1, n);
    evs := Step(evs, StartComplete(1, JOB, Cost(n)),
                Snap(Spent(n), Metered(n), STARTED, NOBODY[0 := q][1 := Route(n, Reading(ByRoute))], Lived(n).(routed := true)));
    evs := RouteBills(evs, n, q);
  }

  lemma Swapped(a: Proc, b: Proc)
    ensures NOBODY[0 := a][1 := b] == NOBODY[1 := b][0 := a]
  {}

  lemma RouteBills(evs: seq<Event>, n: nat, q: Proc) returns (more: seq<Event>)
    requires n > 0 && Tame(evs)
    requires After(evs) == Snap(Spent(n), Metered(n), STARTED, NOBODY[0 := q][1 := Route(n, Reading(ByRoute))], Lived(n).(routed := true))
    ensures Tame(more)
    ensures After(more) == Snap(Spent(n), Metered(n), STARTED, NOBODY[1 := Route(n, Deciding(ByRoute, BilledOk))][0 := q],
                                Lived(n).(routed := true))
  {
    var told := Route(n, Deciding(ByRoute, BilledOk));
    DebitMatches(n);
    BilledOnce(n);
    Swapped(q, told);
    assert Route(n, Reading(ByRoute)).(stage := Deciding(ByRoute, BilledOk)) == told;
    more := Bills(evs, Spent(n), Metered(n), STARTED, NOBODY[0 := q], Lived(n).(routed := true), 1, Route(n, Reading(ByRoute)), Spent(n), false);
  }

  /** The limit of `FetchableUntilCompleted`: a job that was never retried keeps its marker, but a late
      route has written "completed" over "cancelled", and no sweep will fetch it. */
  lemma MarkerNobodyReads(n: nat) returns (evs: seq<Event>)
    requires n > 0
    ensures Tame(evs) && evs != [] && Fetchable(Before(evs), JOB) && !Fetchable(After(evs), JOB)
    ensures Promised(After(evs), JOB, Cost(n)) && !PaidBack(After(evs), JOB, Cost(n))
    ensures !After(evs).hist[JOB].retried && After(evs).procs == NOBODY
  {
    var (h, base) := (Lived(n).(routed := true), NOBODY[1 := Route(n, Deciding(ByRoute, BilledOk))]);
    evs := BothBilled(n);
    evs := StartsRepaying(evs, Spent(n), Metered(n), STARTED, base, h, 0, n, Local);
    evs := LeavesMarker(evs, Spent(n), Metered(n), STOPPED, base, h, 0, n, Local);
    var marked := STOPPED.(error := RefundPending(Cost(n)));
    RouteEnds(Spent(n), Metered(n), marked, NOBODY, h.(marked := true), 1, n);
    var before := evs;
    evs := Step(before, RouteWrite(1, Fine), Snap(Spent(n), Metered(n), marked.(status := Completed), NOBODY, h.(marked := true)));
    assert evs[..|evs| - 1] == before;
    NotPaidBack(TopUpOf(Cost(n)), n);
    assert Spent(n) == [TopUpOf(Cost(n)), Charge(n)];
  }

  // ---------------------------------------------------------------- A key taken by hand

  const TAKEN := "refund:j"

  function ByHand(n: nat): Entry { TopUpEntry(OWNER, Cost(n), TAKEN, 0) }

  lemma TakenKey(n: nat)
    ensures ByHand(n).id == RefundId(OWNER, JOB) && ByHand(n).id != DebitId(OWNER, JOB)
  {
    assert TAKEN == IdempotencyKey(JobRefund, JOB);
    if ByHand(n).id == DebitId(OWNER, JOB) {
      SameTenantInjective(OWNER, TAKEN, IdempotencyKey(JobDebit, JOB));
      JobKeysDiffer(JobDebit, JOB, JobRefund, JOB);
      assert false;
    }
  }

  lemma HandPays(n: nat)
    ensures Pays(ByHand(n), n)
    ensures CreditSpec([ByHand(n), Charge(n)], RefundEntry(OWNER, JOB, Cost(n)), Fine, Fine)
         == ([ByHand(n), Charge(n)], Credited(RefundId(OWNER, JOB)))
  {
    var t := ByHand(n);
    TakenKey(n);
    assert [t][..0] == [] && [t] + [Charge(n)] == [t, Charge(n)] && [t, Charge(n)][..1] == [t];
    assert Balance([], OWNER) == 0 && Balance([t], OWNER) == Cost(n);
    assert FindRow([t], DebitId(OWNER, JOB)) == None;
    assert FindRow([t], RefundId(OWNER, JOB)) == Some(t);
  }

  lemma Plainly(evs: seq<Event>, ev: Event) returns (more: seq<Event>)
    requires Valid(evs) && Enabled(After(evs), ev)
    ensures more == evs + [ev] && Valid(more) && After(more) == Apply(After(evs), ev)
  {
    more := evs + [ev];
    assert more[..|more| - 1] == evs && more[|more| - 1] == ev;
  }

  lemma RefundTold(n: nat, base: Procs, h: Hist, p: nat)
    requires p !in base
    ensures Goes(Snap([ByHand(n), Charge(n)], Metered(n), STOPPED, base[p := Worker(n, Refunding(0))], h), RefundTry(p, Fine, Fine),
              Snap([ByHand(n), Charge(n)], Metered(n), STOPPED, base, h))
  {
    var rows := [ByHand(n), Charge(n)];
    HandPays(n);
    Dropped(base, p, Worker(n, Refunding(0)));
    Assembled(rows, Metered(n), STOPPED, base[p := Worker(n, Refunding(0))], h, rows, Metered(n), None, Drop(p), None);
  }

  lemma HandRepaying(n: nat) returns (evs: seq<Event>)
    requires n > 0
    ensures Valid(evs) && TopUp(OWNER, Cost(n), TAKEN, 0) in evs
    ensures After(evs) == Snap([ByHand(n), Charge(n)], Metered(n), STOPPED, NOBODY[0 := Worker(n, Refunding(0))], Lived(n))
  {
    var funded := HandFunded(n);
    HandPays(n);
    var billed := Billed(funded, ByHand(n), n);
    evs := StartsRepaying(billed, [ByHand(n), Charge(n)], Metered(n), STARTED, NOBODY, Lived(n), 0, n, Local);
  }

  lemma StillCharged(n: nat)
    ensures NetCharge([ByHand(n), Charge(n)], OWNER, JOB) == Cost(n)
  {
    var t := ByHand(n);
    assert [t, Charge(n)][..1] == [t] && [t][..0] == [];
    assert NetCharge([t], OWNER, JOB) == 0;
  }

  /** An administrator's top-up under the refund key of a job to come: the worker of the cancelled job
      is told that its refund succeeded, and the job stays charged. */
  lemma RefundedUnderTakenKey(n: nat) returns (evs: seq<Event>)
    requires n > 0
    ensures Valid(evs) && TopUp(OWNER, Cost(n), TAKEN, 0) in evs && evs != [] && evs[|evs| - 1] == RefundTry(0, Fine, Fine)
    ensures After(evs) == Snap([ByHand(n), Charge(n)], Metered(n), STOPPED, NOBODY, Lived(n))
    ensures Forsaken(After(evs), JOB, Cost(n)) && NetCharge(After(evs).db.rows, OWNER, JOB) == Cost(n)
  {
    evs := HandRepaying(n);
    RefundTold(n, NOBODY, Lived(n), 0);
    evs := Step(evs, RefundTry(0, Fine, Fine), Snap([ByHand(n), Charge(n)], Metered(n), STOPPED, NOBODY, Lived(n)));
    NotPaidBack(ByHand(n), n);
    StillCharged(n);
  }

  lemma HandFunded(n: nat) returns (evs: seq<Event>)
    ensures Valid(evs) && TopUp(OWNER, Cost(n), TAKEN, 0) in evs && After(evs) == Snap([ByHand(n)], NOTHING, NEW, NOBODY, FRESH)
  {
    Submits();
    evs := Step([], Submit(JOB, OWNER), Snap([], NOTHING, NEW, NOBODY, FRESH));
    evs := Plainly(evs, TopUp(OWNER, Cost(n), TAKEN, 0));
    Assembled([], NOTHING, NEW, NOBODY, FRESH, [ByHand(n)], NOTHING, None, Keep, None);
  }
}
