/** The run that meters one debit twice: a failed job is retried on another kind of backend and
    takes exactly as long. */
module TwoBackends {
  import opened Basics
  import opened Ledger
  import opened Metering
  import opened Jobs
  import opened Billing
  import opened Protocol
  import opened ProtocolStatus
  import opened Runs

  function Ended(n: nat, b: Backend): JobRow { JobRow(OWNER, Failed, NoError, Cost(n), n, Some(b)) }
  function Ran(n: nat): Hist { Hist(true, false, false, false, false, false, Some(Run(n, Failed))) }
  function Metered(n: nat, b: Backend): Usage { Usage(OWNER, JOB, KindOf(Some(b)), Cost(n)) }
  function Once(n: nat): Books { Books([Metered(n, Vastai)], map[OWNER := Cost(n)]) }
  function Twice(n: nat): Books { Books([Metered(n, Vastai), Metered(n, Local)], map[OWNER := 2 * Cost(n)]) }

  lemma MeteredOnce(n: nat)
    ensures BooksWith(NOTHING, Finished(n, Vastai, Polling)) == Once(n)
  {
    assert RealJob(JOB) by { assert JOB[0] == 'j'; }
  }

  lemma MeteredTwice(n: nat)
    ensures BooksWith(Once(n), Finished(n, Local, Polling)) == Twice(n)
  {
    assert Once(n).usage[..0] == [];
    assert Twice(n).totals == Once(n).totals[OWNER := 2 * Cost(n)];
  }

  lemma BilledParts(books: Books, r: JobRow, n: nat, b: Backend, c: Caller)
    requires r.tenant == OWNER
    ensures BooksWith(books, Finished(n, b, Reading(c))) == BooksWith(books, Finished(n, b, Polling))
    ensures FailedRow(r.(status := Running, backend := Some(b)), BilledOk, n) == Ended(n, b)
    ensures Finished(n, b, Reading(c)).(stage := Deciding(c, BilledOk)) == Finished(n, b, Deciding(c, BilledOk))
  {}

  /** A queued job runs on a backend for `n`, fails, and is billed under the debit found or made. */
  lemma RunsBilled(evs: seq<Event>, rows: seq<Entry>, books: Books, r: JobRow, h: Hist, p: nat, n: nat, b: Backend,
                   rows': seq<Entry>, isNew: bool) returns (more: seq<Event>)
    requires n > 0 && Tame(evs) && After(evs) == Snap(rows, books, r, NOBODY, h) && r.status == Queued && r.tenant == OWNER
    requires DebitSpec(rows, OWNER, JOB, Cost(n), Fine, Fine) == (rows', Debited(isNew))
    ensures Tame(more)
    ensures After(more) == Snap(rows', BooksWith(books, Finished(n, b, Polling)), Ended(n, b), NOBODY,
                                h.(claimed := true, run := Some(Run(n, Failed))))
  {
    var (r', h', c) := (r.(status := Running, backend := Some(b)), h.(claimed := true, run := Some(Run(n, Failed))), ByWorker(Failed, n));
    BilledParts(books, r, n, b, c);
    more := Runs.Ran(evs, rows, books, r, NOBODY, h, p, n, b);
    more := Bills(more, rows, books, r', NOBODY, h', p, Finished(n, b, Reading(c)), rows', isNew);
    more := LastWrite(more, rows', BooksWith(books, Finished(n, b, Polling)), r, h', p, n, b);
  }

  lemma LastWrite(evs: seq<Event>, rows: seq<Entry>, books: Books, r: JobRow, h: Hist, p: nat, n: nat, b: Backend)
    returns (more: seq<Event>)
    requires Tame(evs) && r.tenant == OWNER
    requires After(evs) == Snap(rows, books, r.(status := Running, backend := Some(b)),
                                NOBODY[p := Finished(n, b, Deciding(ByWorker(Failed, n), BilledOk))], h)
    ensures Tame(more) && After(more) == Snap(rows, books, Ended(n, b), NOBODY, h)
  {
    BilledParts(books, r, n, b, ByWorker(Failed, n));
    Runs.Writes(rows, books, r.(status := Running, backend := Some(b)), NOBODY, h, p, n, b, BilledOk);
    more := Step(evs, WorkerWrite(p, Fine), Snap(rows, books, Ended(n, b), NOBODY, h));
  }

  /** The job is billed on vastai, and its owner retries it. */
  lemma BilledOnce(n: nat) returns (evs: seq<Event>)
    requires n > 0
    ensures Tame(evs)
    ensures After(evs) == Snap(Spent(n), Once(n), Ended(n, Vastai).(status := Queued), NOBODY, Ran(n).(retried := true))
  {
    Submits();
    evs := Step([], Submit(JOB, OWNER), Snap([], NOTHING, NEW, NOBODY, FRESH));
    TopsUp(NOTHING, NEW, NOBODY, FRESH, Cost(n));
    evs := Step(evs, TopUp(OWNER, Cost(n), "", 0), Snap(Money(n), NOTHING, NEW, NOBODY, FRESH));
    DebitSucceeds(n);
    MeteredOnce(n);
    evs := RunsBilled(evs, Money(n), NOTHING, NEW, FRESH, 0, n, Vastai, Spent(n), true);
    Retries(Spent(n), Once(n), Ended(n, Vastai), NOBODY, Ran(n));
    evs := Step(evs, Retry(JOB), Snap(Spent(n), Once(n), Ended(n, Vastai).(status := Queued), NOBODY, Ran(n).(retried := true)));
  }

  lemma Sums(n: nat)
    ensures SumDebit(Spent(n), OWNER) == Cost(n) && SumUsage(Twice(n).usage, OWNER) == 2 * Cost(n)
  {
    assert Spent(n)[..1] == Money(n) && Money(n)[..0] == [];
    assert Twice(n).usage[..1] == [Metered(n, Vastai)] && [Metered(n, Vastai)][..0] == [];
    assert SumDebit(Money(n), OWNER) == 0;
    assert SumUsage([Metered(n, Vastai)], OWNER) == Cost(n);
  }

  /** Usage above debits, in an orderly run of any length: one debit, metered under two kinds. */
  lemma SecondBackendDrifts(n: nat) returns (evs: seq<Event>)
    requires n > 0
    ensures Tame(evs)
    ensures
      var db := After(evs).db;
      SumDebit(db.rows, OWNER) == Cost(n) && SumUsage(db.books.usage, OWNER) == 2 * Cost(n) > Cost(n)
  {
    evs := BilledOnce(n);
    DebitMatches(n);
    MeteredTwice(n);
    evs := RunsBilled(evs, Spent(n), Once(n), Ended(n, Vastai).(status := Queued), Ran(n).(retried := true), 1, n, Local, Spent(n), false);
    Sums(n);
  }
}
