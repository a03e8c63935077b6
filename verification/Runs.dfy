/** Building runs step by step in a system with one job. */
module Runs {
  import opened Basics
  import opened Ledger
  import opened Metering
  import opened Jobs
  import opened Billing
  import opened Protocol
  import opened ProtocolStatus

  const JOB := "j"
  const OWNER := "t"

  type Procs = map<nat, Proc>

  /** The database and its processes when this is the only job. */
  function Snap(rows: seq<Entry>, books: Books, r: JobRow, procs: Procs, h: Hist): State {
    State(Db(rows, books, map[JOB := r]), procs, map[JOB := h])
  }

  ghost predicate Goes(s: State, ev: Event, s': State) {
    Enabled(s, ev) && Orderly(s, ev) && Apply(s, ev) == s'
  }

  /** A longer run, as orderly as the shorter one. */
  ghost predicate Extends(evs: seq<Event>, more: seq<Event>) {
    Valid(evs) && Valid(more) && evs <= more && (Tame(evs) ==> Tame(more))
  }

  lemma Step(evs: seq<Event>, ev: Event, s: State) returns (more: seq<Event>)
    requires Valid(evs) && Goes(After(evs), ev, s)
    ensures more == evs + [ev] && Extends(evs, more) && After(more) == s
  {
    more := evs + [ev];
    assert more[..|more| - 1] == evs && more[|more| - 1] == ev;
    assert Valid(more);
  }

  function Moved(procs: Procs, c: ProcChange): Procs {
    match c
    case Keep => procs
    case Set(p, q) => procs[p := q]
    case Drop(p) => procs - {p}
  }

  lemma Assembled(rows: seq<Entry>, books: Books, r: JobRow, procs: Procs, h: Hist,
                  rows': seq<Entry>, books': Books, w: Option<Write>, c: ProcChange, hw: Option<HistWrite>)
    requires w.Some? ==> w.value.job == JOB
    requires hw.Some? ==> hw.value.job == JOB
    ensures Assemble(Snap(rows, books, r, procs, h), rows', books', w, c, hw)
         == Snap(rows', books', if w.Some? then w.value.row else r, Moved(procs, c), if hw.Some? then hw.value.h else h)
  {
    assert map[JOB := r][JOB := if w.Some? then w.value.row else r] == map[JOB := if w.Some? then w.value.row else r];
    assert map[JOB := h][JOB := if hw.Some? then hw.value.h else h] == map[JOB := if hw.Some? then hw.value.h else h];
  }

  lemma Overwritten(base: Procs, p: nat, a: Proc, b: Proc)
    ensures base[p := a][p := b] == base[p := b]
  {}

  lemma Dropped(base: Procs, p: nat, a: Proc)
    requires p !in base
    ensures base[p := a] - {p} == base
  {}

  // ---------------------------------------------------------------- Steps of no process

  const FRESH := Hist(false, false, false, false, false, false, None)
  const NEW := JobRow(OWNER, Queued, NoError, 0, 0, None)
  const NOTHING := Books([], map[])
  const NOBODY: Procs := map[]

  lemma Submits()
    ensures Goes(START, Submit(JOB, OWNER), Snap([], NOTHING, NEW, NOBODY, FRESH))
  {}

  function TopUpOf(money: nat): Entry { TopUpEntry(OWNER, money, "", 0) }

  lemma TopsUp(books: Books, r: JobRow, procs: Procs, h: Hist, money: nat)
    ensures Goes(Snap([], books, r, procs, h), TopUp(OWNER, money, "", 0), Snap([TopUpOf(money)], books, r, procs, h))
  {
    Assembled([], books, r, procs, h, [TopUpOf(money)], books, None, Keep, None);
  }

  lemma Retries(rows: seq<Entry>, books: Books, r: JobRow, procs: Procs, h: Hist)
    requires r.status == Failed
    ensures Goes(Snap(rows, books, r, procs, h), Retry(JOB),
              Snap(rows, books, r.(status := Queued), procs, h.(retried := true)))
  {
    Assembled(rows, books, r, procs, h, rows, books, Some(Write(JOB, r.(status := Queued))), Keep,
              Some(HistWrite(JOB, h.(retried := true))));
  }

  lemma Cancels(rows: seq<Entry>, books: Books, r: JobRow, procs: Procs, h: Hist)
    requires r.status == Running
    ensures Goes(Snap(rows, books, r, procs, h), Cancel(JOB), Snap(rows, books, r.(status := Cancelled), procs, h))
  {
    Assembled(rows, books, r, procs, h, rows, books, Some(Write(JOB, r.(status := Cancelled))), Keep, None);
  }

  // ---------------------------------------------------------------- A worker until it bills

  function Working(stage: Stage): Proc { Proc(JOB, 0, CpuExecution, stage) }

  lemma Claims(rows: seq<Entry>, books: Books, r: JobRow, base: Procs, h: Hist, p: nat)
    requires r.status == Queued && p !in base && forall q | q in base :: !base[q].Worker()
    ensures Goes(Snap(rows, books, r, base, h), Claim(p, JOB),
              Snap(rows, books, r.(status := Running), base[p := Working(Dispatching)], h.(claimed := true)))
  {
    Assembled(rows, books, r, base, h, rows, books, Some(Write(JOB, r.(status := Running))),
              Set(p, Working(Dispatching)), Some(HistWrite(JOB, h.(claimed := true))));
  }

  function Dispatched(b: Backend): Proc { Proc(JOB, 0, KindOf(Some(b)), Polling) }

  lemma Dispatches(rows: seq<Entry>, books: Books, r: JobRow, base: Procs, h: Hist, p: nat, b: Backend)
    requires r.status == Running
    ensures Goes(Snap(rows, books, r, base[p := Working(Dispatching)], h), DispatchOk(p, b, Fine),
              Snap(rows, books, r.(backend := Some(b)), base[p := Dispatched(b)], h))
  {
    Assembled(rows, books, r, base[p := Working(Dispatching)], h, rows, books,
              Some(Write(JOB, r.(backend := Some(b)))), Set(p, Dispatched(b)), None);
    Overwritten(base, p, Working(Dispatching), Dispatched(b));
  }

  function Finished(n: nat, b: Backend, stage: Stage): Proc { Proc(JOB, Cost(n), KindOf(Some(b)), stage) }

  lemma Polls(rows: seq<Entry>, books: Books, r: JobRow, base: Procs, h: Hist, p: nat, n: nat, b: Backend)
    ensures Goes(Snap(rows, books, r, base[p := Dispatched(b)], h), PollDone(p, Failed, n),
              Snap(rows, books, r, base[p := Finished(n, b, Reading(ByWorker(Failed, n)))], h.(run := Some(Run(n, Failed)))))
  {
    var to := Finished(n, b, Reading(ByWorker(Failed, n)));
    Assembled(rows, books, r, base[p := Dispatched(b)], h, rows, books, None, Set(p, to),
              Some(HistWrite(JOB, h.(run := Some(Run(n, Failed))))));
    Overwritten(base, p, Dispatched(b), to);
  }

  /** A queued job is claimed, runs on a backend for `n` and fails. */
  lemma Ran(evs: seq<Event>, rows: seq<Entry>, books: Books, r: JobRow, base: Procs, h: Hist, p: nat, n: nat, b: Backend)
    returns (more: seq<Event>)
    requires Valid(evs) && After(evs) == Snap(rows, books, r, base, h)
    requires r.status == Queued && p !in base && forall q | q in base :: !base[q].Worker()
    ensures Extends(evs, more)
    ensures After(more) == Snap(rows, books, r.(status := Running, backend := Some(b)),
                                base[p := Finished(n, b, Reading(ByWorker(Failed, n)))],
                                h.(claimed := true, run := Some(Run(n, Failed))))
  {
    var r1, h1 := r.(status := Running), h.(claimed := true);
    Claims(rows, books, r, base, h, p);
    more := Step(evs, Claim(p, JOB), Snap(rows, books, r1, base[p := Working(Dispatching)], h1));
    Dispatches(rows, books, r1, base, h1, p, b);
    more := Step(more, DispatchOk(p, b, Fine), Snap(rows, books, r1.(backend := Some(b)), base[p := Dispatched(b)], h1));
    Polls(rows, books, r1.(backend := Some(b)), base, h1, p, n, b);
    more := Step(more, PollDone(p, Failed, n),
                 Snap(rows, books, r1.(backend := Some(b)), base[p := Finished(n, b, Reading(ByWorker(Failed, n)))],
                      h1.(run := Some(Run(n, Failed)))));
  }

  // ---------------------------------------------------------------- Billing

  /** What a read decides. */
  function AfterRead(r: JobRow, q: Proc, f: Fault): Proc
    requires q.stage.Reading?
  {
    var c := q.stage.caller;
    q.(stage := if f != Fine then Deciding(c, OtherFailed)
                else if Terminal(r.status) || q.amount == 0 then Deciding(c, Skipped)
                else Debiting(c))
  }

  lemma Reads(rows: seq<Entry>, books: Books, r: JobRow, base: Procs, h: Hist, p: nat, q: Proc, f: Fault)
    requires q.job == JOB && q.stage.Reading?
    ensures Goes(Snap(rows, books, r, base[p := q], h), Read(p, f), Snap(rows, books, r, base[p := AfterRead(r, q, f)], h))
  {
    Assembled(rows, books, r, base[p := q], h, rows, books, None, Set(p, AfterRead(r, q, f)), None);
    Overwritten(base, p, q, AfterRead(r, q, f));
  }

  function AfterDebit(q: Proc, o: DebitOutcome): Proc
    requires q.stage.Debiting?
  {
    q.(stage := if o.Debited? then Recording(q.stage.caller) else Deciding(q.stage.caller, DebitStatus(o)))
  }

  lemma Debits(rows: seq<Entry>, books: Books, r: JobRow, base: Procs, h: Hist, p: nat, q: Proc, rows': seq<Entry>, o: DebitOutcome)
    requires q.job == JOB && q.stage.Debiting? && r.tenant == OWNER
    requires DebitSpec(rows, OWNER, JOB, q.amount, Fine, Fine) == (rows', o)
    ensures Goes(Snap(rows, books, r, base[p := q], h), Event.Debit(p, Fine, Fine),
              Snap(rows', books, r, base[p := AfterDebit(q, o)], h))
  {
    Assembled(rows, books, r, base[p := q], h, rows', books, None, Set(p, AfterDebit(q, o)), None);
    Overwritten(base, p, q, AfterDebit(q, o));
  }

  function BooksWith(books: Books, q: Proc): Books {
    RecordSpec(books, Usage(OWNER, JOB, q.kind, q.amount), Fine).0
  }

  lemma Records(rows: seq<Entry>, books: Books, r: JobRow, base: Procs, h: Hist, p: nat, q: Proc)
    requires q.job == JOB && q.stage.Recording? && r.tenant == OWNER
    ensures Goes(Snap(rows, books, r, base[p := q], h), Event.Record(p, Fine),
              Snap(rows, BooksWith(books, q), r, base[p := q.(stage := Deciding(q.stage.caller, BilledOk))], h))
  {
    var to := q.(stage := Deciding(q.stage.caller, BilledOk));
    Assembled(rows, books, r, base[p := q], h, rows, BooksWith(books, q), None, Set(p, to), None);
    Overwritten(base, p, q, to);
  }

  /** A process whose debit succeeds bills and meters the job. */
  lemma Bills(evs: seq<Event>, rows: seq<Entry>, books: Books, r: JobRow, base: Procs, h: Hist, p: nat, q: Proc,
              rows': seq<Entry>, isNew: bool) returns (more: seq<Event>)
    requires Valid(evs) && After(evs) == Snap(rows, books, r, base[p := q], h)
    requires q.job == JOB && q.stage.Reading? && q.amount > 0 && r.tenant == OWNER && !Terminal(r.status)
    requires DebitSpec(rows, OWNER, JOB, q.amount, Fine, Fine) == (rows', Debited(isNew))
    ensures Extends(evs, more)
    ensures After(more) == Snap(rows', BooksWith(books, q), r, base[p := q.(stage := Deciding(q.stage.caller, BilledOk))], h)
  {
    var c := q.stage.caller;
    var (q1, q2) := (q.(stage := Debiting(c)), q.(stage := Recording(c)));
    Reads(rows, books, r, base, h, p, q, Fine);
    more := Step(evs, Read(p, Fine), Snap(rows, books, r, base[p := q1], h));
    Debits(rows, books, r, base, h, p, q1, rows', Debited(isNew));
    more := Step(more, Event.Debit(p, Fine, Fine), Snap(rows', books, r, base[p := q2], h));
    Records(rows', books, r, base, h, p, q2);
    more := Step(more, Event.Record(p, Fine), Snap(rows', BooksWith(books, q), r, base[p := q.(stage := Deciding(c, BilledOk))], h));
  }

  // ---------------------------------------------------------------- Last writes

  function FailedRow(r: JobRow, s: BillingStatus, n: nat): JobRow {
    WorkerPatch(Failed, s, n, Cost(n)).On(r)
  }

  function HistOf(h: Hist, r: JobRow): Hist {
    if r.status == BillingPending then h.(parked := true, zeroParked := h.zeroParked || r.duration == 0) else h
  }

  lemma Writes(rows: seq<Entry>, books: Books, r: JobRow, base: Procs, h: Hist, p: nat, n: nat, b: Backend, s: BillingStatus)
    requires p !in base && r.status == Running && r.tenant == OWNER
    ensures Goes(Snap(rows, books, r, base[p := Finished(n, b, Deciding(ByWorker(Failed, n), s))], h), WorkerWrite(p, Fine),
              Snap(rows, books, FailedRow(r, s, n), base, HistOf(h, FailedRow(r, s, n))))
  {
    var q, r' := Finished(n, b, Deciding(ByWorker(Failed, n), s)), FailedRow(r, s, n);
    GuardSets(Running);
    Dropped(base, p, q);
    Assembled(rows, books, r, base[p := q], h, rows, books, Some(Write(JOB, r')), Drop(p),
              if r'.status == BillingPending then Some(HistWrite(JOB, HistOf(h, r'))) else None);
  }

  const MARK := PendingMarker(OtherError, Some(Failed))

  lemma ParkedRow(r: JobRow, h: Hist, n: nat)
    requires r.tenant == OWNER
    ensures FailedRow(r, OtherFailed, n) == JobRow(OWNER, BillingPending, MARK, 0, n, r.backend)
    ensures HistOf(h, FailedRow(r, OtherFailed, n)) == h.(parked := true, zeroParked := h.zeroParked || n == 0)
  {}

  /** The first read of its billing fails, and the worker parks the job. */
  lemma GivesUp(evs: seq<Event>, rows: seq<Entry>, books: Books, r: JobRow, base: Procs, h: Hist, p: nat, n: nat, b: Backend)
    returns (more: seq<Event>)
    requires p !in base && r.status == Running && r.tenant == OWNER
    requires Valid(evs) && After(evs) == Snap(rows, books, r, base[p := Finished(n, b, Reading(ByWorker(Failed, n)))], h)
    ensures Extends(evs, more)
    ensures After(more) == Snap(rows, books, JobRow(OWNER, BillingPending, MARK, 0, n, r.backend), base,
                                h.(parked := true, zeroParked := h.zeroParked || n == 0))
  {
    var c := ByWorker(Failed, n);
    Reads(rows, books, r, base, h, p, Finished(n, b, Reading(c)), Lost);
    more := Step(evs, Read(p, Lost), Snap(rows, books, r, base[p := Finished(n, b, Deciding(c, OtherFailed))], h));
    Writes(rows, books, r, base, h, p, n, b, OtherFailed);
    ParkedRow(r, h, n);
    more := Step(more, WorkerWrite(p, Fine),
                 Snap(rows, books, JobRow(OWNER, BillingPending, MARK, 0, n, r.backend), base,
                      h.(parked := true, zeroParked := h.zeroParked || n == 0)));
  }

  /** A run whose billing then fails, so that the job is parked. */
  lemma Parks(evs: seq<Event>, rows: seq<Entry>, books: Books, r: JobRow, base: Procs, h: Hist, p: nat, n: nat, b: Backend)
    returns (more: seq<Event>)
    requires Valid(evs) && After(evs) == Snap(rows, books, r, base, h)
    requires r.status == Queued && r.tenant == OWNER && p !in base && forall q | q in base :: !base[q].Worker()
    ensures Extends(evs, more)
    ensures After(more) == Snap(rows, books, JobRow(OWNER, BillingPending, MARK, 0, n, Some(b)), base,
                                h.(claimed := true, parked := true, zeroParked := h.zeroParked || n == 0, run := Some(Run(n, Failed))))
  {
    more := Ran(evs, rows, books, r, base, h, p, n, b);
    more := GivesUp(more, rows, books, r.(status := Running, backend := Some(b)), base,
                    h.(claimed := true, run := Some(Run(n, Failed))), p, n, b);
  }

  // ---------------------------------------------------------------- Compensating

  lemma TooLate(rows: seq<Entry>, books: Books, r: JobRow, base: Procs, h: Hist, p: nat, n: nat, b: Backend)
    requires r.status == Cancelled
    ensures Goes(Snap(rows, books, r, base[p := Finished(n, b, Deciding(ByWorker(Failed, n), BilledOk))], h),
              WorkerWrite(p, Fine), Snap(rows, books, r, base[p := Finished(n, b, CheckingCancel)], h))
  {
    var q, q' := Finished(n, b, Deciding(ByWorker(Failed, n), BilledOk)), Finished(n, b, CheckingCancel);
    GuardSets(Cancelled);
    Overwritten(base, p, q, q');
    Assembled(rows, books, r, base[p := q], h, rows, books, None, Set(p, q'), None);
  }

  lemma Checks(rows: seq<Entry>, books: Books, r: JobRow, base: Procs, h: Hist, p: nat, n: nat, b: Backend)
    requires r.status == Cancelled
    ensures Goes(Snap(rows, books, r, base[p := Finished(n, b, CheckingCancel)], h),
              CheckCancel(p, Fine), Snap(rows, books, r, base[p := Finished(n, b, Refunding(0))], h))
  {
    var q, q' := Finished(n, b, CheckingCancel), Finished(n, b, Refunding(0));
    Overwritten(base, p, q, q');
    Assembled(rows, books, r, base[p := q], h, rows, books, None, Set(p, q'), None);
  }

  function AfterAttempt(i: nat): Stage { if i + 1 < REFUND_ATTEMPTS then Refunding(i + 1) else Marking }

  lemma RefundFails(rows: seq<Entry>, books: Books, r: JobRow, base: Procs, h: Hist, p: nat, n: nat, b: Backend, i: nat)
    ensures Goes(Snap(rows, books, r, base[p := Finished(n, b, Refunding(i))], h),
              RefundTry(p, Lost, Lost), Snap(rows, books, r, base[p := Finished(n, b, AfterAttempt(i))], h))
  {
    var q, q' := Finished(n, b, Refunding(i)), Finished(n, b, AfterAttempt(i));
    Overwritten(base, p, q, q');
    Assembled(rows, books, r, base[p := q], h, rows, books, None, Set(p, q'), None);
  }

  lemma Marks(rows: seq<Entry>, books: Books, r: JobRow, base: Procs, h: Hist, p: nat, n: nat, b: Backend)
    requires p !in base
    ensures Goes(Snap(rows, books, r, base[p := Finished(n, b, Marking)], h), MarkRefund(p, Fine),
              Snap(rows, books, r.(error := RefundPending(Cost(n))), base, h.(marked := true)))
  {
    Dropped(base, p, Finished(n, b, Marking));
    Assembled(rows, books, r, base[p := Finished(n, b, Marking)], h, rows, books,
              Some(Write(JOB, r.(error := RefundPending(Cost(n))))), Drop(p), Some(HistWrite(JOB, h.(marked := true))));
  }

  /** A worker whose last write comes after a cancellation starts to repay. */
  lemma StartsRepaying(evs: seq<Event>, rows: seq<Entry>, books: Books, r: JobRow, base: Procs, h: Hist, p: nat, n: nat, b: Backend)
    returns (more: seq<Event>)
    requires Valid(evs) && r.status == Running
    requires After(evs) == Snap(rows, books, r, base[p := Finished(n, b, Deciding(ByWorker(Failed, n), BilledOk))], h)
    ensures Extends(evs, more)
    ensures After(more) == Snap(rows, books, r.(status := Cancelled), base[p := Finished(n, b, Refunding(0))], h)
  {
    var r', q := r.(status := Cancelled), Finished(n, b, Deciding(ByWorker(Failed, n), BilledOk));
    Cancels(rows, books, r, base[p := q], h);
    more := Step(evs, Cancel(JOB), Snap(rows, books, r', base[p := q], h));
    TooLate(rows, books, r', base, h, p, n, b);
    more := Step(more, WorkerWrite(p, Fine), Snap(rows, books, r', base[p := Finished(n, b, CheckingCancel)], h));
    Checks(rows, books, r', base, h, p, n, b);
    more := Step(more, CheckCancel(p, Fine), Snap(rows, books, r', base[p := Finished(n, b, Refunding(0))], h));
  }

  /** All three refunds fail, and the worker leaves the marker. */
  lemma LeavesMarker(evs: seq<Event>, rows: seq<Entry>, books: Books, r: JobRow, base: Procs, h: Hist, p: nat, n: nat, b: Backend)
    returns (more: seq<Event>)
    requires Valid(evs) && p !in base
    requires After(evs) == Snap(rows, books, r, base[p := Finished(n, b, Refunding(0))], h)
    ensures Extends(evs, more)
    ensures After(more) == Snap(rows, books, r.(error := RefundPending(Cost(n))), base, h.(marked := true))
  {
    RefundFails(rows, books, r, base, h, p, n, b, 0);
    more := Step(evs, RefundTry(p, Lost, Lost), Snap(rows, books, r, base[p := Finished(n, b, Refunding(1))], h));
    RefundFails(rows, books, r, base, h, p, n, b, 1);
    more := Step(more, RefundTry(p, Lost, Lost), Snap(rows, books, r, base[p := Finished(n, b, Refunding(2))], h));
    RefundFails(rows, books, r, base, h, p, n, b, 2);
    more := Step(more, RefundTry(p, Lost, Lost), Snap(rows, books, r, base[p := Finished(n, b, Marking)], h));
    Marks(rows, books, r, base, h, p, n, b);
    more := Step(more, MarkRefund(p, Fine), Snap(rows, books, r.(error := RefundPending(Cost(n))), base, h.(marked := true)));
  }

  // ---------------------------------------------------------------- Sweepers

  function Sweeping(r: JobRow, stage: Stage): Proc { Proc(JOB, Cost(r.duration), KindOf(r.backend), stage) }

  lemma Fetches(rows: seq<Entry>, books: Books, r: JobRow, base: Procs, h: Hist, p: nat)
    requires p !in base && r.status == BillingPending
    ensures Goes(Snap(rows, books, r, base, h), FetchPending(p, JOB),
              Snap(rows, books, r, base[p := Sweeping(r, Reading(BySweeper(r.error, r.duration)))], h))
  {
    Assembled(rows, books, r, base, h, rows, books, None, Set(p, Sweeping(r, Reading(BySweeper(r.error, r.duration)))), None);
  }

  /** What a sweeper writes, whatever the row has become since it fetched the job. */
  lemma Sweeps(rows: seq<Entry>, books: Books, r: JobRow, base: Procs, h: Hist, p: nat, q: Proc, patch: Patch)
    requires p !in base && q.job == JOB && q.stage.Deciding? && q.stage.caller.BySweeper?
    requires SweepPatch(q.stage.result, q.stage.caller.marker, q.stage.caller.duration) == Some(patch)
    requires r.status !in SweepGuard(q.stage.result)
    ensures Goes(Snap(rows, books, r, base[p := q], h), SweepWrite(p, Fine), Snap(rows, books, patch.On(r), base, h))
  {
    Dropped(base, p, q);
    Assembled(rows, books, r, base[p := q], h, rows, books, Some(Write(JOB, patch.On(r))), Drop(p), None);
  }

  // ---------------------------------------------------------------- Money for one run

  /** The owner's money, exactly what one run of `n` costs, and the debit of that run. */
  function Money(n: nat): seq<Entry> { [TopUpOf(Cost(n))] }
  function Spent(n: nat): seq<Entry> { Money(n) + [DebitEntry(OWNER, JOB, Cost(n))] }

  lemma DebitFails(n: nat)
    requires n > 0
    ensures DebitSpec([], OWNER, JOB, Cost(n), Fine, Fine) == ([], NoFunds)
  {}

  lemma TopUpKey(n: nat)
    ensures FindRow(Money(n), DebitId(OWNER, JOB)) == None && Balance(Money(n), OWNER) == Cost(n)
  {
    assert Money(n)[..0] == [];
    assert Balance([], OWNER) == 0;
  }

  lemma DebitSucceeds(n: nat)
    ensures DebitSpec(Money(n), OWNER, JOB, Cost(n), Fine, Fine) == (Spent(n), Debited(true))
  {
    TopUpKey(n);
  }

  lemma DebitMatches(n: nat)
    ensures DebitSpec(Spent(n), OWNER, JOB, Cost(n), Fine, Fine) == (Spent(n), Debited(false))
  {
    assert Spent(n)[|Spent(n)| - 1] == DebitEntry(OWNER, JOB, Cost(n));
  }
}
