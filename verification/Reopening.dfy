/** Event stores opened again on an old log: every opening counts its ticks from one, and paged
    replay loses events exactly when the page size does not fit the number of openings. */
module Reopening {
  import opened Basics
  import opened Replay

  /** What one opening appends when it spends every tick it draws. */
  function Opening(ids: seq<string>): seq<Event> {
    seq(|ids|, i requires 0 <= i < |ids| => Event(ids[i], i + 1, ""))
  }

  function Openings(runs: seq<seq<string>>): seq<Event> {
    if runs == [] then [] else Openings(runs[..|runs| - 1]) + Opening(runs[|runs| - 1])
  }

  // ---------------------------------------------------------------- How many events up to a tick

  function UpTo(s: seq<Event>, t: int): nat {
    if s == [] then 0 else (if s[0].tick <= t then 1 else 0) + UpTo(s[1..], t)
  }

  lemma {:induction false} UpToConcat(a: seq<Event>, b: seq<Event>, t: int)
    ensures UpTo(a + b, t) == UpTo(a, t) + UpTo(b, t)
  {
    if a == [] {
      assert a + b == b;
    } else {
      assert (a + b)[1..] == a[1..] + b;
      UpToConcat(a[1..], b, t);
    }
  }

  lemma {:induction false} UpToInsert(e: Event, s: seq<Event>, t: int)
    ensures UpTo(Insert(e, s), t) == UpTo(s, t) + if e.tick <= t then 1 else 0
    ensures |Insert(e, s)| == |s| + 1
  {
    if s == [] || e.tick <= s[0].tick {
      assert ([e] + s)[1..] == s;
    } else {
      UpToInsert(e, s[1..], t);
      assert ([s[0]] + Insert(e, s[1..]))[1..] == Insert(e, s[1..]);
    }
  }

  lemma {:induction false} UpToSorted(s: seq<Event>, t: int)
    ensures UpTo(Sorted(s), t) == UpTo(s, t) && |Sorted(s)| == |s|
  {
    if s != [] {
      UpToSorted(s[1..], t);
      UpToInsert(s[0], Sorted(s[1..]), t);
    }
  }

  lemma {:induction false} UpToOpening(ids: seq<string>, t: nat)
    ensures UpTo(Opening(ids), t) == Min(t, |ids|)
  {
    if ids != [] {
      var front := ids[..|ids| - 1];
      var last := Event(ids[|ids| - 1], |ids|, "");
      assert Opening(ids) == Opening(front) + [last];
      UpToOpening(front, t);
      UpToConcat(Opening(front), [last], t);
      assert [last][1..] == [];
    }
  }

  ghost predicate Even(runs: seq<seq<string>>, n: nat) {
    forall r | r in runs :: |r| == n
  }

  lemma OneMore(m: nat, t: nat)
    ensures (m + 1) * t == m * t + t
  {}

  lemma {:induction false} UpToOpenings(runs: seq<seq<string>>, n: nat, t: nat)
    requires Even(runs, n) && t <= n
    ensures UpTo(Openings(runs), t) == |runs| * t && |Openings(runs)| == |runs| * n
  {
    if runs != [] {
      var (front, last) := (runs[..|runs| - 1], runs[|runs| - 1]);
      UpToOpenings(front, n, t);
      UpToOpening(last, t);
      UpToConcat(Openings(front), Opening(last), t);
      OneMore(|front|, t);
      OneMore(|front|, n);
    }
  }

  /** On an ordered list the events up to a tick come first. */
  lemma {:induction false} UpToIsPrefix(s: seq<Event>, t: int, i: nat)
    requires Ordered(s) && i < |s|
    ensures s[i].tick <= t <==> i < UpTo(s, t)
  {
    if i > 0 { UpToIsPrefix(s[1..], t, i - 1); }
    if s[0].tick > t { NoneUpTo(s, t); }
  }

  lemma {:induction false} NoneUpTo(s: seq<Event>, t: int)
    requires Ordered(s) && s != [] && s[0].tick > t
    ensures UpTo(s, t) == 0
  {
    if |s| > 1 { NoneUpTo(s[1..], t); }
  }

  // ---------------------------------------------------------------- Where pages end

  lemma TickBetween(s: seq<Event>, i: nat, q: nat)
    requires Ordered(s) && i < |s| && UpTo(s, q) <= i < UpTo(s, q + 1)
    ensures s[i].tick == q + 1
  {
    UpToIsPrefix(s, q, i);
    UpToIsPrefix(s, q + 1, i);
  }

  lemma SortedCounts(runs: seq<seq<string>>, n: nat, t: nat)
    requires Even(runs, n) && t <= n
    ensures Ordered(Sorted(Openings(runs))) && |Sorted(Openings(runs))| == |runs| * n
    ensures UpTo(Sorted(Openings(runs)), t) == |runs| * t
  {
    SelectedInOrder(Openings(runs), 0);
    UpToSorted(Openings(runs), t);
    UpToOpenings(runs, n, t);
  }

  /** The i-th event in tick order, of r openings. */
  lemma TickAt(runs: seq<seq<string>>, n: nat, i: nat)
    requires Even(runs, n) && |runs| >= 1 && i < |runs| * n
    ensures |Sorted(Openings(runs))| == |runs| * n
    ensures Sorted(Openings(runs))[i].tick == i / |runs| + 1
  {
    var q := i / |runs|;
    Quotient(i, |runs|, n);
    SortedCounts(runs, n, q);
    SortedCounts(runs, n, q + 1);
    TickBetween(Sorted(Openings(runs)), i, q);
  }

  lemma Scaled(r: nat, a: int, b: int)
    ensures a <= b ==> r * a <= r * b
  {}

  lemma Quotient(i: nat, r: nat, n: nat)
    requires r >= 1 && i < r * n
    ensures r * (i / r) <= i < r * (i / r + 1) && i / r < n
  {
    var q := i / r;
    assert i == r * q + i % r;
    Scaled(r, n, q);
  }

  lemma GroupsDiffer(k: nat, r: nat)
    requires k >= 1 && r >= 1
    ensures (k - 1) / r != k / r <==> k % r == 0
  {
    var (q, m) := (k / r, k % r);
    assert k == r * q + m;
    if m == 0 {
      assert k - 1 == r * (q - 1) + (r - 1);
      DivOf(k - 1, r, q - 1, r - 1);
    } else {
      DivOf(k - 1, r, q, m - 1);
    }
  }

  lemma DivOf(a: int, r: nat, q: int, m: nat)
    requires r >= 1 && m < r && a == r * q + m
    ensures a / r == q
  {
    assert a == r * (a / r) + a % r;
    Scaled(r, a / r + 1, q);
    Scaled(r, q + 1, a / r);
  }

  lemma ApartAt(runs: seq<seq<string>>, n: nat, k: nat)
    requires Even(runs, n) && |runs| >= 1 && 0 < k < |runs| * n
    ensures |Sorted(Openings(runs))| == |runs| * n
    ensures Apart(Sorted(Openings(runs)), k) <==> k % |runs| == 0
  {
    TickAt(runs, n, k);
    TickAt(runs, n, k - 1);
    GroupsDiffer(k, |runs|);
  }

  lemma {:induction false} BoundaryDivides(k: nat, page: nat, r: nat)
    requires page >= 1 && r >= 1 && Boundary(k, page) && page % r == 0
    ensures k % r == 0
    decreases k
  {
    if k != page {
      BoundaryDivides(k - page, page, r);
      assert k - page == r * ((k - page) / r) && page == r * (page / r);
      assert k == r * ((k - page) / r + page / r) + 0;
      DivOf(k, r, (k - page) / r + page / r, 0);
    }
  }

  lemma {:induction false} BoundaryIsFar(k: nat, page: nat)
    requires page >= 1 && Boundary(k, page)
    ensures k >= page
    decreases k
  {
    if k != page { BoundaryIsFar(k - page, page); }
  }

  lemma NoSplitExactly(runs: seq<seq<string>>, n: nat, page: nat)
    requires Even(runs, n) && |runs| >= 1 && page >= 1
    ensures NoSplit(Sorted(Openings(runs)), page) <==> page % |runs| == 0 || |runs| * n <= page
  {
    var (s, r) := (Sorted(Openings(runs)), |runs|);
    UpToOpenings(runs, n, 0);
    UpToSorted(Openings(runs), 0);
    if page % r == 0 || r * n <= page {
      forall k: nat | k < |s| && Boundary(k, page)
        ensures Apart(s, k)
      {
        BoundaryIsFar(k, page);
        if r * n > page {
          BoundaryDivides(k, page, r);
          ApartAt(runs, n, k);
        }
      }
    } else {
      ApartAt(runs, n, page);
      assert Boundary(page, page);
    }
  }

  lemma {:induction false} AllFromStart(s: seq<Event>)
    requires forall e | e in s :: e.tick >= 0
    ensures From(s, 0) == s
  {
    if s != [] { AllFromStart(s[1..]); }
  }

  lemma {:induction false} OpeningsStart(runs: seq<seq<string>>)
    ensures forall e | e in Openings(runs) :: e.tick >= 0
  {
    if runs != [] { OpeningsStart(runs[..|runs| - 1]); }
  }

  /** Replaying the log of r openings of n events each loses events if and only if it is longer
      than a page and r does not divide the page size. */
  lemma OpeningsLoseExactly(runs: seq<seq<string>>, n: nat, page: nat)
    requires Even(runs, n) && |runs| >= 1 && page >= 1
    ensures |Pages(Sorted(From(Openings(runs), 0)), page)| < |Openings(runs)|
       <==> |runs| * n > page && page % |runs| != 0
  {
    var log := Openings(runs);
    OpeningsStart(runs);
    AllFromStart(log);
    UpToSorted(log, 0);
    SortedOrders(log);
    NoSplitExactly(runs, n, page);
    PagedIsPlain(Sorted(log), page);
  }

  // ---------------------------------------------------------------- The store does produce such logs

  ghost predicate NewIds(log: seq<Event>, ids: seq<string>) {
    && (forall i, k | 0 <= i < k < |ids| :: ids[i] != ids[k])
    && (forall e | e in log :: e.id !in ids)
  }

  class JobAggregate {
    const store: EventStore

    constructor (store: EventStore)
      ensures this.store == store
    {
      this.store := store;
    }

    /** Every command draws a tick, makes its event and appends it. */
    method Command(id: string, payload: string) returns (e: Event)
      modifies store`log, store`drawn, store`counter
      ensures e == Event(id, old(store.counter) + 1, payload) && store.counter == old(store.counter) + 1
      ensures store.log == if forall x | x in old(store.log) :: x.id != id then old(store.log) + [e] else old(store.log)
    {
      var tick := store.NextTick();
      e := Event(id, tick, payload);
      var ok := store.Append(e);
    }
  }

  /** The life of a process: it opens the store, gives its commands and ends. */
  method Lifetime(log: seq<Event>, ids: seq<string>) returns (after: seq<Event>)
    requires NewIds(log, ids)
    ensures after == log + Opening(ids)
  {
    var store := new EventStore(log);
    var jobs := new JobAggregate(store);
    for i := 0 to |ids|
      invariant fresh(store) && store.counter == i && store.log == log + Opening(ids)[..i]
    {
      assert forall k | 0 <= k < i :: Opening(ids)[k].id == ids[k];
      var e := jobs.Command(ids[i], "");
      assert e == Opening(ids)[i];
      assert Opening(ids)[..i + 1] == Opening(ids)[..i] + [Opening(ids)[i]];
    }
    assert Opening(ids)[..|ids|] == Opening(ids);
    after := store.log;
  }

  /** Three processes of 34 commands each leave a log that the code's own replay does not read
      whole. */
  method ThreeLifetimes(a: seq<string>, b: seq<string>, c: seq<string>) returns (log: seq<Event>)
    requires |a| == |b| == |c| == 34
    requires NewIds([], a) && NewIds(Opening(a), b) && NewIds(Opening(a) + Opening(b), c)
    ensures |ReadFrom(log, 0)| < |log| == 102
  {
    log := Lifetime([], a);
    log := Lifetime(log, b);
    log := Lifetime(log, c);
    ThreeLose(a, b, c);
  }

  lemma ThreeLose(a: seq<string>, b: seq<string>, c: seq<string>)
    requires |a| == |b| == |c| == 34
    ensures var log := [] + Opening(a) + Opening(b) + Opening(c);
            |ReadFrom(log, 0)| < |log| == 102
  {
    ReadFromIsPaged([] + Opening(a) + Opening(b) + Opening(c), 0);
    ThreeOpenings(a, b, c);
    OpeningsLoseExactly([a, b, c], 34, PAGE);
  }

  lemma ThreeOpenings(a: seq<string>, b: seq<string>, c: seq<string>)
    ensures Openings([a, b, c]) == [] + Opening(a) + Opening(b) + Opening(c)
  {
    assert [a][..0] == [] && Openings([a]) == [] + Opening(a);
    assert [a, b][..1] == [a] && Openings([a, b]) == [] + Opening(a) + Opening(b);
    assert [a, b, c][..2] == [a, b];
  }
}
