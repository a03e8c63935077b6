/** The event log's paged replay against the plain reading of the log, and exactly when the two
    agree. */
module Replay {
  import opened Basics

  datatype Event = Event(id: string, tick: int, payload: string)

  const PAGE: nat := 100

  // ---------------------------------------------------------------- Plain reading

  /** The events from a tick on, in log order. */
  function From(log: seq<Event>, tick: int): seq<Event> {
    if log == [] then []
    else (if log[0].tick >= tick then [log[0]] else []) + From(log[1..], tick)
  }

  ghost predicate Ordered(s: seq<Event>) {
    forall i, k | 0 <= i < k < |s| :: s[i].tick <= s[k].tick
  }

  function Insert(e: Event, s: seq<Event>): seq<Event> {
    if s == [] || e.tick <= s[0].tick then [e] + s else [s[0]] + Insert(e, s[1..])
  }

  /** `ORDER BY tick`: events of one tick stay in the order they were appended. */
  function Sorted(log: seq<Event>): seq<Event> {
    if log == [] then [] else Insert(log[0], Sorted(log[1..]))
  }

  lemma OrderedPrepended(e: Event, s: seq<Event>)
    requires Ordered(s) && forall x | x in s :: e.tick <= x.tick
    ensures Ordered([e] + s)
  {}

  lemma {:induction false} InsertHolds(e: Event, s: seq<Event>)
    ensures multiset(Insert(e, s)) == multiset(s) + multiset{e}
  {
    if s != [] && e.tick > s[0].tick {
      InsertHolds(e, s[1..]);
      assert s == [s[0]] + s[1..];
    }
  }

  lemma {:induction false} InsertOrders(e: Event, s: seq<Event>)
    requires Ordered(s)
    ensures Ordered(Insert(e, s))
  {
    if s == [] || e.tick <= s[0].tick {
      OrderedPrepended(e, s);
    } else {
      InsertOrders(e, s[1..]);
      InsertHolds(e, s[1..]);
      forall x | x in Insert(e, s[1..])
        ensures s[0].tick <= x.tick
      {
        assert x in multiset(Insert(e, s[1..]));
      }
      OrderedPrepended(s[0], Insert(e, s[1..]));
    }
  }

  lemma {:induction false} SortedOrders(log: seq<Event>)
    ensures Ordered(Sorted(log)) && multiset(Sorted(log)) == multiset(log)
  {
    if log != [] {
      SortedOrders(log[1..]);
      InsertOrders(log[0], Sorted(log[1..]));
      InsertHolds(log[0], Sorted(log[1..]));
      assert log == [log[0]] + log[1..];
    }
  }

  lemma FromPrepended(e: Event, s: seq<Event>, tick: int)
    ensures From([e] + s, tick) == (if e.tick >= tick then [e] else []) + From(s, tick)
  {
    assert ([e] + s)[1..] == s;
  }

  /** Exactly the events from the tick on are selected, each as often as it is there. */
  lemma {:induction false} FromSelects(s: seq<Event>, tick: int, e: Event)
    ensures multiset(From(s, tick))[e] == if e.tick >= tick then multiset(s)[e] else 0
  {
    if s != [] {
      FromSelects(s[1..], tick, e);
      assert s == [s[0]] + s[1..];
    }
  }

  /** From a tick that the whole list reaches, everything is read. */
  lemma {:induction false} FromAll(s: seq<Event>, tick: int)
    requires Ordered(s) && (s == [] || s[0].tick >= tick)
    ensures From(s, tick) == s
  {
    if s != [] {
      FromAll(s[1..], tick);
      assert s == [s[0]] + s[1..];
    }
  }

  lemma {:induction false} InsertThenFrom(e: Event, s: seq<Event>, tick: int)
    requires Ordered(s)
    ensures From(Insert(e, s), tick) == if e.tick >= tick then Insert(e, From(s, tick)) else From(s, tick)
  {
    if s == [] || e.tick <= s[0].tick {
      FromPrepended(e, s, tick);
      if e.tick >= tick { FromAll(s, tick); }
    } else {
      InsertThenFrom(e, s[1..], tick);
      FromPrepended(s[0], Insert(e, s[1..]), tick);
      if s[0].tick >= tick {
        FromAll(s, tick);
        FromAll(s[1..], tick);
      } else {
        assert From(s, tick) == From(s[1..], tick);
      }
    }
  }

  /** Selecting then sorting is sorting then selecting. */
  lemma {:induction false} SortedFrom(log: seq<Event>, tick: int)
    ensures Sorted(From(log, tick)) == From(Sorted(log), tick)
  {
    if log != [] {
      SortedFrom(log[1..], tick);
      SortedOrders(log[1..]);
      InsertThenFrom(log[0], Sorted(log[1..]), tick);
      assert From(log, tick) == (if log[0].tick >= tick then [log[0]] + From(log[1..], tick) else From(log[1..], tick));
      if log[0].tick >= tick { assert From(log, tick)[1..] == From(log[1..], tick); }
    }
  }

  lemma SelectedInOrder(log: seq<Event>, tick: int)
    ensures Ordered(Sorted(log)) && Ordered(Sorted(From(log, tick)))
    ensures Sorted(From(log, tick)) == From(Sorted(log), tick)
  {
    SortedOrders(log);
    SortedOrders(From(log, tick));
    SortedFrom(log, tick);
  }

  // ---------------------------------------------------------------- Paged reading

  /** Behind events that are all older, reading reads only the others. */
  lemma {:induction false} FromDrops(s: seq<Event>, n: nat, tick: int)
    requires Ordered(s) && n <= |s| && (n > 0 ==> s[n - 1].tick < tick)
    ensures From(s, tick) == From(s[n..], tick)
  {
    if n > 0 {
      FromDrops(s[1..], n - 1, tick);
      assert s[1..][n - 1..] == s[n..];
    }
  }

  lemma {:induction false} FromShrinks(s: seq<Event>, tick: int)
    ensures |From(s, tick)| <= |s|
  {
    if s != [] { FromShrinks(s[1..], tick); }
  }

  lemma {:induction false} FromFrom(s: seq<Event>, a: int, b: int)
    requires a <= b
    ensures From(From(s, a), b) == From(s, b)
  {
    if s != [] {
      FromFrom(s[1..], a, b);
      if s[0].tick >= a { FromPrepended(s[0], From(s[1..], a), b); } else { assert From(s, a) == From(s[1..], a); }
    }
  }

  lemma {:induction false} FromOrdered(s: seq<Event>, tick: int)
    requires Ordered(s)
    ensures Ordered(From(s, tick)) && forall e | e in From(s, tick) :: e.tick >= tick
  {
    if s == [] || s[0].tick >= tick { FromAll(s, tick); } else { FromOrdered(s[1..], tick); }
  }

  /** What is left to read after a page of up to `page` events: everything from one tick after
      its last. */
  function NextPage(s: seq<Event>, page: nat): (r: seq<Event>)
    requires page >= 1 && s != []
    ensures |r| <= |s| - Min(page, |s|)
  {
    var n := Min(page, |s|);
    FromShrinks(s[n..], s[n - 1].tick + 1);
    From(s[n..], s[n - 1].tick + 1)
  }

  /** LIMIT. */
  function FirstPage(s: seq<Event>, page: nat): seq<Event> {
    if |s| <= page then s else s[..page]
  }

  function Pages(s: seq<Event>, page: nat): (r: seq<Event>)
    requires page >= 1
    ensures |r| <= |s|
    decreases |s|
  {
    if s == [] then [] else FirstPage(s, page) + Pages(NextPage(s, page), page)
  }

  /** The positions page, 2 * page, 3 * page, ... */
  predicate Boundary(k: nat, page: nat)
    requires page >= 1
  {
    k == page || (k > page && Boundary(k - page, page))
  }

  /** No page ends between two events of one tick. */
  ghost predicate NoSplit(s: seq<Event>, page: nat)
    requires page >= 1
  {
    forall k: nat | k < |s| && Boundary(k, page) :: Apart(s, k)
  }

  ghost predicate Apart(s: seq<Event>, k: nat)
    requires k < |s|
  {
    k > 0 ==> s[k - 1].tick != s[k].tick
  }

  lemma NoSplitTail(s: seq<Event>, page: nat)
    requires page >= 1 && |s| > page
    ensures NoSplit(s, page) <==> Apart(s, page) && NoSplit(s[page..], page)
  {
    var t := s[page..];
    if NoSplit(s, page) {
      forall k: nat | k < |t| && Boundary(k, page)
        ensures Apart(t, k)
      {
        assert Boundary(k + page, page) && Apart(s, k + page);
      }
    }
    if Apart(s, page) && NoSplit(t, page) {
      forall k: nat | k < |s| && Boundary(k, page)
        ensures Apart(s, k)
      {
        if k > page { assert Apart(t, k - page); }
      }
    }
  }

  lemma NextPageIs(s: seq<Event>, page: nat)
    requires Ordered(s) && page >= 1 && |s| > page
    ensures if Apart(s, page) then NextPage(s, page) == s[page..] else |NextPage(s, page)| < |s| - page
  {
    if Apart(s, page) {
      FromAll(s[page..], s[page - 1].tick + 1);
    } else {
      FromShrinks(s[page..][1..], s[page - 1].tick + 1);
    }
  }

  /** Paging reads everything exactly when no page boundary falls inside a tick; otherwise it
      skips events. */
  lemma {:induction false} PagedIsPlain(s: seq<Event>, page: nat)
    requires Ordered(s) && page >= 1
    ensures Pages(s, page) == s <==> NoSplit(s, page)
    ensures !NoSplit(s, page) ==> |Pages(s, page)| < |s|
    decreases |s|
  {
    if |s| <= page {
      BoundariesBeyond(s, page);
    } else {
      NoSplitTail(s, page);
      NextPageIs(s, page);
      if Apart(s, page) {
        PagedIsPlain(s[page..], page);
        PageThenRest(s, page, Pages(s[page..], page));
      }
    }
  }

  lemma PageThenRest(s: seq<Event>, page: nat, rest: seq<Event>)
    requires page <= |s|
    ensures s[..page] + rest == s <==> rest == s[page..]
  {
    assert s == s[..page] + s[page..];
    assert (s[..page] + rest)[page..] == rest;
  }

  lemma BoundariesBeyond(s: seq<Event>, page: nat)
    requires page >= 1 && |s| <= page
    ensures Pages(s, page) == s && NoSplit(s, page)
  {
    if s != [] { assert NextPage(s, page) == []; }
  }

  ghost predicate DistinctTicks(s: seq<Event>) {
    forall i, k | 0 <= i < k < |s| :: s[i].tick != s[k].tick
  }

  /** Every page size is safe exactly when no two events share a tick. */
  lemma EverySizeIsSafe(s: seq<Event>)
    requires Ordered(s)
    ensures DistinctTicks(s) <==> forall page: nat | page >= 1 :: Pages(s, page) == s
  {
    if DistinctTicks(s) {
      forall page: nat | page >= 1
        ensures Pages(s, page) == s
      {
        PagedIsPlain(s, page);
      }
    } else {
      var i, k :| 0 <= i < k < |s| && s[i].tick == s[k].tick;
      assert s[i].tick <= s[i + 1].tick <= s[k].tick;
      PagedIsPlain(s, i + 1);
      assert Boundary(i + 1, i + 1) && !Apart(s, i + 1);
    }
  }

  lemma {:induction false} FromDistinct(s: seq<Event>, tick: int)
    requires DistinctTicks(s)
    ensures DistinctTicks(From(s, tick)) && forall e | e in From(s, tick) :: e in s
  {
    if s != [] {
      FromDistinct(s[1..], tick);
      forall e | e in s[1..]
        ensures e in s && e.tick != s[0].tick
      {}
    }
  }

  /** Replay from a tick, for any page size, when ticks are distinct: the events at or after it,
      once each, in tick order. */
  lemma ReplayReadsAll(log: seq<Event>, tick: int, page: nat)
    requires DistinctTicks(log) && page >= 1
    ensures Ordered(Sorted(From(log, tick)))
    ensures var out := Pages(Sorted(From(log, tick)), page);
            && multiset(out) == multiset(From(log, tick))
            && forall i, k | 0 <= i < k < |out| :: out[i].tick < out[k].tick
  {
    var wanted := From(log, tick);
    FromDistinct(log, tick);
    SortedOrders(wanted);
    SortedDistinct(wanted);
    EverySizeIsSafe(Sorted(wanted));
  }

  lemma SortedDistinct(s: seq<Event>)
    requires DistinctTicks(s)
    ensures DistinctTicks(Sorted(s))
  {
    SortedOrders(s);
    var r := Sorted(s);
    forall i, k | 0 <= i < k < |r|
      ensures r[i].tick != r[k].tick
    {
      if r[i] == r[k] { Twice(r, i, k); Once(s, r[i]); }
      assert r[i] in multiset(s) && r[k] in multiset(s);
    }
  }

  lemma Twice(s: seq<Event>, i: nat, k: nat)
    requires i < k < |s| && s[i] == s[k]
    ensures multiset(s)[s[i]] >= 2
  {
    assert s == s[..k] + [s[k]] + s[k + 1..];
    assert s[i] in s[..k];
  }

  lemma {:induction false} Once(s: seq<Event>, e: Event)
    requires DistinctTicks(s)
    ensures multiset(s)[e] <= 1
  {
    if s != [] {
      var front, last := s[..|s| - 1], s[|s| - 1];
      Once(front, e);
      assert s == front + [last];
      if last == e { assert e !in front; }
    }
  }

  // ---------------------------------------------------------------- The store

  class EventStore {
    var log: seq<Event>
    var counter: nat
    // Ticks handed out and not yet spent on an event.
    ghost var drawn: set<int>

    /** Opening a store finds the log that is there and counts ticks from zero. */
    constructor (log: seq<Event>)
      ensures this.log == log && counter == 0 && drawn == {}
      ensures log == [] ==> Ticking()
    {
      this.log, counter, drawn := log, 0, {};
    }

    /** Every event has its own tick, and the next one is new. */
    ghost predicate Ticking() reads this {
      && DistinctTicks(log)
      && (forall e | e in log :: e.tick <= counter && e.tick !in drawn)
      && (forall t | t in drawn :: t <= counter)
    }

    method NextTick() returns (tick: nat)
      modifies this`counter, this`drawn
      ensures tick == old(counter) + 1 == counter && drawn == old(drawn) + {tick}
      ensures old(Ticking()) ==> Ticking() && tick !in old(drawn) && forall e | e in log :: e.tick != tick
    {
      counter := counter + 1;
      tick := counter;
      drawn := drawn + {tick};
    }

    /** `append`; the id is the primary key. */
    method Append(e: Event) returns (ok: bool)
      modifies this`log, this`drawn
      ensures ok <==> forall x | x in old(log) :: x.id != e.id
      ensures log == if ok then old(log) + [e] else old(log)
      ensures old(Ticking()) && e.tick in old(drawn) ==> Ticking()
    {
      ok := true;
      for i := 0 to |log|
        invariant ok <==> forall x | x in log[..i] :: x.id != e.id
      {
        assert log[..i + 1] == log[..i] + [log[i]];
        if log[i].id == e.id {
          ok := false;
        }
      }
      assert log[..|log|] == log;
      if ok {
        log := log + [e];
        drawn := drawn - {e.tick};
      }
    }

    /** `get_events_since`. */
    method GetEventsSince(tick: int, limit: nat) returns (events: seq<Event>)
      ensures events == FirstPage(From(Sorted(log), tick), limit)
    {
      SortedFrom(log, tick);
      events := FirstPage(Sorted(From(log, tick)), limit);
    }

    /** `replay_from_tick`, to its end. */
    method ReplayFromTick(tick: int) returns (out: seq<Event>)
      ensures out == ReadFrom(log, tick)
    {
      out := [];
      var offset := 0;
      while true
        invariant ReadFrom(log, tick) == out + ReadFrom(log, tick + offset)
        decreases |From(Sorted(log), tick + offset)|
      {
        var events := GetEventsSince(tick + offset, PAGE);
        PageRead(log, tick + offset, events, out);
        if events == [] {
          break;
        }
        out := out + events;
        offset := events[|events| - 1].tick - tick + 1;
      }
    }
  }

  /** All that replay reads from a tick on. */
  function ReadFrom(log: seq<Event>, start: int): seq<Event> {
    Pages(From(Sorted(log), start), PAGE)
  }

  /** That is the paged reading of the events selected by tick and ordered. */
  lemma ReadFromIsPaged(log: seq<Event>, tick: int)
    ensures ReadFrom(log, tick) == Pages(Sorted(From(log, tick)), PAGE)
  {
    SelectedInOrder(log, tick);
  }

  /** One turn of the loop: the end, or one page more and fewer events to go. */
  lemma PageRead(log: seq<Event>, start: int, events: seq<Event>, out: seq<Event>)
    requires events == FirstPage(From(Sorted(log), start), PAGE)
    ensures events == [] ==> ReadFrom(log, start) == []
    ensures events != [] ==>
              && out + ReadFrom(log, start) == out + events + ReadFrom(log, events[|events| - 1].tick + 1)
              && |From(Sorted(log), events[|events| - 1].tick + 1)| < |From(Sorted(log), start)|
  {
    var rest := From(Sorted(log), start);
    if rest != [] {
      SelectedInOrder(log, start);
      ReadOn(Sorted(log), start, rest, events);
      var next := ReadFrom(log, events[|events| - 1].tick + 1);
      assert out + (events + next) == (out + events) + next;
    }
  }

  lemma RestInOrder(all: seq<Event>, tick: int, i: nat)
    requires Ordered(all) && i < |From(all, tick)|
    ensures Ordered(From(all, tick)) && From(all, tick)[i].tick >= tick
  {
    FromOrdered(all, tick);
    assert From(all, tick)[i] in From(all, tick);
  }

  lemma BehindPage(all: seq<Event>, tick: int, rest: seq<Event>, n: nat)
    requires Ordered(rest) && rest == From(all, tick) && 0 < n <= |rest| && rest[n - 1].tick >= tick
    ensures From(rest[n..], rest[n - 1].tick + 1) == From(all, rest[n - 1].tick + 1)
  {
    FromFrom(all, tick, rest[n - 1].tick + 1);
    FromDrops(rest, n, rest[n - 1].tick + 1);
  }

  lemma BehindPageOf(all: seq<Event>, tick: int, rest: seq<Event>, n: nat)
    requires Ordered(all) && rest == From(all, tick) && 0 < n <= |rest|
    ensures From(rest[n..], rest[n - 1].tick + 1) == From(all, rest[n - 1].tick + 1)
  {
    RestInOrder(all, tick, n - 1);
    BehindPage(all, tick, rest, n);
  }

  lemma NextPageUnfolds(s: seq<Event>, n: nat)
    requires s != [] && n == |FirstPage(s, PAGE)|
    ensures 0 < n <= |s| && FirstPage(s, PAGE) == s[..n]
    ensures NextPage(s, PAGE) == From(s[n..], s[n - 1].tick + 1) && |NextPage(s, PAGE)| < |s|
  {}

  /** The query behind the last event of a page reads exactly what that page left over. */
  lemma ReadOn(all: seq<Event>, tick: int, rest: seq<Event>, events: seq<Event>)
    requires Ordered(all) && rest == From(all, tick) && rest != [] && events == FirstPage(rest, PAGE)
    ensures events != [] && NextPage(rest, PAGE) == From(all, events[|events| - 1].tick + 1)
    ensures |NextPage(rest, PAGE)| < |rest|
  {
    NextPageUnfolds(rest, |events|);
    BehindPageOf(all, tick, rest, |events|);
  }
}
