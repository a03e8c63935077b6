/** Borrowed connections: every one is given back to the pool that lent it, or closed, exactly
    once, whatever fails and whichever pool the manager holds by then. */
module Connection {
  import opened Basics

  /** What became of a borrowed connection: put back into a pool, as healthy or to be closed
      there, or closed directly because no pool took it. */
  datatype Disposal = GivenBack(pool: nat, discard: bool) | ClosedDirectly

  /** A borrow that is over; borrows are numbered. */
  datatype Settled = Settled(ticket: nat, how: Disposal)

  /** One pass of the retry loop, as the outside world decides it: whether a missing pool can be
      made, whether a connection comes out and answers its ping, whether the lender takes a dead
      one back, and whether another thread installs a new pool meanwhile. */
  datatype Attempt = Attempt(poolMade: bool, lent: bool, answers: bool, takenBack: bool, swapped: bool)

  const BASE_DELAY_MS := 100

  function Power2(n: nat): (p: nat)
    ensures p >= 1
  {
    if n == 0 then 1 else 2 * Power2(n - 1)
  }

  function Backoff(retries: nat): nat {
    if retries == 0 then 0 else Backoff(retries - 1) + BASE_DELAY_MS * Power2(retries - 1)
  }

  /** The delays double, so together they stay below the next one. */
  lemma {:induction false} BackoffTotal(retries: nat)
    ensures Backoff(retries) == BASE_DELAY_MS * (Power2(retries) - 1)
  {
    if retries > 0 { BackoffTotal(retries - 1); }
  }

  /** With n retries allowed, a borrow never sleeps longer than base * (2^n - 1) in all. */
  lemma {:induction false} BackoffBound(retries: nat, allowed: nat)
    requires retries <= allowed
    ensures Backoff(retries) <= BASE_DELAY_MS * (Power2(allowed) - 1)
  {
    BackoffTotal(allowed);
    if retries < allowed {
      BackoffBound(retries, allowed - 1);
      BackoffTotal(allowed - 1);
    }
  }

  /** With the five retries of the default, 3.1 seconds in all. */
  lemma DefaultBackoff()
    ensures Backoff(5) == 3100
  {
    assert Backoff(2) == 300;
    assert Backoff(4) == 1500;
  }

  ghost predicate Over(log: seq<Settled>, t: nat) {
    exists e | e in log :: e.ticket == t
  }

  ghost predicate OncePerTicket(log: seq<Settled>) {
    forall i, k | 0 <= i < k < |log| :: log[i].ticket != log[k].ticket
  }

  lemma SettleOnce(log: seq<Settled>, e: Settled)
    requires OncePerTicket(log) && !Over(log, e.ticket)
    ensures OncePerTicket(log + [e])
    ensures forall t: nat :: Over(log + [e], t) <==> Over(log, t) || t == e.ticket
  {
    assert forall i | 0 <= i < |log| :: log[i] in log;
    assert e in log + [e];
    forall t: nat | Over(log, t)
      ensures Over(log + [e], t)
    {
      var x :| x in log && x.ticket == t;
      assert x in log + [e];
    }
  }

  /** The tickets below |lenders| are those held and those settled, each settled once and at its
      own lender. */
  ghost predicate Accounts(gauge: int, held: set<nat>, lenders: seq<nat>, log: seq<Settled>) {
    && gauge == |held|
    && OncePerTicket(log)
    && (forall t: nat :: t < |lenders| <==> t in held || Over(log, t))
    && (forall t | t in held :: !Over(log, t))
    && (forall e | e in log :: AtItsLender(lenders, e))
  }

  predicate AtItsLender(lenders: seq<nat>, e: Settled) {
    e.how.GivenBack? ==> e.ticket < |lenders| && e.how.pool == lenders[e.ticket]
  }

  lemma AccountsSettle(gauge: int, held: set<nat>, lenders: seq<nat>, log: seq<Settled>, e: Settled)
    requires Accounts(gauge, held, lenders, log) && e.ticket in held && AtItsLender(lenders, e)
    ensures Accounts(gauge - 1, held - {e.ticket}, lenders, log + [e])
  {
    SettleOnce(log, e);
  }

  lemma AccountsLend(gauge: int, held: set<nat>, lenders: seq<nat>, log: seq<Settled>, lender: nat)
    requires Accounts(gauge, held, lenders, log)
    ensures Accounts(gauge + 1, held + {|lenders|}, lenders + [lender], log)
  {
    assert |lenders| !in held && !Over(log, |lenders|);
    forall e | e in log
      ensures AtItsLender(lenders + [lender], e)
    {
      assert AtItsLender(lenders, e);
    }
  }

  class PGConnectionManager {
    const enabled: bool
    const maxRetries: nat
    var pool: Option<nat>
    var available: bool
    var reconnects: nat
    var errors: nat
    var gauge: int
    var sleptMs: nat
    var pools: nat
    // Accounting: the pool behind every ticket handed out, and how each borrow ended.
    var lenders: seq<nat>
    var log: seq<Settled>
    var committed: seq<nat>
    ghost var live: map<nat, PgConnection>

    /** Every ticket is either held by one live wrapper or settled once, with its own lender, and
        the gauge shows the live ones. */
    ghost predicate Valid() reads this {
      && Accounts(gauge, live.Keys, lenders, log)
      && (forall t | t in live :: t < |lenders| && live[t].mgr == this && live[t].ticket == t
                                  && live[t].pool == lenders[t])
      && (pool.Some? ==> pool.value < pools)
    }

    constructor (enabled: bool, maxRetries: nat)
      ensures Valid() && live == map[] && lenders == [] && log == [] && committed == []
      ensures pool == None && !available && pools == 0 && sleptMs == 0 && reconnects == 0 && errors == 0
      ensures this.enabled == enabled && this.maxRetries == maxRetries
    {
      this.enabled, this.maxRetries := enabled, maxRetries;
      pool, available, reconnects, errors, gauge, sleptMs, pools := None, false, 0, 0, 0, 0, 0;
      lenders, log, committed, live := [], [], [], map[];
    }

    /** There is a pool and nothing has failed on it since. */
    ghost predicate Usable() reads this`pool, this`available {
      pool.Some? && available
    }

    /** `_create_pool`: a new pool replaces the old one. */
    method CreatePool(made: bool) returns (ok: bool)
      requires Valid()
      modifies this`pool, this`available, this`pools
      ensures Valid() && ok == (enabled && made)
      ensures ok ==> pool == Some(old(pools)) && available && pools == old(pools) + 1
      ensures !ok ==> pool == old(pool) && !available && pools == old(pools)
    {
      if !enabled || !made {
        available := false;
        return false;
      }
      pool, pools, available := Some(pools), pools + 1, true;
      ok := true;
    }

    method EnsurePool(made: bool) returns (ok: bool)
      requires Valid()
      modifies this`pool, this`available, this`pools
      ensures Valid() && (ok ==> pool.Some?)
      ensures ok == (enabled && (old(Usable()) || made))
      ensures ok ==> pool == Some(if old(Usable()) then old(pool).value else old(pools)) && available
      ensures pools == old(pools) + if ok && !old(Usable()) then 1 else 0
    {
      if !enabled {
        return false;
      }
      if pool.Some? && available {
        return true;
      }
      ok := CreatePool(made);
    }

    /** A borrow whose ping failed ends at once, at the pool that lent it. */
    method Discard(lender: nat, takenBack: bool)
      requires Valid()
      modifies this`lenders, this`log
      ensures Valid() && live == old(live)
      ensures lenders == old(lenders) + [lender]
      ensures log == old(log) + [Settled(|old(lenders)|, if takenBack then GivenBack(lender, true) else ClosedDirectly)]
    {
      var e := Settled(|lenders|, if takenBack then GivenBack(lender, true) else ClosedDirectly);
      AccountsLend(gauge, live.Keys, lenders, log, lender);
      AccountsSettle(gauge + 1, live.Keys + {|lenders|}, lenders + [lender], log, e);
      assert live.Keys + {|lenders|} - {|lenders|} == live.Keys;
      lenders := lenders + [lender];
      log := log + [e];
    }

    /** A connection that answered its ping is wrapped and counted. */
    method Lend(lender: nat) returns (w: PgConnection)
      requires Valid()
      modifies this`lenders, this`gauge, this`live
      ensures Valid() && fresh(w) && w.mgr == this && w.Kept()
      ensures lenders == old(lenders) + [lender]
      ensures w.ticket == |old(lenders)| && w.pool == lender
      ensures live == old(live)[w.ticket := w] && gauge == old(gauge) + 1
    {
      var t := |lenders|;
      AccountsLend(gauge, live.Keys, lenders, log, lender);
      w := new PgConnection(this, t, lender);
      lenders := lenders + [lender];
      gauge := gauge + 1;
      live := live[t := w];
      assert live.Keys == old(live).Keys + {t};
    }

    /** A live borrow ends, at its lender or not at all. */
    method Settle(e: Settled)
      requires Valid() && e.ticket in live && AtItsLender(lenders, e)
      modifies this`log, this`gauge, this`live
      ensures Valid() && log == old(log) + [e] && gauge == old(gauge) - 1 && live == old(live) - {e.ticket}
    {
      AccountsSettle(gauge, live.Keys, lenders, log, e);
      log := log + [e];
      gauge := gauge - 1;
      live := live - {e.ticket};
      assert live.Keys == old(live).Keys - {e.ticket};
    }

    /** The wait before another attempt. */
    method Wait(retries: nat)
      requires Valid()
      modifies this`reconnects, this`available, this`sleptMs
      ensures Valid() && !available && reconnects == old(reconnects) + 1
      ensures sleptMs - Backoff(retries + 1) == old(sleptMs) - Backoff(retries)
    {
      reconnects := reconnects + 1;
      available := false;
      sleptMs := sleptMs + BASE_DELAY_MS * Power2(retries);
    }

    method GiveUp()
      requires Valid()
      modifies this`available
      ensures Valid() && !available
    {
      available := false;
    }

    /** Whether an attempt from the i-th on ends in a wrapper: each needs a usable pool or a new
        one, and an attempt that fails leaves no usable pool behind. */
    ghost predicate Lends(attempts: seq<Attempt>, i: nat, usable: bool)
      decreases |attempts| - i
    {
      && i < |attempts|
      && enabled
      && (usable || attempts[i].poolMade)
      && ((attempts[i].lent && attempts[i].answers) || Lends(attempts, i + 1, false))
    }

    /** How many connections the attempts from the i-th on take out of a pool. */
    ghost function Borrows(attempts: seq<Attempt>, i: nat, usable: bool): nat
      decreases |attempts| - i
    {
      if i >= |attempts| || !enabled || !(usable || attempts[i].poolMade) then 0
      else if attempts[i].lent && attempts[i].answers then 1
      else (if attempts[i].lent then 1 else 0) + Borrows(attempts, i + 1, false)
    }

    /** One pass of the loop: no pool, a wrapper, or a failure whose connection is settled. */
    method TryOnce(a: Attempt) returns (ready: bool, w: PgConnection?)
      requires Valid()
      modifies this`pool, this`available, this`pools, this`lenders, this`log, this`gauge, this`live, this`errors
      ensures Valid()
      ensures ready == (enabled && (old(Usable()) || a.poolMade))
      ensures w != null <==> ready && a.lent && a.answers
      ensures errors == old(errors) + if ready && w == null then 1 else 0
      // Another thread may have put a new pool in place, but the lender stays the one captured before.
      ensures ready && a.swapped && a.poolMade ==> pool == Some(pools - 1)
      ensures w == null ==> live == old(live) && gauge == old(gauge)
      ensures w != null ==> fresh(w) && w.mgr == this && w.Kept() && live == old(live)[w.ticket := w] && gauge == old(gauge) + 1
      ensures lenders == if ready && a.lent then old(lenders) + [if old(Usable()) then old(pool).value else old(pools)]
                         else old(lenders)
      ensures log == if ready && a.lent && !a.answers
                     then old(log) + [Settled(|old(lenders)|, if a.takenBack then GivenBack(lenders[|old(lenders)|], true) else ClosedDirectly)]
                     else old(log)
    {
      w := null;
      ready := EnsurePool(a.poolMade);
      if !ready {
        return;
      }
      var lender := pool.value;
      if a.swapped {
        var installed := CreatePool(a.poolMade);
      }
      if a.lent && a.answers {
        w := Lend(lender);
        return;
      }
      if a.lent {
        Discard(lender, a.takenBack);
      }
      errors := errors + 1;
    }

    /** `get_connection`: at most `maxRetries` retries, each after a doubled delay. A wrapper comes
        back exactly when some attempt lends an answering connection; it is the one new live one. */
    method GetConnection(attempts: seq<Attempt>) returns (w: PgConnection?)
      requires Valid() && |attempts| == maxRetries + 1
      modifies this`pool, this`available, this`pools, this`lenders, this`log, this`gauge, this`live, this`errors,
        this`reconnects, this`sleptMs
      ensures Valid()
      ensures w != null <==> Lends(attempts, 0, old(Usable()))
      ensures w == null ==> live == old(live) && gauge == old(gauge) && !available
      ensures w != null ==> fresh(w) && w.mgr == this && w.Kept() && live == old(live)[w.ticket := w] && gauge == old(gauge) + 1
      ensures |lenders| == |old(lenders)| + Borrows(attempts, 0, old(Usable()))
      ensures old(reconnects) <= reconnects <= old(reconnects) + maxRetries
      ensures sleptMs == old(sleptMs) + Backoff(reconnects - old(reconnects))
    {
      var retries := 0;
      ghost var usable := Usable();
      while true
        invariant 0 <= retries <= maxRetries
        invariant Valid() && live == old(live) && gauge == old(gauge)
        invariant reconnects == old(reconnects) + retries
        invariant sleptMs == old(sleptMs) + Backoff(retries)
        invariant |lenders| + Borrows(attempts, retries, Usable()) == |old(lenders)| + Borrows(attempts, 0, usable)
        invariant Lends(attempts, 0, usable) <==> Lends(attempts, retries, Usable())
        decreases maxRetries - retries
      {
        var ready;
        ready, w := TryOnce(attempts[retries]);
        if w != null {
          return;
        }
        if !ready || retries == maxRetries {
          break;
        }
        Wait(retries);
        retries := retries + 1;
      }
      GiveUp();
      w := null;
    }
  }

  class PgConnection {
    const mgr: PGConnectionManager
    const ticket: nat
    const pool: nat
    var returned: bool

    constructor (mgr: PGConnectionManager, ticket: nat, pool: nat)
      ensures this.mgr == mgr && this.ticket == ticket && this.pool == pool && !returned
    {
      this.mgr, this.ticket, this.pool, returned := mgr, ticket, pool, false;
    }

    ghost predicate Live() reads mgr {
      ticket in mgr.live && mgr.live[ticket] == this
    }

    /** A wrapper is live until it is released. */
    ghost predicate Kept() reads this, mgr {
      returned <==> !Live()
    }

    /** `_release`: the slot goes back to the lender, or the connection is closed; a second call
        does nothing. */
    method Release(discard: bool, takenBack: bool)
      requires mgr.Valid() && Kept()
      modifies this, mgr`log, mgr`gauge, mgr`live
      ensures mgr.Valid() && Kept() && returned
      ensures old(returned) ==> mgr.log == old(mgr.log) && mgr.gauge == old(mgr.gauge) && mgr.live == old(mgr.live)
      ensures !old(returned) ==>
                && mgr.log == old(mgr.log) + [Settled(ticket, if takenBack then GivenBack(pool, discard) else ClosedDirectly)]
                && mgr.gauge == old(mgr.gauge) - 1
                && mgr.live == old(mgr.live) - {ticket}
    {
      if returned {
        return;
      }
      returned := true;
      mgr.Settle(Settled(ticket, if takenBack then GivenBack(pool, discard) else ClosedDirectly));
    }

    /** Leaving the `with` block: commit exactly when the body did not raise, report a failed
        commit, discard the connection when commit or rollback failed, and settle it once. */
    method Finish(bodyRaised: bool, transactionEnds: bool, takenBack: bool) returns (raised: bool)
      requires mgr.Valid() && Kept()
      modifies this, mgr`log, mgr`gauge, mgr`live, mgr`committed
      ensures mgr.Valid() && Kept() && returned
      ensures raised <==> !old(returned) && !bodyRaised && !transactionEnds
      ensures old(returned) ==> mgr.log == old(mgr.log) && mgr.live == old(mgr.live)
      ensures !old(returned) ==>
                && mgr.log == old(mgr.log)
                     + [Settled(ticket, if takenBack then GivenBack(pool, !transactionEnds) else ClosedDirectly)]
                && mgr.live == old(mgr.live) - {ticket}
      ensures mgr.committed == if old(returned) || bodyRaised then old(mgr.committed) else old(mgr.committed) + [ticket]
    {
      raised := false;
      if returned {
        return;
      }
      if !bodyRaised {
        mgr.committed := mgr.committed + [ticket];
      }
      Release(!transactionEnds, takenBack);
      raised := !bodyRaised && !transactionEnds;
    }
  }

  /** When no wrapper is left, every borrow ever made was settled exactly once and the gauge is
      back at zero. */
  lemma AllSettled(m: PGConnectionManager, t: nat)
    requires m.Valid() && m.live == map[]
    ensures m.gauge == 0
    ensures t < |m.lenders| ==> exists i | 0 <= i < |m.log| ::
              m.log[i].ticket == t && forall k | 0 <= k < |m.log| && m.log[k].ticket == t :: k == i
  {
    if t < |m.lenders| {
      assert Over(m.log, t);
      var e :| e in m.log && e.ticket == t;
      var i :| 0 <= i < |m.log| && m.log[i] == e;
      assert forall k | 0 <= k < |m.log| && m.log[k].ticket == t :: k == i;
    }
  }
}
