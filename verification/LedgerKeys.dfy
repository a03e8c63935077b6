/** The idempotency keys of the ledger. `debit_if_funds` and `credit` hash the string
    `tenant:key`; jobs are debited under `job:<id>` and refunded under `refund:<id>`.
    The hash is taken to be collision free, so everything rests on the string. */
module LedgerKeys {

  datatype KeyKind = JobDebit | JobRefund

  function Word(k: KeyKind): string {
    match k
    case JobDebit => "job"
    case JobRefund => "refund"
  }

  /** What stands between the tenant and the job id in the hashed string. */
  function Sep(k: KeyKind): string {
    ":" + Word(k) + ":"
  }

  function IdempotencyKey(k: KeyKind, job: string): string {
    Word(k) + ":" + job
  }

  function Preimage(tenant: string, key: string): string {
    tenant + ":" + key
  }

  function JobPreimage(tenant: string, k: KeyKind, job: string): string {
    Preimage(tenant, IdempotencyKey(k, job))
  }

  predicate OccursAt(pat: string, s: string, i: nat) {
    i + |pat| <= |s| && s[i..i + |pat|] == pat
  }

  ghost predicate Occurs(pat: string, s: string) {
    exists i: nat :: OccursAt(pat, s, i)
  }

  /** No separator can be read inside the id, nor across its first colon. */
  ghost predicate Unambiguous(job: string) {
    !Occurs(Sep(JobDebit), ":" + job) && !Occurs(Sep(JobRefund), ":" + job)
  }

  ghost predicate ColonFree(s: string) { ':' !in s }

  lemma Regroup(a: string, b: string, c: string)
    ensures (a + b) + c == a + (b + c)
  {
  }

  /** The same string, cut before the separator and cut before its last colon. */
  lemma PreimageSplit(tenant: string, k: KeyKind, job: string)
    ensures JobPreimage(tenant, k, job) == tenant + Sep(k) + job
    ensures JobPreimage(tenant, k, job) == (tenant + (":" + Word(k))) + (":" + job)
  {
    var w := Word(k);
    Regroup(w, ":", job);
    Regroup(tenant + ":", w, ":" + job);
    Regroup(tenant, ":", w);
    Regroup(tenant + (":" + w), ":", job);
    Regroup(tenant, ":" + w, ":");
  }

  /** Within one tenant a row can only be hit by the key that made it, whatever the key. */
  lemma SameTenantInjective(tenant: string, key1: string, key2: string)
    requires Preimage(tenant, key1) == Preimage(tenant, key2)
    ensures key1 == key2
  {
    assert Preimage(tenant, key1)[|tenant| + 1..] == key1;
    assert Preimage(tenant, key2)[|tenant| + 1..] == key2;
  }

  lemma JobKeysDiffer(k1: KeyKind, j1: string, k2: KeyKind, j2: string)
    requires IdempotencyKey(k1, j1) == IdempotencyKey(k2, j2)
    ensures k1 == k2 && j1 == j2
  {
    assert IdempotencyKey(k1, j1)[0] == Word(k1)[0];
    assert IdempotencyKey(k2, j2)[0] == Word(k2)[0];
    assert IdempotencyKey(k1, j1)[|Word(k1)| + 1..] == j1;
    assert IdempotencyKey(k2, j2)[|Word(k2)| + 1..] == j2;
  }

  lemma SameLengthCollision(t1: string, k1: KeyKind, j1: string, t2: string, k2: KeyKind, j2: string)
    requires t1 + Sep(k1) + j1 == t2 + Sep(k2) + j2
    requires |j1| == |j2|
    ensures t1 == t2 && k1 == k2 && j1 == j2
  {
    var s := t1 + Sep(k1) + j1;
    var n := |s| - |j1|;
    assert s[n..] == j1 && s[n..] == j2;
    assert s[n - 2] == Sep(k1)[|Sep(k1)| - 2];
    assert s[n - 2] == (t2 + Sep(k2) + j2)[n - 2] == Sep(k2)[|Sep(k2)| - 2];
    assert k1 == k2;
    assert s[..|t1|] == t1 && s[..|t2|] == t2;
  }

  lemma SepColons(k: KeyKind, i: nat)
    requires i < |Sep(k)|
    ensures Sep(k)[i] == ':' <==> i == 0 || i == |Sep(k)| - 1
  {
  }

  lemma MiddleSlice(a: string, b: string, c: string)
    ensures (a + b + c)[|a|..|a| + |b|] == b
  {
  }

  lemma TailFromColon(t: string, k: KeyKind, j: string)
    ensures (t + Sep(k) + j)[|t| + |Sep(k)| - 1..] == ":" + j
  {
    var h := t + (":" + Word(k));
    Regroup(t, ":" + Word(k), ":");
    Regroup(h, ":", j);
    assert (h + (":" + j))[|h|..] == ":" + j;
  }

  /** Two different readings of one preimage: the longer id holds a separator. */
  lemma LongerIdIsAmbiguous(t1: string, k1: KeyKind, j1: string, t2: string, k2: KeyKind, j2: string)
    requires t1 + Sep(k1) + j1 == t2 + Sep(k2) + j2
    requires |j2| < |j1|
    ensures Occurs(Sep(k2), ":" + j1)
  {
    var s := t1 + Sep(k1) + j1;
    var q := |t2|;
    var p := |t1| + |Sep(k1)| - 1;
    TailFromColon(t1, k1, j1);
    MiddleSlice(t2, Sep(k2), j2);
    var cut := s[q..q + |Sep(k2)|];
    assert s[p] == s[p..][0] == ':';
    if q < p {
      assert s[p] == cut[p - q];
      SepColons(k2, p - q);
      assert false;
    }
    OccursInTail(s, p, q, Sep(k2));
  }

  lemma OccursInTail(s: string, p: nat, q: nat, pat: string)
    requires p <= q && q + |pat| <= |s| && s[q..q + |pat|] == pat
    ensures Occurs(pat, s[p..])
  {
    assert s[p..][q - p..q - p + |pat|] == s[q..q + |pat|];
    assert OccursAt(pat, s[p..], q - p);
  }

  /** Rows of different jobs, tenants or kinds are never shared when no id is ambiguous. */
  lemma PreimageInjective(t1: string, k1: KeyKind, j1: string, t2: string, k2: KeyKind, j2: string)
    requires Unambiguous(j1) && Unambiguous(j2)
    requires JobPreimage(t1, k1, j1) == JobPreimage(t2, k2, j2)
    ensures t1 == t2 && k1 == k2 && j1 == j2
  {
    PreimageSplit(t1, k1, j1);
    PreimageSplit(t2, k2, j2);
    if |j2| < |j1| {
      LongerIdIsAmbiguous(t1, k1, j1, t2, k2, j2);
      assert false;
    } else if |j1| < |j2| {
      LongerIdIsAmbiguous(t2, k2, j2, t1, k1, j1);
      assert false;
    } else {
      SameLengthCollision(t1, k1, j1, t2, k2, j2);
    }
  }

  lemma ColonFreeIsUnambiguous(job: string)
    requires ColonFree(job)
    ensures Unambiguous(job)
  {
    if Occurs(Sep(JobDebit), ":" + job) {
      OccurrenceHasColon(JobDebit, job);
      assert false;
    }
    if Occurs(Sep(JobRefund), ":" + job) {
      OccurrenceHasColon(JobRefund, job);
      assert false;
    }
  }

  lemma OccurrenceHasColon(k: KeyKind, job: string)
    requires Occurs(Sep(k), ":" + job)
    ensures ':' in job
  {
    var i: nat :| OccursAt(Sep(k), ":" + job, i);
    var n := |Sep(k)| - 1;
    SepColons(k, n);
    assert (":" + job)[i + n] == (":" + job)[i..i + |Sep(k)|][n];
    assert (":" + job)[i + n] == job[i + n - 1];
  }

  ghost predicate SharesRowWithShorterId(tenant: string, k: KeyKind, job: string) {
    exists t2: string, k2: KeyKind, j2: string ::
      |j2| < |job| && JobPreimage(t2, k2, j2) == JobPreimage(tenant, k, job)
  }

  lemma CutAt(pat: string, s: string, i: nat)
    requires OccursAt(pat, s, i)
    ensures s == s[..i] + pat + s[i + |pat|..]
  {
  }

  lemma OccurrenceGivesCollision(tenant: string, k: KeyKind, job: string, k2: KeyKind, i: nat)
    requires OccursAt(Sep(k2), ":" + job, i)
    ensures SharesRowWithShorterId(tenant, k, job)
  {
    var head := tenant + (":" + Word(k));
    var tail := ":" + job;
    var sep := Sep(k2);
    var before, j2 := tail[..i], tail[i + |sep|..];
    CutAt(sep, tail, i);
    PreimageSplit(tenant, k, job);
    PreimageSplit(head + before, k2, j2);
    Regroup(before, sep, j2);
    Regroup(head, before, sep + j2);
    Regroup(head + before, sep, j2);
    assert JobPreimage(head + before, k2, j2) == JobPreimage(tenant, k, job);
  }

  /** Exactly the ambiguous ids can collide, for every tenant and either kind of key. */
  lemma CollisionIffAmbiguous(tenant: string, k: KeyKind, job: string)
    ensures SharesRowWithShorterId(tenant, k, job) <==> !Unambiguous(job)
  {
    if SharesRowWithShorterId(tenant, k, job) {
      var t2: string, k2: KeyKind, j2: string :|
        |j2| < |job| && JobPreimage(t2, k2, j2) == JobPreimage(tenant, k, job);
      PreimageSplit(tenant, k, job);
      PreimageSplit(t2, k2, j2);
      LongerIdIsAmbiguous(tenant, k, job, t2, k2, j2);
    }
    if !Unambiguous(job) {
      var k2 := if Occurs(Sep(JobDebit), ":" + job) then JobDebit else JobRefund;
      var i: nat :| OccursAt(Sep(k2), ":" + job, i);
      OccurrenceGivesCollision(tenant, k, job, k2, i);
    }
  }
}
