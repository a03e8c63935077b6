/** The text of the `error` column: how markers are printed and read back, and why the
    protocol may treat the column as the values of `Jobs.ErrorField`. */
module Markers {
  import opened Basics
  import opened Jobs

  const UNIT := 100_000_000

  // ----- decimal numbers

  predicate IsDigit(c: char) { '0' <= c <= '9' }

  predicate AllDigits(s: string) { forall c | c in s :: IsDigit(c) }

  function DigitChar(d: nat): (c: char)
    requires d < 10
    ensures IsDigit(c) && DigitValue(c) == d
  {
    '0' + d as char
  }

  function DigitValue(c: char): nat
    requires IsDigit(c)
  {
    (c - '0') as nat
  }

  function Decimal(n: nat): (s: string)
    ensures s != [] && AllDigits(s)
  {
    if n < 10 then [DigitChar(n)] else Decimal(n / 10) + [DigitChar(n % 10)]
  }

  /** Exactly `width` digits, zero-padded on the left. */
  function Padded(n: nat, width: nat): (s: string)
    ensures |s| == width && AllDigits(s)
  {
    if width == 0 then [] else Padded(n / 10, width - 1) + [DigitChar(n % 10)]
  }

  function Value(s: string): nat
    requires AllDigits(s)
  {
    if s == [] then 0 else Value(s[..|s| - 1]) * 10 + DigitValue(s[|s| - 1])
  }

  function Power10(k: nat): (p: nat)
    ensures p > 0
  {
    if k == 0 then 1 else 10 * Power10(k - 1)
  }

  lemma {:induction false} ValueOfDecimal(n: nat)
    ensures Value(Decimal(n)) == n
  {
    if n < 10 {
      assert Decimal(n)[..0] == [];
    } else {
      ValueOfDecimal(n / 10);
      assert Decimal(n)[..|Decimal(n)| - 1] == Decimal(n / 10);
    }
  }

  lemma TenthOf(n: nat, p: nat)
    requires n < 10 * p
    ensures n / 10 < p
  {
  }

  lemma {:induction false} ValueOfPadded(n: nat, width: nat)
    requires n < Power10(width)
    ensures Value(Padded(n, width)) == n
  {
    if width > 0 {
      TenthOf(n, Power10(width - 1));
      ValueOfPadded(n / 10, width - 1);
      assert Padded(n, width)[..width - 1] == Padded(n / 10, width - 1);
    }
  }

  // ----- the refund marker

  const REFUND_PREFIX := "refund_pending:debit_exists:"

  /** An amount printed with eight decimals. */
  function FormatAmount(units: nat): string {
    Decimal(units / UNIT) + "." + Padded(units % UNIT, 8)
  }

  /** A plain decimal with eight fraction digits, read as units of 1e-8. */
  function ParseAmount(s: string): Option<nat> {
    var dot := |s| - 9;
    if dot < 1 || s[dot] != '.' || !AllDigits(s[..dot]) || !AllDigits(s[dot + 1..]) then None
    else Some(Value(s[..dot]) * UNIT + Value(s[dot + 1..]))
  }

  function RefundMarker(units: nat): string { REFUND_PREFIX + FormatAmount(units) }

  predicate HasRefundPrefix(s: string) { REFUND_PREFIX <= s }

  function ParseRefundAmount(marker: string): Option<nat> {
    if !HasRefundPrefix(marker) then None else ParseAmount(marker[|REFUND_PREFIX|..])
  }

  lemma Power10Of8()
    ensures Power10(8) == UNIT
  {
    assert Power10(4) == 10000;
    assert Power10(8) == 10 * (10 * (10 * (10 * Power10(4))));
  }

  lemma AmountRoundTrip(units: nat)
    ensures ParseAmount(FormatAmount(units)) == Some(units)
  {
    var whole, frac := Decimal(units / UNIT), Padded(units % UNIT, 8);
    var s := FormatAmount(units);
    var dot := |s| - 9;
    assert s[..dot] == whole && s[dot + 1..] == frac && s[dot] == '.';
    Power10Of8();
    ValueOfDecimal(units / UNIT);
    ValueOfPadded(units % UNIT, 8);
  }

  /** Whatever amount the worker leaves in the marker, the sweeper reads back that amount. */
  lemma RefundMarkerRoundTrip(units: nat)
    ensures ParseRefundAmount(RefundMarker(units)) == Some(units)
  {
    AmountRoundTrip(units);
    assert RefundMarker(units)[|REFUND_PREFIX|..] == FormatAmount(units);
  }

  // ----- the billing marker

  const EXEC_NEEDLE := ":exec="

  function StatusName(s: Status): string {
    match s
    case Queued => "queued"
    case Running => "running"
    case Completed => "completed"
    case Failed => "failed"
    case Timeout => "timeout"
    case Cancelled => "cancelled"
    case Error => "error"
    case Stopped => "stopped"
    case Destroyed => "destroyed"
    case BillingPending => "billing_pending"
  }

  function FaultName(f: BillingFault): string {
    match f
    case PgError => "pg_error"
    case OtherError => "error"
    case FundsShort => "no_funds"
  }

  /** `_billing_pending_error`. */
  function BillingPendingError(billing: string, exec: Option<Status>): string {
    var marker := "billing:" + billing;
    if exec == Some(Timeout) || exec == Some(Failed)
    then marker + EXEC_NEEDLE + StatusName(exec.value)
    else marker
  }

  predicate At(s: string, needle: string, k: int) {
    0 <= k && k + |needle| <= |s| && s[k..k + |needle|] == needle
  }

  /** The last position at or before `i` where the needle stands, or -1. */
  function RFind(s: string, needle: string, i: int): (r: int)
    ensures r == -1 || (r <= i && At(s, needle, r))
    ensures forall k | r < k <= i :: !At(s, needle, k)
    decreases i + 1
  {
    if i < 0 then -1
    else if At(s, needle, i) then i
    else RFind(s, needle, i - 1)
  }

  /** `_billing_exec_status`: what follows the last `:exec=`, unless that is empty. */
  function BillingExecStatus(error: string): Option<string> {
    var idx := RFind(error, EXEC_NEEDLE, |error| - |EXEC_NEEDLE|);
    if idx == -1 || idx + |EXEC_NEEDLE| == |error| then None
    else Some(error[idx + |EXEC_NEEDLE|..])
  }

  lemma FoundHasEquals(s: string, k: int)
    requires At(s, EXEC_NEEDLE, k)
    ensures k + 5 < |s| && s[k + 5] == '='
  {
    assert s[k..k + |EXEC_NEEDLE|][5] == '=';
  }

  lemma NoEqualsNoExec(error: string)
    requires '=' !in error
    ensures BillingExecStatus(error) == None
  {
    var idx := RFind(error, EXEC_NEEDLE, |error| - |EXEC_NEEDLE|);
    if idx >= 0 {
      FoundHasEquals(error, idx);
      assert false;
    }
  }

  lemma TailIndex(a: string, b: string, c: string, k: int)
    requires |a| + |b| <= k < |a| + |b| + |c|
    ensures (a + b + c)[k] == c[k - |a| - |b|] && (a + b + c)[k] in c
  {
  }

  lemma ExecAfterNeedle(marker: string, name: string)
    requires '=' !in marker && '=' !in name && name != ""
    ensures BillingExecStatus(marker + EXEC_NEEDLE + name) == Some(name)
  {
    var s := marker + EXEC_NEEDLE + name;
    var m := |marker|;
    assert s[m..m + |EXEC_NEEDLE|] == EXEC_NEEDLE;
    assert At(s, EXEC_NEEDLE, m);
    var idx := RFind(s, EXEC_NEEDLE, |s| - |EXEC_NEEDLE|);
    FoundHasEquals(s, idx);
    if idx > m {
      TailIndex(marker, EXEC_NEEDLE, name, idx + 5);
      assert false;
    }
    assert s[m + |EXEC_NEEDLE|..] == name;
  }

  lemma NamesArePlain(s: Status, f: BillingFault)
    ensures '=' !in StatusName(s) && '=' !in "billing:" + FaultName(f) && StatusName(s) != ""
  {
  }

  /** Decoding a billing marker gives back timeout or failed, and nothing for the rest. */
  lemma BillingMarkerRoundTrip(f: BillingFault, exec: Option<Status>)
    ensures BillingExecStatus(BillingPendingError(FaultName(f), exec))
         == if exec == Some(Timeout) || exec == Some(Failed) then Some(StatusName(exec.value)) else None
  {
    var marker := "billing:" + FaultName(f);
    NamesArePlain(if exec.Some? then exec.value else Queued, f);
    if exec == Some(Timeout) || exec == Some(Failed) {
      ExecAfterNeedle(marker, StatusName(exec.value));
    } else {
      NoEqualsNoExec(marker);
    }
  }

  /** Statuses and billing faults are told apart by their names. */
  lemma NamesDiffer(s: Status, t: Status, f: BillingFault, g: BillingFault)
    ensures StatusName(s) == StatusName(t) ==> s == t
    ensures FaultName(f) == FaultName(g) ==> f == g
  {
  }

  lemma MarkersSpelled()
    ensures BillingPendingError(FaultName(PgError), Some(Timeout)) == "billing:pg_error:exec=timeout"
    ensures BillingPendingError(FaultName(OtherError), Some(Failed)) == "billing:error:exec=failed"
    ensures BillingPendingError(FaultName(FundsShort), Some(Completed)) == "billing:no_funds"
  {
  }

  lemma Zeros(width: nat)
    requires width == 7
    ensures Padded(0, width) == "0000000"
  {
    assert Padded(0, 3) == "000";
    assert Padded(0, 5) == "00000";
  }

  /** The smallest amount, and how it stands in a marker. */
  lemma AmountsSpelled()
    ensures FormatAmount(1) == "0.00000001"
    ensures RefundMarker(1) == "refund_pending:debit_exists:" + "0.00000001"
  {
    Zeros(7);
    assert Padded(1, 8) == Padded(0, 7) + [DigitChar(1)];
  }

  // ----- the column

  function ErrorText(e: ErrorField): string {
    match e
    case NoError => ""
    case FreeText(text) => text
    case Billing(f, exec) => BillingPendingError(FaultName(f), exec)
    case BillingMismatch => "billing:mismatch"
    case RefundPending(units) => RefundMarker(units)
  }

  lemma FormatHasNoEquals(units: nat)
    ensures '=' !in RefundMarker(units)
  {
    assert forall c | c in Decimal(units / UNIT) :: IsDigit(c);
    assert forall c | c in Padded(units % UNIT, 8) :: IsDigit(c);
  }

  /** The string functions of the worker agree with the typed column on every marker: what is
      read as a refund amount, and what is read as an execution status. A text from elsewhere is
      read as neither unless it spells the beginning of a refund marker or the needle itself. */
  lemma ColumnDecodes(e: ErrorField)
    ensures !e.FreeText? ==> ParseRefundAmount(ErrorText(e)) == if e.RefundPending? then Some(e.amount) else None
    ensures !e.FreeText? ==> (HasRefundPrefix(ErrorText(e)) <==> e.RefundPending?)
    ensures e.Billing? && e == PendingMarker(e.fault, e.exec) ==>
              BillingExecStatus(ErrorText(e))
              == if ExecOf(e).Some? then Some(StatusName(ExecOf(e).value)) else None
    ensures !e.Billing? && !e.FreeText? ==> BillingExecStatus(ErrorText(e)) == None
    ensures e.FreeText? && !HasRefundPrefix(e.text) ==> ParseRefundAmount(ErrorText(e)) == None
    ensures e.FreeText? && (forall k: int :: !At(e.text, EXEC_NEEDLE, k)) ==> BillingExecStatus(ErrorText(e)) == None
  {
    match e
    case NoError =>
    case FreeText(text) =>
    case Billing(f, exec) =>
      BillingMarkerRoundTrip(f, exec);
      assert ErrorText(e)[0] == 'b' && REFUND_PREFIX[0] == 'r';
    case BillingMismatch =>
      NoEqualsNoExec("billing:mismatch");
      assert ErrorText(e)[0] == 'b' && REFUND_PREFIX[0] == 'r';
    case RefundPending(units) =>
      RefundMarkerRoundTrip(units);
      FormatHasNoEquals(units);
      NoEqualsNoExec(RefundMarker(units));
  }
}
