/** payroll-wallet-incident-repair.ts: a guarded one-off correction of a wallet whose ledger has upward gaps. */
module IncidentRepair {
  import opened Prelude
  import opened Records
  import opened IntegrityScanner

  const INCIDENT_ID := "PAYROLL-WALLET-ATOMICITY-2026-09-23-001"

  datatype ExpectedEntry = ExpectedEntry(createdAt: int, amount: int, before: int, after: int, referenceHash: string)

  datatype Profile = Profile(
    identityHash: string, currency: string, purpose: string, balance: int, reserved: int, legitimateCredits: int, legitimateDebits: int,
    unsupported: int, correctedBalance: int, walletUpdatedAt: int, entries: seq<ExpectedEntry>)

  /** The incident wallet with its ledger in order and the counts the inspection asks for. */
  datatype Incident = Incident(
    currency: string, purpose: string, balance: int, reserved: int, updatedAt: int, rows: seq<Entry>,
    settlements: nat, disbursements: nat, fundingAttempts: nat, audits: seq<nat>)

  datatype Reason =
    | CURRENCY_CHANGED | WALLET_PURPOSE_CHANGED | BALANCE_CHANGED | RESERVED_BALANCE_CHANGED | WALLET_UPDATED
    | LEDGER_COUNT_CHANGED | CREDIT_TOTAL_CHANGED | DEBIT_TOTAL_CHANGED | OPENING_BALANCE_CHANGED
    | EVIDENCE_FINGERPRINT_CHANGED | SETTLEMENT_PRESENT | DISBURSEMENT_PRESENT | FUNDING_ATTEMPT_PRESENT
    | UNSUPPORTED_AMOUNT_CHANGED | CONFLICTING_REPAIR_EVIDENCE | INCIDENT_WALLET_NOT_FOUND

  datatype Inspection = AlreadyApplied | NotSafe(reasons: seq<Reason>) | Safe

  // ----- evidence -----

  /** One row as it enters the evidence digest; `short` is the shortened hash of the transfer reference. */
  datatype Evidence = Evidence(entry: ExpectedEntry, kind: string, direction: Direction)

  function EvidenceOf(e: Entry, short: string -> string): Evidence {
    Evidence(ExpectedEntry(e.createdAt, e.amount, e.before, e.after, short(if e.transferReference.Some? then e.transferReference.value else "")),
             e.kind, e.direction)
  }

  /** The digests agree; the hash is taken to be injective, so the digested texts are compared instead. */
  predicate EvidenceMatches(rows: seq<Entry>, entries: seq<ExpectedEntry>, short: string -> string) {
    |rows| == |entries| && forall k :: 0 <= k < |rows| ==> EvidenceOf(rows[k], short) == Evidence(entries[k], "FUNDING", CREDIT)
  }

  predicate IsIncidentCorrection(e: Entry) {
    e.kind == CORRECTION_KIND && e.sourceType == Some(CORRECTION_SOURCE) && e.sourceId == Some(INCIDENT_ID)
  }

  function CorrectionCount(): Entry -> int {
    (e: Entry) => if IsIncidentCorrection(e) then 1 else 0
  }

  function FindCorrection(rows: seq<Entry>): (r: Option<nat>)
    ensures r.Some? ==> r.value < |rows| && IsIncidentCorrection(rows[r.value])
    ensures r.None? ==> forall k :: 0 <= k < |rows| ==> !IsIncidentCorrection(rows[k])
  {
    if rows == [] then None
    else
      match FindCorrection(rows[..|rows| - 1])
      case Some(k) => Some(k)
      case None => if IsIncidentCorrection(rows[|rows| - 1]) then Some(|rows| - 1) else None
  }

  function FundingAmount(): Entry -> int {
    (e: Entry) => if e.kind == "FUNDING" && e.direction == CREDIT then e.amount else 0
  }

  function FundingCount(): Entry -> int {
    (e: Entry) => if e.kind == "FUNDING" && e.direction == CREDIT then 1 else 0
  }

  function DirectDebit(): Entry -> int {
    (e: Entry) => if e.direction == DEBIT then e.amount else 0
  }

  // ----- inspection -----

  ghost predicate CorrectlyApplied(x: Incident, p: Profile, k: nat)
    requires k < |x.rows|
  {
    && x.rows[k].direction == ADJUSTMENT && x.rows[k].amount == p.unsupported
    && x.balance == p.correctedBalance && x.reserved == p.reserved && |AuditsOf(x.audits, x.rows[k].id)| == 1
  }

  function AuditsOf(audits: seq<nat>, id: nat): seq<nat> {
    if audits == [] then []
    else AuditsOf(audits[..|audits| - 1], id) + (if audits[|audits| - 1] == id then [id] else [])
  }

  /** What each reason reports. */
  ghost predicate Changed(x: Incident, p: Profile, short: string -> string, reason: Reason) {
    match reason
    case CURRENCY_CHANGED => x.currency != p.currency
    case WALLET_PURPOSE_CHANGED => x.purpose != p.purpose
    case BALANCE_CHANGED => x.balance != p.balance
    case RESERVED_BALANCE_CHANGED => x.reserved != p.reserved
    case WALLET_UPDATED => x.updatedAt != p.walletUpdatedAt
    case LEDGER_COUNT_CHANGED => |x.rows| != |p.entries| || Tally(x.rows, FundingCount()) != |p.entries|
    case CREDIT_TOTAL_CHANGED => Tally(x.rows, FundingAmount()) != p.legitimateCredits
    case DEBIT_TOTAL_CHANGED => Tally(x.rows, DirectDebit()) != p.legitimateDebits
    case OPENING_BALANCE_CHANGED => x.rows == [] || x.rows[0].before != 0
    case EVIDENCE_FINGERPRINT_CHANGED => !EvidenceMatches(x.rows, p.entries, short)
    case SETTLEMENT_PRESENT => x.settlements != 0
    case DISBURSEMENT_PRESENT => x.disbursements != 0
    case FUNDING_ATTEMPT_PRESENT => x.fundingAttempts != 0
    case UNSUPPORTED_AMOUNT_CHANGED => x.balance - (Tally(x.rows, FundingAmount()) - Tally(x.rows, DirectDebit())) != p.unsupported
    case CONFLICTING_REPAIR_EVIDENCE => false
    case INCIDENT_WALLET_NOT_FOUND => false
  }

  /** The wallet is as the incident recorded it: no reason applies. */
  ghost predicate Unchanged(x: Incident, p: Profile, short: string -> string) {
    forall reason :: !Changed(x, p, short, reason)
  }

  lemma UnchangedColumns(x: Incident, p: Profile, short: string -> string)
    requires Unchanged(x, p, short)
    ensures x.currency == p.currency && x.balance == p.balance && x.reserved == p.reserved && x.settlements == 0
  {
    assert !Changed(x, p, short, CURRENCY_CHANGED) && !Changed(x, p, short, BALANCE_CHANGED);
    assert !Changed(x, p, short, RESERVED_BALANCE_CHANGED) && !Changed(x, p, short, SETTLEMENT_PRESENT);
  }

  lemma UnchangedLedger(x: Incident, p: Profile, short: string -> string)
    requires Unchanged(x, p, short)
    ensures EvidenceMatches(x.rows, p.entries, short)
    ensures Tally(x.rows, FundingAmount()) == p.legitimateCredits && Tally(x.rows, DirectDebit()) == p.legitimateDebits
  {
    assert !Changed(x, p, short, EVIDENCE_FINGERPRINT_CHANGED);
    assert !Changed(x, p, short, CREDIT_TOTAL_CHANGED) && !Changed(x, p, short, DEBIT_TOTAL_CHANGED);
  }

  datatype Topic = Columns | Ledger | Activities

  function TopicOf(reason: Reason): Topic {
    match reason
    case CURRENCY_CHANGED => Columns
    case WALLET_PURPOSE_CHANGED => Columns
    case BALANCE_CHANGED => Columns
    case RESERVED_BALANCE_CHANGED => Columns
    case WALLET_UPDATED => Columns
    case SETTLEMENT_PRESENT => Activities
    case DISBURSEMENT_PRESENT => Activities
    case FUNDING_ATTEMPT_PRESENT => Activities
    case UNSUPPORTED_AMOUNT_CHANGED => Activities
    case _ => Ledger
  }

  method ColumnReasons(x: Incident, p: Profile, short: string -> string) returns (reasons: seq<Reason>)
    ensures forall reason :: reason in reasons <==> TopicOf(reason) == Columns && Changed(x, p, short, reason)
  {
    reasons := Push([], x.currency != p.currency, CURRENCY_CHANGED);
    reasons := Push(reasons, x.purpose != p.purpose, WALLET_PURPOSE_CHANGED);
    reasons := Push(reasons, x.balance != p.balance, BALANCE_CHANGED);
    reasons := Push(reasons, x.reserved != p.reserved, RESERVED_BALANCE_CHANGED);
    reasons := Push(reasons, x.updatedAt != p.walletUpdatedAt, WALLET_UPDATED);
  }

  method LedgerReasons(x: Incident, p: Profile, short: string -> string) returns (reasons: seq<Reason>)
    ensures forall reason :: reason in reasons <==> TopicOf(reason) == Ledger && Changed(x, p, short, reason)
  {
    reasons := Push([], |x.rows| != |p.entries| || Tally(x.rows, FundingCount()) != |p.entries|, LEDGER_COUNT_CHANGED);
    reasons := Push(reasons, Tally(x.rows, FundingAmount()) != p.legitimateCredits, CREDIT_TOTAL_CHANGED);
    reasons := Push(reasons, Tally(x.rows, DirectDebit()) != p.legitimateDebits, DEBIT_TOTAL_CHANGED);
    reasons := Push(reasons, x.rows == [] || x.rows[0].before != 0, OPENING_BALANCE_CHANGED);
    reasons := Push(reasons, !EvidenceMatches(x.rows, p.entries, short), EVIDENCE_FINGERPRINT_CHANGED);
  }

  method ActivityReasons(x: Incident, p: Profile, short: string -> string) returns (reasons: seq<Reason>)
    ensures forall reason :: reason in reasons <==> TopicOf(reason) == Activities && Changed(x, p, short, reason)
  {
    reasons := Push([], x.settlements != 0, SETTLEMENT_PRESENT);
    reasons := Push(reasons, x.disbursements != 0, DISBURSEMENT_PRESENT);
    reasons := Push(reasons, x.fundingAttempts != 0, FUNDING_ATTEMPT_PRESENT);
    var corrected := Tally(x.rows, FundingAmount()) - Tally(x.rows, DirectDebit());
    reasons := Push(reasons, x.balance - corrected != p.unsupported, UNSUPPORTED_AMOUNT_CHANGED);
  }

  /** Collects a reason for every changed fact, and no other. */
  method CollectReasons(x: Incident, p: Profile, short: string -> string) returns (reasons: seq<Reason>)
    ensures forall reason :: reason in reasons <==> Changed(x, p, short, reason)
  {
    var columns := ColumnReasons(x, p, short);
    var ledger := LedgerReasons(x, p, short);
    var activities := ActivityReasons(x, p, short);
    reasons := columns + ledger + activities;
  }

  /** Safe means that nothing changed and nothing was repaired before; otherwise the reasons say exactly what did. */
  method InspectWallet(x: Incident, p: Profile, short: string -> string) returns (r: Inspection)
    ensures r == Safe <==> FindCorrection(x.rows).None? && Unchanged(x, p, short)
    ensures r == AlreadyApplied <==> FindCorrection(x.rows).Some? && CorrectlyApplied(x, p, FindCorrection(x.rows).value)
    ensures r.NotSafe? && FindCorrection(x.rows).None? ==> forall reason :: reason in r.reasons <==> Changed(x, p, short, reason)
    ensures r.NotSafe? && FindCorrection(x.rows).Some? ==> r.reasons == [CONFLICTING_REPAIR_EVIDENCE]
  {
    var correction := FindCorrection(x.rows);
    if correction.Some? {
      var row := x.rows[correction.value];
      var valid := row.direction == ADJUSTMENT && row.amount == p.unsupported && x.balance == p.correctedBalance
                   && x.reserved == p.reserved && |AuditsOf(x.audits, row.id)| == 1;
      return if valid then AlreadyApplied else NotSafe([CONFLICTING_REPAIR_EVIDENCE]);
    }
    var reasons := CollectReasons(x, p, short);
    r := if reasons == [] then Safe else NotSafe(reasons);
    if reasons != [] { assert Changed(x, p, short, reasons[0]); }
  }

  // ----- locating the wallet -----

  /** A wallet and the text its fingerprint is taken from. */
  datatype Listed = Listed(identity: string, x: Incident)

  /** The first wallet whose fingerprint is the profile's. */
  ghost predicate LocatedAt(wallets: seq<Listed>, p: Profile, short: string -> string, at: Option<nat>) {
    match at
    case None => forall k :: 0 <= k < |wallets| ==> short(wallets[k].identity) != p.identityHash
    case Some(n) => n < |wallets| && short(wallets[n].identity) == p.identityHash
                    && forall k :: 0 <= k < n ==> short(wallets[k].identity) != p.identityHash
  }

  method LocateWallet(wallets: seq<Listed>, p: Profile, short: string -> string) returns (at: Option<nat>)
    ensures LocatedAt(wallets, p, short, at)
  {
    var n := 0;
    while n < |wallets|
      invariant 0 <= n <= |wallets| && forall k :: 0 <= k < n ==> short(wallets[k].identity) != p.identityHash
    {
      if short(wallets[n].identity) == p.identityHash { return Some(n); }
      n := n + 1;
    }
    return None;
  }

  /** The wallet is exactly as the incident recorded it and was not repaired before. */
  ghost predicate Repairable(x: Incident, p: Profile, short: string -> string) {
    FindCorrection(x.rows).None? && Unchanged(x, p, short)
  }

  ghost predicate AlreadyRepaired(x: Incident, p: Profile) {
    FindCorrection(x.rows).Some? && CorrectlyApplied(x, p, FindCorrection(x.rows).value)
  }

  /** The inspection of whichever wallet carries the profile's fingerprint. */
  method InspectPayrollWalletIncident(wallets: seq<Listed>, p: Profile, short: string -> string) returns (at: Option<nat>, r: Inspection)
    ensures LocatedAt(wallets, p, short, at)
    ensures r == Safe <==> at.Some? && Repairable(wallets[at.value].x, p, short)
    ensures r == AlreadyApplied <==> at.Some? && AlreadyRepaired(wallets[at.value].x, p)
    ensures at.None? ==> r == NotSafe([INCIDENT_WALLET_NOT_FOUND])
    ensures r.NotSafe? && at.Some? && FindCorrection(wallets[at.value].x.rows).None? ==>
      forall reason :: reason in r.reasons <==> Changed(wallets[at.value].x, p, short, reason)
    ensures r.NotSafe? && at.Some? && FindCorrection(wallets[at.value].x.rows).Some? ==> r.reasons == [CONFLICTING_REPAIR_EVIDENCE]
  {
    at := LocateWallet(wallets, p, short);
    if at.None? { return at, NotSafe([INCIDENT_WALLET_NOT_FOUND]); }
    r := InspectWallet(wallets[at.value].x, p, short);
  }

  // ----- execution -----

  function CorrectionRow(x: Incident, p: Profile, id: nat, createdAt: int): Entry {
    var wallet := if x.rows == [] then 0 else x.rows[0].wallet;
    var org := if x.rows == [] then "" else x.rows[0].org;
    Entry(id, org, wallet, CORRECTION_KIND, ADJUSTMENT, p.unsupported, p.balance, p.correctedBalance,
          "FIX-" + INCIDENT_ID, None, Some(CORRECTION_SOURCE), Some(INCIDENT_ID), createdAt, None)
  }

  /** The wallet after the repair transaction. */
  function Repaired(x: Incident, p: Profile, id: nat, now: int): Incident {
    x.(balance := p.correctedBalance, updatedAt := now, rows := x.rows + [CorrectionRow(x, p, id, now)], audits := x.audits + [id])
  }

  datatype Answer = Applied | AlreadyDone | Refused(reasons: seq<Reason>) | ConfirmationMismatch

  class IncidentDesk {
    var wallets: seq<Listed>

    constructor (initial: seq<Listed>)
      ensures wallets == initial
    {
      wallets := initial;
    }

    /** Repairs the located wallet when the caller confirmed the incident and its evidence and the inspection finds
        exactly the recorded incident; changes nothing in every other case, and no other wallet ever. */
    method ExecutePayrollWalletIncidentRepair(incidentId: string, evidenceDigest: string, p: Profile, digestOf: Profile -> string,
                                              short: string -> string, id: nat, now: int) returns (answer: Answer, ghost at: Option<nat>)
      modifies this
      ensures LocatedAt(old(wallets), p, short, at)
      ensures answer == ConfirmationMismatch <==> incidentId != INCIDENT_ID || evidenceDigest != digestOf(p)
      ensures answer == Applied <==> answer != ConfirmationMismatch && at.Some? && Repairable(old(wallets)[at.value].x, p, short)
      ensures answer == AlreadyDone <==> answer != ConfirmationMismatch && at.Some? && AlreadyRepaired(old(wallets)[at.value].x, p)
      ensures wallets == if answer == Applied && at.Some? && at.value < |old(wallets)|
                         then old(wallets)[at.value := old(wallets)[at.value].(x := Repaired(old(wallets)[at.value].x, p, id, now))]
                         else old(wallets)
    {
      if incidentId != INCIDENT_ID || evidenceDigest != digestOf(p) {
        at := LocateWallet(wallets, p, short);
        return ConfirmationMismatch, at;
      }
      var found, inspection := InspectPayrollWalletIncident(wallets, p, short);
      at := found;
      match inspection {
        case AlreadyApplied => answer := AlreadyDone;
        case NotSafe(reasons) => answer := Refused(reasons);
        case Safe =>
          var x := wallets[found.value].x;
          var row := CorrectionRow(x, p, id, now);
          x := x.(balance := p.correctedBalance, updatedAt := now);
          x := x.(rows := x.rows + [row]);
          x := x.(audits := x.audits + [id]);
          wallets := wallets[found.value := wallets[found.value].(x := x)];
          answer := Applied;
      }
    }
  }

  // ----- the repair is applied once -----

  datatype Event =
    | Execute(p: Profile, id: nat, now: int)
    | Activity(row: Entry, balance: int, reserved: int, updatedAt: int)

  /** Repair attempts under any profiles, interleaved with ordinary wallet activity. */
  ghost function After(x: Incident, events: seq<Event>, short: string -> string): Incident {
    if events == [] then x
    else
      var y := After(x, events[..|events| - 1], short);
      match events[|events| - 1]
      case Execute(p, id, now) => if Repairable(y, p, short) then Repaired(y, p, id, now) else y
      case Activity(row, balance, reserved, updatedAt) =>
        if IsIncidentCorrection(row) then y
        else y.(rows := y.rows + [row], balance := balance, reserved := reserved, updatedAt := updatedAt)
  }

  /** However often and with whatever profiles the repair is executed, at most one correction row is written. */
  lemma {:induction false} RepairedAtMostOnce(x: Incident, events: seq<Event>, short: string -> string)
    requires Tally(x.rows, CorrectionCount()) <= 1
    ensures Tally(After(x, events, short).rows, CorrectionCount()) <= 1
  {
    if events != [] {
      var y := After(x, events[..|events| - 1], short);
      RepairedAtMostOnce(x, events[..|events| - 1], short);
      match events[|events| - 1] {
        case Execute(p, id, now) =>
          if FindCorrection(y.rows).None? {
            TallySame(y.rows, CorrectionCount(), Never());
            NeverCounts(y.rows);
            TallyAppend(y.rows, CorrectionRow(y, p, id, now), CorrectionCount());
          }
        case Activity(row, _, _, _) => TallyAppend(y.rows, row, CorrectionCount());
      }
    }
  }

  function Never(): Entry -> int {
    (e: Entry) => 0
  }

  lemma {:induction false} NeverCounts(rows: seq<Entry>)
    ensures Tally(rows, Never()) == 0
  {
    if rows != [] { NeverCounts(rows[..|rows| - 1]); }
  }

  // ----- why the numbers work -----

  /** A ledger that starts at zero, whose rows are consistent in themselves and leave only upward gaps. */
  ghost predicate GapsUpward(rows: seq<Entry>) {
    && (forall k :: 0 <= k < |rows| ==> rows[k].after == rows[k].before + Signed(rows[k]) && rows[k].direction != ADJUSTMENT)
    && (|rows| > 0 ==> rows[0].before == 0)
    && (forall j, k :: 0 <= j < |rows| && k == j + 1 && k < |rows| ==> rows[k].before >= rows[j].after)
  }

  lemma RowsAppend(rows: seq<Entry>, e: Entry)
    ensures Economic(rows + [e]) == if IsCorrection(e) then Economic(rows) else Economic(rows) + [e]
    ensures Corrections(rows + [e]) == if IsCorrection(e) then Corrections(rows) + [e] else Corrections(rows)
  {
    assert (rows + [e])[..|rows|] == rows;
  }

  lemma GapSumAppend(rows: seq<Entry>, e: Entry)
    ensures GapSum(rows + [e]) == GapSum(rows) + if rows == [] then 0 else Abs(e.before - rows[|rows| - 1].after)
  {
    assert (rows + [e])[..|rows|] == rows;
  }

  lemma EconomicAppend(rows: seq<Entry>, e: Entry)
    requires !IsCorrection(e)
    ensures Corrected(rows + [e]) == Corrected(rows)
    ensures e.direction != ADJUSTMENT ==> Reconstructed(rows + [e]) == Reconstructed(rows) + Signed(e)
  {
    RowsAppend(rows, e);
    TallyAppend(Economic(rows), e, CreditAmount());
    TallyAppend(Economic(rows), e, DebitAmount());
  }

  lemma CorrectionAppend(rows: seq<Entry>, c: Entry)
    requires IsCorrection(c)
    ensures Corrected(rows + [c]) == Corrected(rows) + c.amount && Reconstructed(rows + [c]) == Reconstructed(rows)
  {
    RowsAppend(rows, c);
    TallyAppend(Corrections(rows), c, AnyAmount());
  }

  lemma {:induction false} NothingToCorrect(rows: seq<Entry>)
    requires forall k :: 0 <= k < |rows| ==> rows[k].direction != ADJUSTMENT
    ensures Economic(rows) == rows && Corrections(rows) == [] && Corrected(rows) == 0
  {
    if rows != [] {
      var init := rows[..|rows| - 1];
      NothingToCorrect(init);
      assert rows == init + [rows[|rows| - 1]];
      RowsAppend(init, rows[|rows| - 1]);
    }
  }

  /** The gaps telescope: together they are exactly the part of the closing balance no row explains. */
  lemma {:induction false} GapsTelescope(rows: seq<Entry>)
    requires GapsUpward(rows)
    ensures rows != [] ==> GapSum(rows) == rows[|rows| - 1].after - Reconstructed(rows)
  {
    if rows != [] {
      var init, last := rows[..|rows| - 1], rows[|rows| - 1];
      assert rows == init + [last];
      LastGap(rows);
      GapsTelescope(init);
      GapSumAppend(init, last);
      EconomicAppend(init, last);
    }
  }

  lemma LastGap(rows: seq<Entry>)
    requires GapsUpward(rows) && rows != []
    ensures var init, last := rows[..|rows| - 1], rows[|rows| - 1];
      && GapsUpward(init) && !IsCorrection(last) && last.direction != ADJUSTMENT && last.after == last.before + Signed(last)
      && (init != [] ==> last.before >= init[|init| - 1].after)
      && (init == [] ==> last.before == 0)
  {
    var n := |rows| - 1;
    assert n > 0 ==> rows[n].before >= rows[n - 1].after;
  }

  /** The three totals a repair is about. */
  ghost predicate TotalsAgree(balance: int, rows: seq<Entry>) {
    balance == Reconstructed(rows) && GapSum(Economic(rows)) == Corrected(rows)
  }

  lemma UpwardHasNoCorrections(rows: seq<Entry>)
    requires GapsUpward(rows)
    ensures Economic(rows) == rows && Corrected(rows) == 0
  {
    NothingToCorrect(rows);
  }

  lemma AfterCorrection(rows: seq<Entry>, c: Entry)
    requires Economic(rows) == rows && Corrected(rows) == 0 && IsCorrection(c)
    ensures Economic(rows + [c]) == rows && Corrected(rows + [c]) == c.amount && Reconstructed(rows + [c]) == Reconstructed(rows)
  {
    RowsAppend(rows, c);
    CorrectionAppend(rows, c);
  }

  lemma AfterNextRow(rows: seq<Entry>, e: Entry)
    requires !IsCorrection(e)
    ensures Economic(rows + [e]) == Economic(rows) + [e] && Corrected(rows + [e]) == Corrected(rows)
  {
    RowsAppend(rows, e);
    EconomicAppend(rows, e);
  }

  /** One correction brings both sums into agreement exactly when it takes away what no row explains and sets the
      balance to what the rows do explain. */
  lemma CorrectionBalancesExactlyWhen(balance: int, rows: seq<Entry>, c: Entry, corrected: int)
    requires rows != [] && GapsUpward(rows) && balance == rows[|rows| - 1].after && IsCorrection(c)
    ensures TotalsAgree(corrected, rows + [c]) <==> corrected == Reconstructed(rows) && c.amount == balance - corrected
  {
    var unexplained, explained := GapSum(rows), Reconstructed(rows);
    assert unexplained == balance - explained by { UpwardTotals(rows); }
    assert TotalsAgree(corrected, rows + [c]) <==> corrected == explained && unexplained == c.amount by {
      UpwardTotals(rows);
      CorrectedTotals(corrected, rows, c);
    }
  }

  lemma UpwardTotals(rows: seq<Entry>)
    requires GapsUpward(rows) && rows != []
    ensures Economic(rows) == rows && Corrected(rows) == 0 && GapSum(rows) == rows[|rows| - 1].after - Reconstructed(rows)
  {
    GapsTelescope(rows);
    UpwardHasNoCorrections(rows);
  }

  lemma CorrectedTotals(corrected: int, rows: seq<Entry>, c: Entry)
    requires Economic(rows) == rows && Corrected(rows) == 0 && IsCorrection(c)
    ensures TotalsAgree(corrected, rows + [c]) <==> corrected == Reconstructed(rows) && GapSum(rows) == c.amount
  {
    AfterCorrection(rows, c);
  }

  lemma CorrectionThenRow(rows: seq<Entry>, c: Entry, next: Entry)
    requires Economic(rows) == rows && Corrected(rows) == 0 && IsCorrection(c) && !IsCorrection(next)
    ensures Economic(rows + [c] + [next]) == rows + [next] && Corrected(rows + [c] + [next]) == c.amount
  {
    AfterCorrection(rows, c);
    AfterNextRow(rows + [c], next);
  }

  lemma DistanceAgain(rows: seq<Entry>, next: Entry)
    requires rows != [] && GapSum(rows) == rows[|rows| - 1].after - next.before
    ensures GapSum(rows + [next]) == 2 * GapSum(rows)
  {
    GapSumNonnegative(rows);
    GapSumAppend(rows, next);
  }
}
