/** financial-integrity-scanner.ts: analyzeWalletIntegrity, an independent audit of one wallet. */
module IntegrityScanner {
  import opened Prelude
  import opened Records

  /** A wallet as the scanner loads it. */
  datatype WalletScan = WalletScan(
    balance: int, reserved: int, currency: string, testTenant: bool, transactions: seq<Entry>, settlements: seq<Settlement>)

  datatype Finding =
    | BalanceMismatch(expected: int, actual: int)
    | UnledgeredValue(expected: int, actual: int)
    | ReservedMismatch(expected: int, actual: int)
    | ReservedExceedsBalance
    | RunningBalanceBreak(expected: int, actual: int)
    | DuplicateEvidence
    | SettlementFinding(settlement: nat, fault: Fault)
    | InvalidTestCredit

  datatype Fault = WRONG_CURRENCY | SUCCESS_WITHOUT_DEBIT | ORPHANED_RESERVATION | PROVIDER_REFERENCE_MISSING | REVERSAL_MISSING

  const CORRECTION_KIND := "FINANCIAL_INTEGRITY_CORRECTION"
  const CORRECTION_SOURCE := "FINANCIAL_INTEGRITY_REPAIR"
  const TEST_CREDIT := "TEST_E2E_CREDIT"

  // ----- the order of the rows -----

  predicate Earlier(a: Entry, b: Entry) {
    a.createdAt < b.createdAt || (a.createdAt == b.createdAt && a.id <= b.id)
  }

  function Insert(rows: seq<Entry>, e: Entry): seq<Entry> {
    if rows == [] || Earlier(rows[|rows| - 1], e) then rows + [e]
    else Insert(rows[..|rows| - 1], e) + [rows[|rows| - 1]]
  }

  function Ordered(rows: seq<Entry>): seq<Entry> {
    if rows == [] then [] else Insert(Ordered(rows[..|rows| - 1]), rows[|rows| - 1])
  }

  ghost predicate InOrder(rows: seq<Entry>) {
    forall i, j :: 0 <= i < j < |rows| ==> Earlier(rows[i], rows[j])
  }

  lemma {:induction false} InsertKeepsRows(rows: seq<Entry>, e: Entry)
    ensures multiset(Insert(rows, e)) == multiset(rows) + multiset{e}
  {
    if rows != [] && !Earlier(rows[|rows| - 1], e) {
      InsertKeepsRows(rows[..|rows| - 1], e);
      assert rows == rows[..|rows| - 1] + [rows[|rows| - 1]];
    }
  }

  lemma {:induction false} InsertKeepsOrder(rows: seq<Entry>, e: Entry)
    requires InOrder(rows)
    ensures InOrder(Insert(rows, e))
  {
    if rows != [] && !Earlier(rows[|rows| - 1], e) {
      var last, init := rows[|rows| - 1], rows[..|rows| - 1];
      InsertKeepsOrder(init, e);
      InsertKeepsRows(init, e);
      forall k | 0 <= k < |Insert(init, e)| ensures Earlier(Insert(init, e)[k], last) {
        var x := Insert(init, e)[k];
        assert x in multiset(Insert(init, e));
        if x != e { assert x in init; }
      }
    }
  }

  lemma {:induction false} OrderedKeepsRows(rows: seq<Entry>)
    ensures multiset(Ordered(rows)) == multiset(rows)
  {
    if rows != [] {
      OrderedKeepsRows(rows[..|rows| - 1]);
      InsertKeepsRows(Ordered(rows[..|rows| - 1]), rows[|rows| - 1]);
      assert rows == rows[..|rows| - 1] + [rows[|rows| - 1]];
    }
  }

  lemma {:induction false} OrderedSorts(rows: seq<Entry>)
    ensures InOrder(Ordered(rows))
  {
    if rows != [] {
      OrderedSorts(rows[..|rows| - 1]);
      InsertKeepsOrder(Ordered(rows[..|rows| - 1]), rows[|rows| - 1]);
    }
  }

  /** Rows already in order stay put. */
  lemma {:induction false} OrderedKeepsSorted(rows: seq<Entry>)
    requires InOrder(rows)
    ensures Ordered(rows) == rows
  {
    if rows != [] {
      var init := rows[..|rows| - 1];
      OrderedKeepsSorted(init);
      assert rows == init + [rows[|rows| - 1]];
      if init != [] { assert init[|init| - 1] == rows[|rows| - 2]; }
    }
  }

  // ----- what the scanner measures -----

  predicate IsCorrection(e: Entry) {
    e.kind == CORRECTION_KIND && e.direction == ADJUSTMENT && e.sourceType == Some(CORRECTION_SOURCE)
  }

  function Corrections(rows: seq<Entry>): seq<Entry> {
    if rows == [] then []
    else Corrections(rows[..|rows| - 1]) + (if IsCorrection(rows[|rows| - 1]) then [rows[|rows| - 1]] else [])
  }

  function Economic(rows: seq<Entry>): seq<Entry> {
    if rows == [] then []
    else Economic(rows[..|rows| - 1]) + (if IsCorrection(rows[|rows| - 1]) then [] else [rows[|rows| - 1]])
  }

  function CreditAmount(): Entry -> int {
    (e: Entry) => if e.direction == CREDIT || e.direction == INFLOW then e.amount else 0
  }

  function DebitAmount(): Entry -> int {
    (e: Entry) => if e.direction == DEBIT || e.direction == OUTFLOW then e.amount else 0
  }

  function AnyAmount(): Entry -> int {
    (e: Entry) => e.amount
  }

  /** The balance the economic rows add up to. */
  function Reconstructed(rows: seq<Entry>): int {
    Tally(Economic(rows), CreditAmount()) - Tally(Economic(rows), DebitAmount())
  }

  predicate ActiveReservation(s: Settlement) {
    Active(s.status) && s.reservedAt && !s.releasedAt
  }

  function ActiveAmount(): Settlement -> int {
    (s: Settlement) => if ActiveReservation(s) then s.amount else 0
  }

  function Abs(x: int): int {
    if x < 0 then -x else x
  }

  /** The total distance between where each row starts and where the previous one ended. */
  function GapSum(rows: seq<Entry>): int {
    if |rows| < 2 then 0
    else GapSum(rows[..|rows| - 1]) + Abs(rows[|rows| - 1].before - rows[|rows| - 2].after)
  }

  function Corrected(rows: seq<Entry>): int {
    Tally(Corrections(rows), AnyAmount())
  }

  /** An optional text column that JavaScript reads as true. */
  predicate Present(text: Option<string>) {
    text.Some? && text.value != ""
  }

  function DirectionText(d: Direction): string {
    match d
    case CREDIT => "CREDIT"
    case INFLOW => "INFLOW"
    case DEBIT => "DEBIT"
    case OUTFLOW => "OUTFLOW"
    case ADJUSTMENT => "ADJUSTMENT"
  }

  /** The identity of a row as evidence. */
  function Identity(e: Entry): string {
    if Present(e.transferReference) then "transfer:" + e.transferReference.value
    else if Present(e.sourceType) && Present(e.sourceId)
    then "source:" + e.sourceType.value + ":" + e.sourceId.value + ":" + e.kind + ":" + DirectionText(e.direction)
    else "reference:" + e.reference
  }

  function OwnDebit(s: Settlement): Entry -> int {
    (e: Entry) => if e.sourceType == Some(s.sourceType) && e.sourceId == Some(s.sourceId) && e.direction == DEBIT then 1 else 0
  }

  // ----- what counts as a finding -----

  ghost predicate Duplicated(rows: seq<Entry>) {
    exists i, j :: 0 <= i < j < |rows| && Identity(rows[i]) == Identity(rows[j])
  }

  predicate NeedsReference(s: Settlement) {
    s.via == PROVIDER && (s.status == PROVIDER_PROCESSING || s.status == UNKNOWN || s.status == SUCCEEDED)
  }

  /** What is wrong with one settlement, given the wallet's rows and currency. */
  predicate HasFault(s: Settlement, rows: seq<Entry>, currency: string, fault: Fault) {
    match fault
    case WRONG_CURRENCY => s.currency != currency
    case SUCCESS_WITHOUT_DEBIT => s.status == SUCCEEDED && Tally(rows, OwnDebit(s)) != 1
    case ORPHANED_RESERVATION => s.status == FAILED && s.reservedAt && !s.releasedAt
    case PROVIDER_REFERENCE_MISSING => NeedsReference(s) && !Present(s.transferReference)
    case REVERSAL_MISSING => s.status == REVERSED && s.reversalLedger.None?
  }

  /** The five sums the scanner compares. */
  datatype Totals = Totals(balance: int, reconstructed: int, reserved: int, active: int, gaps: int, corrected: int)

  function Measure(w: WalletScan, rows: seq<Entry>): Totals {
    Totals(w.balance, Reconstructed(rows), w.reserved, Tally(w.settlements, ActiveAmount()), GapSum(Economic(rows)), Corrected(rows))
  }

  predicate TotalFault(t: Totals, f: Finding) {
    match f
    case BalanceMismatch(expected, actual) => expected == t.reconstructed && actual == t.balance && actual != expected
    case UnledgeredValue(expected, actual) => expected == t.reconstructed && actual == t.balance && actual > expected
    case ReservedMismatch(expected, actual) => expected == t.active && actual == t.reserved && actual != expected
    case ReservedExceedsBalance => t.reserved > t.balance
    case RunningBalanceBreak(expected, actual) => expected == t.corrected && actual == t.gaps && actual != expected
    case _ => false
  }

  ghost predicate MisusesTestCredit(w: WalletScan, rows: seq<Entry>) {
    !w.testTenant && exists k :: 0 <= k < |rows| && rows[k].kind == TEST_CREDIT
  }

  predicate Verdict(t: Totals, duplicated: bool, settlements: seq<Settlement>, rows: seq<Entry>, currency: string, misused: bool, f: Finding) {
    match f
    case DuplicateEvidence => duplicated
    case SettlementFinding(i, fault) => i < |settlements| && HasFault(settlements[i], rows, currency, fault)
    case InvalidTestCredit => misused
    case _ => TotalFault(t, f)
  }

  /** Finding `f` is true of wallet `w`. */
  ghost predicate Detects(w: WalletScan, f: Finding) {
    var rows := Ordered(w.transactions);
    Verdict(Measure(w, rows), Duplicated(rows), w.settlements, rows, w.currency, MisusesTestCredit(w, rows), f)
  }

  /** The audit loop over consecutive rows. */
  method MeasureGaps(rows: seq<Entry>) returns (gaps: int)
    ensures gaps == GapSum(rows)
  {
    gaps := 0;
    var i := 1;
    while i < |rows|
      invariant 1 <= i && (i <= |rows| || |rows| == 0)
      invariant gaps == if |rows| == 0 then 0 else GapSum(rows[..i])
    {
      assert rows[..i + 1][..i] == rows[..i];
      if rows[i].before != rows[i - 1].after {
        gaps := gaps + Abs(rows[i].before - rows[i - 1].after);
      }
      i := i + 1;
    }
    assert |rows| > 0 ==> rows[..i] == rows;
  }

  function Named(k: string): Entry -> int {
    (e: Entry) => if Identity(e) == k then 1 else 0
  }

  lemma {:induction false} RepeatedName(rows: seq<Entry>, k: string)
    requires Tally(rows, Named(k)) > 1
    ensures Duplicated(rows)
  {
    var init := rows[..|rows| - 1];
    if Tally(init, Named(k)) > 1 {
      RepeatedName(init, k);
      var i, j :| 0 <= i < j < |init| && Identity(init[i]) == Identity(init[j]);
      assert Identity(rows[i]) == Identity(rows[j]);
    } else {
      var i := TallyWitness(init, Named(k));
      assert Identity(rows[i]) == Identity(rows[|rows| - 1]);
    }
  }

  /** The identity map of the scanner: it finds a repeated identity exactly when two rows share one. */
  method FindDuplicates(rows: seq<Entry>) returns (found: bool)
    ensures found <==> Duplicated(rows)
  {
    var identities: map<string, int> := map[];
    for n := 0 to |rows|
      invariant forall k :: (k in identities <==> Tally(rows[..n], Named(k)) > 0)
      invariant forall k :: k in identities ==> identities[k] == Tally(rows[..n], Named(k))
    {
      NamesGrow(rows, n);
      var k := Identity(rows[n]);
      identities := identities[k := (if k in identities then identities[k] else 0) + 1];
    }
    found := exists k :: k in identities && identities[k] > 1;
    assert rows[..|rows|] == rows;
    NameCounts(rows);
  }

  lemma NamesGrow(rows: seq<Entry>, n: nat)
    requires n < |rows|
    ensures forall k :: Tally(rows[..n + 1], Named(k)) == Tally(rows[..n], Named(k)) + if Identity(rows[n]) == k then 1 else 0
    ensures forall k :: Tally(rows[..n], Named(k)) >= 0
  {
    assert rows[..n + 1] == rows[..n] + [rows[n]];
    forall k ensures Tally(rows[..n + 1], Named(k)) == Tally(rows[..n], Named(k)) + if Identity(rows[n]) == k then 1 else 0 {
      TallyAppend(rows[..n], rows[n], Named(k));
    }
    forall k ensures Tally(rows[..n], Named(k)) >= 0 { TallyNonnegative(rows[..n], Named(k)); }
  }

  /** Some name occurs twice exactly when two rows share one. */
  lemma NameCounts(rows: seq<Entry>)
    ensures Duplicated(rows) <==> exists k :: Tally(rows, Named(k)) > 1
  {
    if Duplicated(rows) {
      var i, j :| 0 <= i < j < |rows| && Identity(rows[i]) == Identity(rows[j]);
      TallyPair(rows, i, j, Named(Identity(rows[i])));
    }
    if k :| Tally(rows, Named(k)) > 1 { RepeatedName(rows, k); }
  }

  /** Pushes a finding when its condition holds. */
  method Push<T>(findings: seq<T>, condition: bool, f: T) returns (r: seq<T>)
    ensures forall g :: g in r <==> g in findings || (condition && g == f)
  {
    r := if condition then findings + [f] else findings;
  }

  method AuditSettlement(s: Settlement, rows: seq<Entry>, currency: string) returns (faults: seq<Fault>)
    ensures forall f :: f in faults <==> HasFault(s, rows, currency, f)
  {
    faults := Push([], s.currency != currency, WRONG_CURRENCY);
    faults := Push(faults, s.status == SUCCEEDED && Tally(rows, OwnDebit(s)) != 1, SUCCESS_WITHOUT_DEBIT);
    faults := Push(faults, s.status == FAILED && s.reservedAt && !s.releasedAt, ORPHANED_RESERVATION);
    faults := Push(faults, NeedsReference(s) && !Present(s.transferReference), PROVIDER_REFERENCE_MISSING);
    faults := Push(faults, s.status == REVERSED && s.reversalLedger.None?, REVERSAL_MISSING);
  }

  function About(i: nat, faults: seq<Fault>): (findings: seq<Finding>)
    ensures forall f :: f in findings <==> f.SettlementFinding? && f.settlement == i && f.fault in faults
  {
    if faults == [] then []
    else
      var init := faults[..|faults| - 1];
      assert faults == init + [faults[|faults| - 1]];
      About(i, init) + [SettlementFinding(i, faults[|faults| - 1])]
  }

  /** The settlement loop of the scanner. */
  method AuditSettlements(settlements: seq<Settlement>, rows: seq<Entry>, currency: string) returns (findings: seq<Finding>)
    ensures forall f :: f in findings <==>
      f.SettlementFinding? && f.settlement < |settlements| && HasFault(settlements[f.settlement], rows, currency, f.fault)
  {
    findings := [];
    for i := 0 to |settlements|
      invariant forall f :: f in findings <==>
        f.SettlementFinding? && f.settlement < i && HasFault(settlements[f.settlement], rows, currency, f.fault)
    {
      var faults := AuditSettlement(settlements[i], rows, currency);
      findings := findings + About(i, faults);
    }
  }

  method AuditTotals(t: Totals) returns (findings: seq<Finding>)
    ensures forall f :: f in findings <==> TotalFault(t, f)
  {
    findings := Push([], t.balance != t.reconstructed, BalanceMismatch(t.reconstructed, t.balance));
    findings := Push(findings, t.balance > t.reconstructed, UnledgeredValue(t.reconstructed, t.balance));
    findings := Push(findings, t.reserved != t.active, ReservedMismatch(t.active, t.reserved));
    findings := Push(findings, t.reserved > t.balance, ReservedExceedsBalance);
    findings := Push(findings, t.gaps != t.corrected, RunningBalanceBreak(t.corrected, t.gaps));
  }

  method AuditAll(t: Totals, duplicated: bool, settlements: seq<Settlement>, rows: seq<Entry>, currency: string, misused: bool)
    returns (findings: seq<Finding>)
    ensures forall f :: f in findings <==> Verdict(t, duplicated, settlements, rows, currency, misused, f)
  {
    findings := AuditTotals(t);
    findings := Push(findings, duplicated, DuplicateEvidence);
    var settlementFindings := AuditSettlements(settlements, rows, currency);
    findings := findings + settlementFindings;
    findings := Push(findings, misused, InvalidTestCredit);
  }

  /** The sums of the scanner. */
  method MeasureTotals(w: WalletScan, rows: seq<Entry>) returns (totals: Totals)
    ensures totals == Measure(w, rows)
  {
    var economicRows := Economic(rows);
    var expected := Tally(economicRows, CreditAmount()) - Tally(economicRows, DebitAmount());
    var gaps := MeasureGaps(economicRows);
    totals := Totals(w.balance, expected, w.reserved, Tally(w.settlements, ActiveAmount()), gaps, Tally(Corrections(rows), AnyAmount()));
  }

  /** The scanner reports exactly what `Detects` describes: every fault of the wallet, and nothing else. */
  method AnalyzeWalletIntegrity(w: WalletScan) returns (findings: seq<Finding>)
    ensures forall f :: f in findings <==> Detects(w, f)
  {
    var rows := Ordered(w.transactions);
    var totals := MeasureTotals(w, rows);
    var duplicated := FindDuplicates(rows);
    var misused := !w.testTenant && exists k :: 0 <= k < |rows| && rows[k].kind == TEST_CREDIT;
    findings := AuditAll(totals, duplicated, w.settlements, rows, w.currency, misused);
  }

  // ----- the clean wallet, stated without the scanner -----

  /** Every row continues the one before it. */
  ghost predicate Linked(rows: seq<Entry>) {
    forall j, k :: 0 <= j < |rows| && k == j + 1 && k < |rows| ==> rows[k].before == rows[j].after
  }

  lemma {:induction false} GapSumNonnegative(rows: seq<Entry>)
    ensures GapSum(rows) >= 0
  {
    if |rows| >= 2 { GapSumNonnegative(rows[..|rows| - 1]); }
  }

  /** The gaps add up to nothing exactly when no row leaves one. */
  lemma {:induction false} NoGapsMeansLinked(rows: seq<Entry>)
    ensures GapSum(rows) == 0 <==> Linked(rows)
  {
    if |rows| >= 2 {
      var init := rows[..|rows| - 1];
      GapSumNonnegative(init);
      NoGapsMeansLinked(init);
      if Linked(rows) {
        assert forall j, k :: 0 <= j < |init| && k == j + 1 && k < |init| ==> init[k].before == init[j].after;
      }
      if GapSum(rows) == 0 {
        forall j, k | 0 <= j < |rows| && k == j + 1 && k < |rows| ensures rows[k].before == rows[j].after {
          if k < |init| { assert init[k].before == init[j].after; }
        }
      }
    }
  }

  /** A wallet at peace: totals, reservations, ledger continuity, evidence and settlements all agree. */
  ghost predicate Healthy(w: WalletScan) {
    var rows := Ordered(w.transactions);
    && TotalsHealthy(w, rows) && !Duplicated(rows)
    && (forall i :: 0 <= i < |w.settlements| ==> SettlementHealthy(w.settlements[i], rows, w.currency))
    && !MisusesTestCredit(w, rows)
  }

  ghost predicate TotalsHealthy(w: WalletScan, rows: seq<Entry>) {
    && w.balance == Reconstructed(rows)
    && w.reserved == Tally(w.settlements, ActiveAmount()) && w.reserved <= w.balance
    && (if Corrections(rows) == [] then Linked(rows) else GapSum(Economic(rows)) == Corrected(rows))
  }

  predicate SettlementHealthy(s: Settlement, rows: seq<Entry>, currency: string) {
    && s.currency == currency
    && (s.status == SUCCEEDED ==> Tally(rows, OwnDebit(s)) == 1)
    && (s.status == FAILED && s.reservedAt ==> s.releasedAt)
    && (NeedsReference(s) ==> Present(s.transferReference))
    && (s.status == REVERSED ==> s.reversalLedger.Some?)
  }

  lemma {:induction false} NoCorrectionsAllEconomic(rows: seq<Entry>)
    ensures Corrections(rows) == [] ==> Economic(rows) == rows
  {
    if rows != [] {
      NoCorrectionsAllEconomic(rows[..|rows| - 1]);
      assert rows == rows[..|rows| - 1] + [rows[|rows| - 1]];
    }
  }

  lemma FaultlessExactlyWhenHealthy(s: Settlement, rows: seq<Entry>, currency: string)
    ensures SettlementHealthy(s, rows, currency) <==> forall f :: !HasFault(s, rows, currency, f)
  {
    if forall f :: !HasFault(s, rows, currency, f) {
      assert !HasFault(s, rows, currency, WRONG_CURRENCY) && !HasFault(s, rows, currency, SUCCESS_WITHOUT_DEBIT);
      assert !HasFault(s, rows, currency, ORPHANED_RESERVATION) && !HasFault(s, rows, currency, PROVIDER_REFERENCE_MISSING);
      assert !HasFault(s, rows, currency, REVERSAL_MISSING);
    }
  }

  lemma TotalsSilentExactlyWhenHealthy(w: WalletScan, rows: seq<Entry>)
    ensures TotalsHealthy(w, rows) <==> forall f :: !TotalFault(Measure(w, rows), f)
  {
    NoCorrectionsAllEconomic(rows);
    NoGapsMeansLinked(rows);
    FaultlessTotals(Measure(w, rows));
  }

  lemma FaultlessTotals(t: Totals)
    ensures (forall f :: !TotalFault(t, f)) <==>
      t.balance == t.reconstructed && t.reserved == t.active && t.reserved <= t.balance && t.gaps == t.corrected
  {
    if forall f :: !TotalFault(t, f) {
      assert !TotalFault(t, BalanceMismatch(t.reconstructed, t.balance)) && !TotalFault(t, ReservedMismatch(t.active, t.reserved));
      assert !TotalFault(t, ReservedExceedsBalance) && !TotalFault(t, RunningBalanceBreak(t.corrected, t.gaps));
    }
  }

  lemma HealthyIsSilent(w: WalletScan, f: Finding)
    requires Healthy(w)
    ensures !Detects(w, f)
  {
    var rows := Ordered(w.transactions);
    TotalsSilentExactlyWhenHealthy(w, rows);
    if f.SettlementFinding? && f.settlement < |w.settlements| {
      FaultlessExactlyWhenHealthy(w.settlements[f.settlement], rows, w.currency);
    }
  }

  lemma NoVerdict(t: Totals, duplicated: bool, settlements: seq<Settlement>, rows: seq<Entry>, currency: string, misused: bool)
    requires forall f :: !Verdict(t, duplicated, settlements, rows, currency, misused, f)
    ensures !duplicated && !misused && (forall f :: !TotalFault(t, f))
    ensures forall i :: 0 <= i < |settlements| ==> SettlementHealthy(settlements[i], rows, currency)
  {
    assert !Verdict(t, duplicated, settlements, rows, currency, misused, DuplicateEvidence);
    assert !Verdict(t, duplicated, settlements, rows, currency, misused, InvalidTestCredit);
    forall f ensures !TotalFault(t, f) {
      assert !Verdict(t, duplicated, settlements, rows, currency, misused, f);
    }
    forall i | 0 <= i < |settlements| ensures SettlementHealthy(settlements[i], rows, currency) {
      forall fault ensures !HasFault(settlements[i], rows, currency, fault) {
        assert !Verdict(t, duplicated, settlements, rows, currency, misused, SettlementFinding(i, fault));
      }
      FaultlessExactlyWhenHealthy(settlements[i], rows, currency);
    }
  }

  lemma SilentIsHealthy(w: WalletScan)
    requires forall f :: !Detects(w, f)
    ensures Healthy(w)
  {
    var rows := Ordered(w.transactions);
    var t, duplicated, misused := Measure(w, rows), Duplicated(rows), MisusesTestCredit(w, rows);
    forall f ensures !Verdict(t, duplicated, w.settlements, rows, w.currency, misused, f) {
      assert !Detects(w, f);
    }
    NoVerdict(t, duplicated, w.settlements, rows, w.currency, misused);
    TotalsSilentExactlyWhenHealthy(w, rows);
  }

  /** The scanner is silent exactly on healthy wallets. */
  lemma SilentExactlyWhenHealthy(w: WalletScan)
    ensures Healthy(w) <==> forall f :: !Detects(w, f)
  {
    if Healthy(w) {
      forall f ensures !Detects(w, f) { HealthyIsSilent(w, f); }
    }
    if forall f :: !Detects(w, f) { SilentIsHealthy(w); }
  }
}
