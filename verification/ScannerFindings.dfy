/** What each finding of the wallet scanner says, in plain terms of the wallet's rows in any order. */
module ScannerFindings {
  import opened Prelude
  import opened Records
  import opened IntegrityScanner

  // ----- sums do not depend on the order -----

  lemma {:induction false} InsertKeepsTally(rows: seq<Entry>, e: Entry, weight: Entry -> int)
    ensures Tally(Insert(rows, e), weight) == Tally(rows, weight) + weight(e)
  {
    TallyAppend(rows, e, weight);
    if rows != [] && !Earlier(rows[|rows| - 1], e) {
      InsertKeepsTally(rows[..|rows| - 1], e, weight);
      TallyAppend(Insert(rows[..|rows| - 1], e), rows[|rows| - 1], weight);
    }
  }

  lemma {:induction false} OrderedKeepsTally(rows: seq<Entry>, weight: Entry -> int)
    ensures Tally(Ordered(rows), weight) == Tally(rows, weight)
  {
    if rows != [] {
      OrderedKeepsTally(rows[..|rows| - 1], weight);
      InsertKeepsTally(Ordered(rows[..|rows| - 1]), rows[|rows| - 1], weight);
    }
  }

  // ----- totals -----

  /** What one row adds to the balance: corrections nothing, money in its amount, money out minus its amount. */
  function Worth(): Entry -> int {
    (e: Entry) =>
      if e.kind == "FINANCIAL_INTEGRITY_CORRECTION" && e.direction == ADJUSTMENT && e.sourceType == Some("FINANCIAL_INTEGRITY_REPAIR") then 0
      else match e.direction
        case CREDIT => e.amount
        case INFLOW => e.amount
        case DEBIT => -e.amount
        case OUTFLOW => -e.amount
        case ADJUSTMENT => 0
  }

  lemma {:induction false} ReconstructedIsWorth(rows: seq<Entry>)
    ensures Reconstructed(rows) == Tally(rows, Worth())
  {
    if rows != [] {
      var init, last := rows[..|rows| - 1], rows[|rows| - 1];
      ReconstructedIsWorth(init);
      if !IsCorrection(last) {
        TallyAppend(Economic(init), last, CreditAmount());
        TallyAppend(Economic(init), last, DebitAmount());
      }
      assert Economic(init) + [] == Economic(init);
      assert Worth()(last) == if IsCorrection(last) then 0 else CreditAmount()(last) - DebitAmount()(last);
    }
  }

  /** What a settlement still holds: its amount while it is under way, reserved and not released. */
  function Holding(): Settlement -> int {
    (s: Settlement) =>
      if (s.status == RESERVED || s.status == PROVIDER_PROCESSING || s.status == UNKNOWN) && s.reservedAt && !s.releasedAt then s.amount else 0
  }

  lemma FindingIsTotal(w: WalletScan, f: Finding)
    requires f.BalanceMismatch? || f.UnledgeredValue? || f.ReservedMismatch? || f.ReservedExceedsBalance? || f.RunningBalanceBreak?
    ensures Detects(w, f) <==> TotalFault(Measure(w, Ordered(w.transactions)), f)
  {
  }

  lemma MeasuredSums(w: WalletScan)
    ensures var t := Measure(w, Ordered(w.transactions));
      && t.balance == w.balance && t.reserved == w.reserved
      && t.reconstructed == Tally(w.transactions, Worth()) && t.active == Tally(w.settlements, Holding())
  {
    ReconstructedIsWorth(Ordered(w.transactions));
    OrderedKeepsTally(w.transactions, Worth());
    TallySame(w.settlements, ActiveAmount(), Holding());
  }

  /** The balance findings compare the stored balance with what the rows are worth, the reservation findings the reserved
      balance with what the settlements hold and with the balance. */
  lemma TotalFindings(w: WalletScan, expected: int, actual: int)
    ensures var worth, held := Tally(w.transactions, Worth()), Tally(w.settlements, Holding());
      && (Detects(w, BalanceMismatch(expected, actual)) <==> expected == worth && actual == w.balance && w.balance != worth)
      && (Detects(w, UnledgeredValue(expected, actual)) <==> expected == worth && actual == w.balance && w.balance > worth)
      && (Detects(w, ReservedMismatch(expected, actual)) <==> expected == held && actual == w.reserved && w.reserved != held)
      && (Detects(w, ReservedExceedsBalance) <==> w.reserved > w.balance)
  {
    MeasuredSums(w);
    var t := Measure(w, Ordered(w.transactions));
    assert Detects(w, BalanceMismatch(expected, actual)) <==> TotalFault(t, BalanceMismatch(expected, actual)) by {
      FindingIsTotal(w, BalanceMismatch(expected, actual));
    }
    assert Detects(w, UnledgeredValue(expected, actual)) <==> TotalFault(t, UnledgeredValue(expected, actual)) by {
      FindingIsTotal(w, UnledgeredValue(expected, actual));
    }
    assert Detects(w, ReservedMismatch(expected, actual)) <==> TotalFault(t, ReservedMismatch(expected, actual)) by {
      FindingIsTotal(w, ReservedMismatch(expected, actual));
    }
    assert Detects(w, ReservedExceedsBalance) <==> TotalFault(t, ReservedExceedsBalance) by { FindingIsTotal(w, ReservedExceedsBalance); }
  }

  function Distance(a: int, b: int): int {
    if a >= b then a - b else b - a
  }

  /** How far each row starts from where the one before it ended. */
  function Jumps(rows: seq<Entry>): seq<int> {
    if |rows| < 2 then [] else seq(|rows| - 1, k requires 0 <= k < |rows| - 1 => Distance(rows[k + 1].before, rows[k].after))
  }

  lemma {:induction false} GapsAreJumps(rows: seq<Entry>)
    ensures GapSum(rows) == Tally(Jumps(rows), d => d)
  {
    if |rows| >= 2 {
      var init := rows[..|rows| - 1];
      GapsAreJumps(init);
      assert Jumps(rows)[..|Jumps(rows)| - 1] == Jumps(init);
    }
  }

  /** The amount a correction row accounts for. */
  function Correction(): Entry -> int {
    (e: Entry) =>
      if e.kind == "FINANCIAL_INTEGRITY_CORRECTION" && e.direction == ADJUSTMENT && e.sourceType == Some("FINANCIAL_INTEGRITY_REPAIR") then e.amount else 0
  }

  lemma {:induction false} CorrectedIsSum(rows: seq<Entry>)
    ensures Corrected(rows) == Tally(rows, Correction())
  {
    if rows != [] {
      var init, last := rows[..|rows| - 1], rows[|rows| - 1];
      CorrectedIsSum(init);
      assert Corrections(init) + [] == Corrections(init);
      if IsCorrection(last) { TallyAppend(Corrections(init), last, AnyAmount()); }
    }
  }

  /** The running-balance finding compares the jumps between neighbouring rows, corrections left out, with what the
      corrections account for. */
  lemma RunningBalanceFinding(w: WalletScan, expected: int, actual: int)
    ensures var jumps, corrected := Tally(Jumps(Economic(Ordered(w.transactions))), d => d), Tally(w.transactions, Correction());
      Detects(w, RunningBalanceBreak(expected, actual)) <==> expected == corrected && actual == jumps && jumps != corrected
  {
    FindingIsTotal(w, RunningBalanceBreak(expected, actual));
    GapsAreJumps(Economic(Ordered(w.transactions)));
    CorrectedIsSum(Ordered(w.transactions));
    OrderedKeepsTally(w.transactions, Correction());
  }

  // ----- settlements -----

  predicate IsDebitOf(e: Entry, s: Settlement) {
    e.direction == DEBIT && e.sourceType == Some(s.sourceType) && e.sourceId == Some(s.sourceId)
  }

  /** Exactly one row debits the settlement. */
  ghost predicate OneDebit(rows: seq<Entry>, s: Settlement) {
    exists k :: 0 <= k < |rows| && IsDebitOf(rows[k], s) && forall j :: 0 <= j < |rows| && IsDebitOf(rows[j], s) ==> j == k
  }

  lemma {:induction false} TallyAlone<T>(s: seq<T>, i: nat, weight: T -> int)
    requires i < |s| && weight(s[i]) == 1 && forall k :: 0 <= k < |s| && k != i ==> weight(s[k]) == 0
    ensures Tally(s, weight) == 1
  {
    if i == |s| - 1 {
      TallyNothing(s[..i], weight);
    } else {
      TallyAlone(s[..|s| - 1], i, weight);
    }
  }

  lemma {:induction false} TallyNothing<T>(s: seq<T>, weight: T -> int)
    requires forall k :: 0 <= k < |s| ==> weight(s[k]) == 0
    ensures Tally(s, weight) == 0
  {
    if s != [] { TallyNothing(s[..|s| - 1], weight); }
  }

  lemma OneDebitCounts(rows: seq<Entry>, s: Settlement)
    ensures Tally(rows, OwnDebit(s)) == 1 <==> OneDebit(rows, s)
  {
    if OneDebit(rows, s) {
      var k :| 0 <= k < |rows| && IsDebitOf(rows[k], s) && forall j :: 0 <= j < |rows| && IsDebitOf(rows[j], s) ==> j == k;
      OnlyOneCounts(rows, s, k);
    }
    if Tally(rows, OwnDebit(s)) == 1 {
      var k := TallyWitness(rows, OwnDebit(s));
      NoOtherDebit(rows, s, k);
    }
  }

  lemma OnlyOneCounts(rows: seq<Entry>, s: Settlement, k: nat)
    requires k < |rows| && IsDebitOf(rows[k], s) && forall j :: 0 <= j < |rows| && IsDebitOf(rows[j], s) ==> j == k
    ensures Tally(rows, OwnDebit(s)) == 1
  {
    TallyAlone(rows, k, OwnDebit(s));
  }

  lemma NoOtherDebit(rows: seq<Entry>, s: Settlement, k: nat)
    requires k < |rows| && IsDebitOf(rows[k], s) && Tally(rows, OwnDebit(s)) == 1
    ensures forall j :: 0 <= j < |rows| && IsDebitOf(rows[j], s) ==> j == k
  {
    forall j | 0 <= j < |rows| && IsDebitOf(rows[j], s) ensures j == k {
      if j < k { TallyPair(rows, j, k, OwnDebit(s)); }
      if k < j { TallyPair(rows, k, j, OwnDebit(s)); }
    }
  }

  /** What each settlement finding says about its row. */
  lemma SettlementFindings(w: WalletScan, i: nat, fault: Fault)
    requires i < |w.settlements|
    ensures var s := w.settlements[i];
      Detects(w, SettlementFinding(i, fault)) <==> match fault
        case WRONG_CURRENCY => s.currency != w.currency
        case SUCCESS_WITHOUT_DEBIT => s.status == SUCCEEDED && !OneDebit(w.transactions, s)
        case ORPHANED_RESERVATION => s.status == FAILED && s.reservedAt && !s.releasedAt
        case PROVIDER_REFERENCE_MISSING =>
          s.via == PROVIDER && (s.status == PROVIDER_PROCESSING || s.status == UNKNOWN || s.status == SUCCEEDED) && Absent(s.transferReference)
        case REVERSAL_MISSING => s.status == REVERSED && s.reversalLedger == None
  {
    FindingIsFault(w, i, fault);
    DebitFinding(w, i);
  }

  lemma FindingIsFault(w: WalletScan, i: nat, fault: Fault)
    requires i < |w.settlements|
    ensures Detects(w, SettlementFinding(i, fault)) <==> HasFault(w.settlements[i], Ordered(w.transactions), w.currency, fault)
  {
  }

  lemma DebitFinding(w: WalletScan, i: nat)
    requires i < |w.settlements|
    ensures Tally(Ordered(w.transactions), OwnDebit(w.settlements[i])) == 1 <==> OneDebit(w.transactions, w.settlements[i])
  {
    OrderedKeepsTally(w.transactions, OwnDebit(w.settlements[i]));
    OneDebitCounts(w.transactions, w.settlements[i]);
  }

  // ----- evidence -----

  /** Two rows count as the same evidence: by transfer reference where both have one, by source, kind and direction where
      neither has one but both have a source, by reference where neither has either. */
  predicate SameEvidence(d: Entry, e: Entry) {
    if !Absent(d.transferReference) || !Absent(e.transferReference) then d.transferReference == e.transferReference
    else if HasSource(d) || HasSource(e) then
      HasSource(d) && HasSource(e) && d.sourceType == e.sourceType && d.sourceId == e.sourceId && d.kind == e.kind && d.direction == e.direction
    else d.reference == e.reference
  }

  predicate Absent(o: Option<string>) {
    o == None || o == Some("")
  }

  predicate HasSource(e: Entry) {
    !Absent(e.sourceType) && !Absent(e.sourceId)
  }

  predicate NoColon(s: string) {
    forall k :: 0 <= k < |s| ==> s[k] != ':'
  }

  /** A row whose source type and kind are plain words, as every caller writes them. */
  predicate PlainRow(e: Entry) {
    (e.sourceType.Some? ==> NoColon(e.sourceType.value)) && NoColon(e.kind)
  }

  /** A colon ends a plain word, so the word can be read back. */
  lemma FirstWord(a: string, b: string, x: string, y: string)
    requires NoColon(a) && NoColon(b) && a + ":" + x == b + ":" + y
    ensures a == b && x == y
  {
    var s := a + ":" + x;
    assert s[|a|] == ':' && (forall k :: 0 <= k < |a| ==> s[k] == a[k]);
    assert s[|b|] == (b + ":" + y)[|b|] && (forall k :: 0 <= k < |b| ==> s[k] == (b + ":" + y)[k] == b[k]);
    assert |a| == |b|;
    assert a == s[..|a|] == (b + ":" + y)[..|b|] == b;
    assert x == s[|a| + 1..] == (b + ":" + y)[|b| + 1..] == y;
  }

  lemma LastWord(x: string, y: string, a: string, b: string)
    requires NoColon(a) && NoColon(b) && x + ":" + a == y + ":" + b
    ensures x == y && a == b
  {
    var s := x + ":" + a;
    assert s[|x|] == ':' && (forall k :: |x| < k < |s| ==> s[k] == a[k - |x| - 1]);
    assert s[|y|] == (y + ":" + b)[|y|] && (forall k :: |y| < k < |s| ==> s[k] == (y + ":" + b)[k] == b[k - |y| - 1]);
    assert |x| == |y|;
    assert x == s[..|x|] == (y + ":" + b)[..|y|] == y;
    assert a == s[|x| + 1..] == (y + ":" + b)[|y| + 1..] == b;
  }

  function SourceText(e: Entry): string
    requires HasSource(e)
  {
    "source:" + e.sourceType.value + ":" + e.sourceId.value + ":" + e.kind + ":" + DirectionText(e.direction)
  }

  lemma DirectionReads(a: Direction, b: Direction)
    requires DirectionText(a) == DirectionText(b)
    ensures a == b
  {
    assert DirectionText(a)[0] == DirectionText(b)[0];
  }

  lemma SourceTextReadable(d: Entry, e: Entry)
    requires PlainRow(d) && PlainRow(e) && HasSource(d) && HasSource(e) && SourceText(d) == SourceText(e)
    ensures d.sourceType == e.sourceType && d.sourceId == e.sourceId && d.kind == e.kind && d.direction == e.direction
  {
    var a, b := d.sourceType.value, e.sourceType.value;
    var p, q := d.sourceId.value, e.sourceId.value;
    var x, y := "source:" + a + ":" + p + ":" + d.kind, "source:" + b + ":" + q + ":" + e.kind;
    assert SourceText(d) == x + ":" + DirectionText(d.direction) && SourceText(e) == y + ":" + DirectionText(e.direction);
    LastWord(x, y, DirectionText(d.direction), DirectionText(e.direction));
    DirectionReads(d.direction, e.direction);
    LastWord("source:" + a + ":" + p, "source:" + b + ":" + q, d.kind, e.kind);
    assert "source:" + a + ":" + p == "source:" + (a + ":" + p) && "source:" + b + ":" + q == "source:" + (b + ":" + q);
    assert ("source:" + (a + ":" + p))[7..] == a + ":" + p && ("source:" + (b + ":" + q))[7..] == b + ":" + q;
    FirstWord(a, b, p, q);
  }

  lemma IdentityExactlyWhen(d: Entry, e: Entry)
    requires PlainRow(d) && PlainRow(e)
    ensures Identity(d) == Identity(e) <==> SameEvidence(d, e)
  {
    if Identity(d) == Identity(e) {
      IdentitySays(d, e);
    }
  }

  lemma IdentitySays(d: Entry, e: Entry)
    requires PlainRow(d) && PlainRow(e) && Identity(d) == Identity(e)
    ensures SameEvidence(d, e)
  {
    var s, t := Identity(d), Identity(e);
    assert s[0] == if Present(d.transferReference) then 't' else if HasSource(d) then 's' else 'r';
    assert t[0] == if Present(e.transferReference) then 't' else if HasSource(e) then 's' else 'r';
    if Present(d.transferReference) {
      assert s[9..] == d.transferReference.value && t[9..] == e.transferReference.value;
    } else if HasSource(d) {
      assert s == SourceText(d) && t == SourceText(e);
      SourceTextReadable(d, e);
    } else {
      assert s[10..] == d.reference && t[10..] == e.reference;
    }
  }

  /** Evidence is reported as duplicated exactly when two rows of the wallet, wherever they stand, are the same
      evidence; test credits exactly when a row carries one outside a test tenant. */
  lemma EvidenceFindings(w: WalletScan)
    requires forall k :: 0 <= k < |w.transactions| ==> PlainRow(w.transactions[k])
    ensures Detects(w, DuplicateEvidence) <==>
      exists i, j :: 0 <= i < j < |w.transactions| && SameEvidence(w.transactions[i], w.transactions[j])
    ensures Detects(w, InvalidTestCredit) <==>
      !w.testTenant && exists k :: 0 <= k < |w.transactions| && w.transactions[k].kind == "TEST_E2E_CREDIT"
  {
    DuplicateFinding(w);
    EvidenceRepeats(w.transactions);
    TestCreditFinding(w);
  }

  lemma DuplicateFinding(w: WalletScan)
    ensures Detects(w, DuplicateEvidence) <==> Duplicated(w.transactions)
  {
    SameDuplicates(w.transactions);
  }

  lemma TestCreditFinding(w: WalletScan)
    ensures Detects(w, InvalidTestCredit) <==>
      !w.testTenant && exists k :: 0 <= k < |w.transactions| && w.transactions[k].kind == "TEST_E2E_CREDIT"
  {
    SameKinds(w.transactions);
  }

  lemma SameDuplicates(rows: seq<Entry>)
    ensures Duplicated(Ordered(rows)) <==> Duplicated(rows)
  {
    NameCounts(rows);
    NameCounts(Ordered(rows));
    forall k ensures Tally(Ordered(rows), Named(k)) == Tally(rows, Named(k)) { OrderedKeepsTally(rows, Named(k)); }
  }

  lemma EvidenceRepeats(rows: seq<Entry>)
    requires forall k :: 0 <= k < |rows| ==> PlainRow(rows[k])
    ensures Duplicated(rows) <==> exists i, j :: 0 <= i < j < |rows| && SameEvidence(rows[i], rows[j])
  {
    forall i, j | 0 <= i < j < |rows| ensures Identity(rows[i]) == Identity(rows[j]) <==> SameEvidence(rows[i], rows[j]) {
      IdentityExactlyWhen(rows[i], rows[j]);
    }
  }

  lemma SameKinds(rows: seq<Entry>)
    ensures forall k :: 0 <= k < |rows| ==> rows[k] in Ordered(rows)
    ensures forall k :: 0 <= k < |Ordered(rows)| ==> Ordered(rows)[k] in rows
  {
    OrderedKeepsRows(rows);
    forall k | 0 <= k < |rows| ensures rows[k] in Ordered(rows) { assert rows[k] in multiset(rows); }
    forall k | 0 <= k < |Ordered(rows)| ensures Ordered(rows)[k] in rows { assert Ordered(rows)[k] in multiset(Ordered(rows)); }
  }
}
