/** What the integrity scanner says about the incident wallet: before the repair, after it, and once the wallet is
    used again. */
module RepairVerdicts {
  import opened Prelude
  import opened Records
  import opened IntegrityScanner
  import opened IncidentRepair

  // ----- one correction -----

  /** Everything the scanner looks at apart from the balance and the gaps is in order. */
  ghost predicate OtherwiseClean(w: WalletScan) {
    var rows := Ordered(w.transactions);
    && w.reserved == Tally(w.settlements, ActiveAmount()) && w.reserved <= w.balance && !Duplicated(rows)
    && (forall i :: 0 <= i < |w.settlements| ==> SettlementHealthy(w.settlements[i], rows, w.currency))
    && !MisusesTestCredit(w, rows)
  }

  lemma HasACorrection(rows: seq<Entry>, c: Entry)
    requires IsCorrection(c)
    ensures Corrections(rows + [c]) != []
  {
    RowsAppend(rows, c);
  }

  lemma CleanMeansBalanced(w: WalletScan, rows: seq<Entry>, c: Entry)
    requires Ordered(w.transactions) == rows + [c] && IsCorrection(c) && OtherwiseClean(w)
    ensures Healthy(w) <==> TotalsAgree(w.balance, rows + [c])
  {
    HasACorrection(rows, c);
  }

  /** With one correction behind a ledger of upward gaps, the scanner is silent exactly when the correction takes
      away what no row explains and the balance is what the rows do explain. */
  lemma CorrectionSilencesExactlyWhen(w: WalletScan, rows: seq<Entry>, c: Entry)
    requires Ordered(w.transactions) == rows + [c] && rows != [] && GapsUpward(rows) && IsCorrection(c) && OtherwiseClean(w)
    ensures (forall f :: !Detects(w, f)) <==> w.balance == Reconstructed(rows) && c.amount == rows[|rows| - 1].after - w.balance
  {
    SilentExactlyWhenHealthy(w);
    CleanMeansBalanced(w, rows, c);
    CorrectionBalancesExactlyWhen(rows[|rows| - 1].after, rows, c, w.balance);
  }

  /** But the silence does not last: with the next economic row, which starts at the corrected balance, the scanner
      reports a running-balance break of twice the correction, exactly when the correction was not zero. */
  lemma NextRowRaisesTheFindingAgain(w: WalletScan, rows: seq<Entry>, c: Entry, next: Entry)
    requires Ordered(w.transactions) == rows + [c] + [next]
    requires rows != [] && GapsUpward(rows) && IsCorrection(c) && !IsCorrection(next)
    requires c.amount == rows[|rows| - 1].after - Reconstructed(rows) && next.before == Reconstructed(rows)
    ensures Detects(w, RunningBalanceBreak(c.amount, 2 * c.amount)) <==> c.amount != 0
    ensures forall expected, actual :: Detects(w, RunningBalanceBreak(expected, actual)) ==> expected == c.amount && actual == 2 * c.amount
  {
    assert Economic(rows) == rows && Corrected(rows) == 0 && GapSum(rows) == c.amount by { UpwardTotals(rows); }
    GapAgain(w, rows, c, next);
  }

  lemma GapAgain(w: WalletScan, rows: seq<Entry>, c: Entry, next: Entry)
    requires Ordered(w.transactions) == rows + [c] + [next] && rows != [] && IsCorrection(c) && !IsCorrection(next)
    requires Economic(rows) == rows && Corrected(rows) == 0 && GapSum(rows) == c.amount == rows[|rows| - 1].after - next.before
    ensures Detects(w, RunningBalanceBreak(c.amount, 2 * c.amount)) <==> c.amount != 0
    ensures forall expected, actual :: Detects(w, RunningBalanceBreak(expected, actual)) ==> expected == c.amount && actual == 2 * c.amount
  {
    DistanceAgain(rows, next);
    BreakAgain(w, rows, c, next);
  }

  lemma BreakAgain(w: WalletScan, rows: seq<Entry>, c: Entry, next: Entry)
    requires Ordered(w.transactions) == rows + [c] + [next] && IsCorrection(c) && !IsCorrection(next)
    requires Economic(rows) == rows && Corrected(rows) == 0 && GapSum(rows + [next]) == 2 * c.amount
    ensures Detects(w, RunningBalanceBreak(c.amount, 2 * c.amount)) <==> c.amount != 0
    ensures forall expected, actual :: Detects(w, RunningBalanceBreak(expected, actual)) ==> expected == c.amount && actual == 2 * c.amount
  {
    CorrectionThenRow(rows, c, next);
    forall expected, actual
      ensures Detects(w, RunningBalanceBreak(expected, actual)) <==> expected == c.amount && actual == 2 * c.amount && actual != expected
    {
      BreakIsReported(w, expected, actual);
    }
  }

  lemma BreakIsReported(w: WalletScan, expected: int, actual: int)
    ensures Detects(w, RunningBalanceBreak(expected, actual)) <==>
      && expected == Corrected(Ordered(w.transactions)) && actual == GapSum(Economic(Ordered(w.transactions))) && actual != expected
  {
    var rows := Ordered(w.transactions);
    var t := Measure(w, rows);
    assert t.corrected == Corrected(rows) && t.gaps == GapSum(Economic(rows));
    BreakIsATotal(t, Duplicated(rows), w.settlements, rows, w.currency, MisusesTestCredit(w, rows), expected, actual);
  }

  lemma BreakIsATotal(t: Totals, duplicated: bool, settlements: seq<Settlement>, rows: seq<Entry>, currency: string, misused: bool, expected: int, actual: int)
    ensures Verdict(t, duplicated, settlements, rows, currency, misused, RunningBalanceBreak(expected, actual)) <==>
      expected == t.corrected && actual == t.gaps && actual != expected
  {
  }

  /** In a wallet with corrections whose economic rows open at zero and leave only upward gaps, healthy totals mean
      that the corrections together are what the closing balance holds beyond what the rows explain. */
  lemma CorrectionsExplainTheRest(w: WalletScan, rows: seq<Entry>)
    requires Corrections(rows) != [] && Economic(rows) != [] && GapsUpward(Economic(rows))
    ensures TotalsHealthy(w, rows) <==>
      && w.balance == Reconstructed(rows) && w.reserved == Tally(w.settlements, ActiveAmount()) && w.reserved <= w.balance
      && Corrected(rows) == Economic(rows)[|Economic(rows)| - 1].after - w.balance
  {
    UpwardRemainder(rows);
  }

  lemma UpwardRemainder(rows: seq<Entry>)
    requires Economic(rows) != [] && GapsUpward(Economic(rows))
    ensures GapSum(Economic(rows)) == Economic(rows)[|Economic(rows)| - 1].after - Reconstructed(rows)
  {
    UpwardTotals(Economic(rows));
    SameReconstruction(rows);
  }

  lemma SameReconstruction(rows: seq<Entry>)
    requires Economic(Economic(rows)) == Economic(rows)
    ensures Reconstructed(Economic(rows)) == Reconstructed(rows)
  {
  }

  // ----- the recorded incident -----

  /** The production profile, in minor units and in milliseconds since 1970. */
  function ProductionEntries(): seq<ExpectedEntry> {
    [ExpectedEntry(1790113785499, 25000000, 0, 25000000, "e66080bc14af"),
     ExpectedEntry(1790113884612, 100000, 25000000, 25100000, "081d769f6b80"),
     ExpectedEntry(1790142384237, 30000000, 25100000, 55100000, "228bb0c1277a"),
     ExpectedEntry(1790142440488, 30000000, 85100000, 115100000, "25e011813a7d"),
     ExpectedEntry(1790142538498, 30000000, 115100000, 145100000, "b621b19693d4"),
     ExpectedEntry(1790142941810, 3000000, 148100000, 151100000, "154dc9ac6a9e"),
     ExpectedEntry(1790143131492, 200000, 154100000, 154300000, "186335bc65ec"),
     ExpectedEntry(1790176510206, 100000, 154500000, 154600000, "bf56acf6ceb5")]
  }

  const LAST_ENTRY := 1790176510206

  function Production(): Profile {
    Profile("fcefcb648dfd", "NGN", "PRIMARY", 154600000, 0, 118400000, 0, 36200000, 118400000, 1790176509724, ProductionEntries())
  }

  /** The incident wallet as the scanner loads it: it has no settlements. */
  function ScanOf(x: Incident, testTenant: bool): WalletScan {
    WalletScan(x.balance, x.reserved, x.currency, testTenant, x.rows, [])
  }

  /** What the evidence says of each row. */
  ghost predicate Recorded(rows: seq<Entry>, entries: seq<ExpectedEntry>) {
    && |rows| == |entries|
    && forall k :: 0 <= k < |rows| ==>
         && rows[k].createdAt == entries[k].createdAt && rows[k].amount == entries[k].amount
         && rows[k].before == entries[k].before && rows[k].after == entries[k].after
         && rows[k].kind == "FUNDING" && rows[k].direction == CREDIT
  }

  lemma EvidenceRecords(rows: seq<Entry>, entries: seq<ExpectedEntry>, short: string -> string)
    requires EvidenceMatches(rows, entries, short)
    ensures Recorded(rows, entries)
  {
    forall k | 0 <= k < |rows|
      ensures rows[k].createdAt == entries[k].createdAt && rows[k].amount == entries[k].amount
      ensures rows[k].before == entries[k].before && rows[k].after == entries[k].after
      ensures rows[k].kind == "FUNDING" && rows[k].direction == CREDIT
    {
      assert EvidenceOf(rows[k], short) == Evidence(entries[k], "FUNDING", CREDIT);
    }
  }

  lemma RecordedGapsUpward(rows: seq<Entry>)
    requires Recorded(rows, ProductionEntries())
    ensures GapsUpward(rows) && rows[7].after == 154600000
  {
  }

  // ----- no two rows are the same evidence -----

  function Reference(e: Entry): string {
    if e.transferReference.Some? then e.transferReference.value else ""
  }

  predicate HashesDiffer(entries: seq<ExpectedEntry>) {
    forall i, j :: 0 <= i < j < |entries| ==> entries[i].referenceHash != entries[j].referenceHash
  }

  lemma ProductionHashesDiffer()
    ensures HashesDiffer(ProductionEntries())
  {
    var entries := ProductionEntries();
    var codes := [('e', '6'), ('0', '8'), ('2', '2'), ('2', '5'), ('b', '6'), ('1', '5'), ('1', '8'), ('b', 'f')];
    assert forall k :: 0 <= k < 8 ==> |entries[k].referenceHash| == 12;
    assert forall k :: 0 <= k < 8 ==> (entries[k].referenceHash[0], entries[k].referenceHash[1]) == codes[k];
    forall i, j | 0 <= i < j < |entries| ensures entries[i].referenceHash != entries[j].referenceHash {
      assert codes[i] != codes[j];
    }
  }

  /** Rows with different transfer references are different evidence, even when one of them has none. */
  lemma FundingIdentities(d: Entry, e: Entry)
    requires Reference(d) != Reference(e)
    ensures Identity(d) != Identity(e)
  {
    if Present(d.transferReference) && Present(e.transferReference) {
      var p, x, y := "transfer:", Reference(d), Reference(e);
      assert x == (p + x)[|p|..] && y == (p + y)[|p|..];
    } else if Present(d.transferReference) {
      assert Identity(d)[0] == 't' && Identity(e)[0] != 't';
    } else {
      assert Identity(d)[0] != 't' && Identity(e)[0] == 't';
    }
  }

  /** A credit is never the same evidence as the correction. */
  lemma CorrectionIdentity(e: Entry, c: Entry)
    requires e.direction == CREDIT && c.direction == ADJUSTMENT && c.transferReference.None?
    requires Present(c.sourceType) && Present(c.sourceId)
    ensures Identity(e) != Identity(c)
  {
    var t := Identity(c);
    var front := "source:" + c.sourceType.value + ":" + c.sourceId.value + ":" + c.kind + ":";
    assert t == front + "ADJUSTMENT" && t[|t| - 2] == 'N' && t[0] == 's';
    if !Present(e.transferReference) && Present(e.sourceType) && Present(e.sourceId) {
      var start := "source:" + e.sourceType.value + ":" + e.sourceId.value + ":" + e.kind + ":";
      assert Identity(e) == start + "CREDIT" && Identity(e)[|Identity(e)| - 2] == 'I';
    } else {
      assert Identity(e)[0] != 's';
    }
  }

  lemma EvidenceIsUnique(rows: seq<Entry>, entries: seq<ExpectedEntry>, short: string -> string, c: Entry)
    requires EvidenceMatches(rows, entries, short) && HashesDiffer(entries)
    requires c.direction == ADJUSTMENT && c.transferReference.None? && Present(c.sourceType) && Present(c.sourceId)
    ensures !Duplicated(rows + [c])
  {
    var all := rows + [c];
    forall i, j | 0 <= i < j < |all| ensures Identity(all[i]) != Identity(all[j]) {
      assert all[i] == rows[i] && EvidenceOf(rows[i], short) == Evidence(entries[i], "FUNDING", CREDIT);
      if j < |rows| {
        assert all[j] == rows[j] && EvidenceOf(rows[j], short) == Evidence(entries[j], "FUNDING", CREDIT);
        assert short(Reference(rows[i])) != short(Reference(rows[j]));
        FundingIdentities(rows[i], rows[j]);
      } else {
        CorrectionIdentity(rows[i], c);
      }
    }
  }

  lemma ProductionInOrder(rows: seq<Entry>, c: Entry)
    requires Recorded(rows, ProductionEntries()) && c.createdAt > LAST_ENTRY
    ensures Ordered(rows + [c]) == rows + [c] && Ordered(rows) == rows
  {
    var entries := ProductionEntries();
    assert forall i, j :: 0 <= i < j < |entries| ==> entries[i].createdAt < entries[j].createdAt;
    OrderedKeepsSorted(rows + [c]);
    OrderedKeepsSorted(rows);
  }

  lemma ProductionAddsUp(x: Incident, short: string -> string)
    requires Unchanged(x, Production(), short)
    ensures Recorded(x.rows, ProductionEntries()) && GapsUpward(x.rows) && x.rows[7].after == x.balance
    ensures Reconstructed(x.rows) == 118400000
  {
    UnchangedLedger(x, Production(), short);
    UnchangedColumns(x, Production(), short);
    EvidenceRecords(x.rows, ProductionEntries(), short);
    RecordedGapsUpward(x.rows);
    FundingIsEverything(x.rows);
    NothingToCorrect(x.rows);
  }

  lemma {:induction false} FundingIsEverything(rows: seq<Entry>)
    requires forall k :: 0 <= k < |rows| ==> rows[k].direction == CREDIT && rows[k].kind == "FUNDING"
    ensures Tally(rows, CreditAmount()) == Tally(rows, FundingAmount()) && Tally(rows, DebitAmount()) == 0
  {
    if rows != [] { FundingIsEverything(rows[..|rows| - 1]); }
  }

  /** Before the repair the scanner reports that the incident wallet holds 362,000.00 more than its ledger explains. */
  lemma ProductionWalletIsReported(x: Incident, short: string -> string, testTenant: bool)
    requires Unchanged(x, Production(), short)
    ensures Detects(ScanOf(x, testTenant), UnledgeredValue(118400000, 154600000))
  {
    UnchangedColumns(x, Production(), short);
    ProductionAddsUp(x, short);
    ProductionInOrder(x.rows, CorrectionRow(x, Production(), 0, LAST_ENTRY + 1));
  }

  lemma RepairedIsClean(x: Incident, short: string -> string, id: nat, now: int, testTenant: bool)
    requires Unchanged(x, Production(), short) && now > LAST_ENTRY
    ensures var w, c := ScanOf(Repaired(x, Production(), id, now), testTenant), CorrectionRow(x, Production(), id, now);
      Ordered(w.transactions) == x.rows + [c] && OtherwiseClean(w)
  {
    var c := CorrectionRow(x, Production(), id, now);
    UnchangedColumns(x, Production(), short);
    UnchangedLedger(x, Production(), short);
    ProductionAddsUp(x, short);
    ProductionInOrder(x.rows, c);
    ProductionHashesDiffer();
    EvidenceIsUnique(x.rows, ProductionEntries(), short, c);
    NoTestCredits(x.rows, c);
  }

  lemma NoTestCredits(rows: seq<Entry>, c: Entry)
    requires c.kind == CORRECTION_KIND && forall k :: 0 <= k < |rows| ==> rows[k].kind == "FUNDING"
    ensures forall k :: 0 <= k < |rows + [c]| ==> (rows + [c])[k].kind != TEST_CREDIT
  {
    assert "FUNDING"[0] != TEST_CREDIT[0] && CORRECTION_KIND[0] != TEST_CREDIT[0];
  }

  /** Whatever wallet the production profile accepts: after its repair the scanner has nothing left to report. */
  lemma ProductionRepairSilences(x: Incident, short: string -> string, id: nat, now: int, testTenant: bool)
    requires Unchanged(x, Production(), short) && now > LAST_ENTRY
    ensures var w := ScanOf(Repaired(x, Production(), id, now), testTenant);
      Healthy(w) && forall f :: !Detects(w, f)
  {
    var w, c := ScanOf(Repaired(x, Production(), id, now), testTenant), CorrectionRow(x, Production(), id, now);
    UnchangedColumns(x, Production(), short);
    ProductionAddsUp(x, short);
    RepairedIsClean(x, short, id, now, testTenant);
    CorrectionSilencesExactlyWhen(w, x.rows, c);
    SilentExactlyWhenHealthy(w);
  }
}
