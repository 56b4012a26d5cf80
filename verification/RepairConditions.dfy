/** When the incident repair runs and what it leaves: the inspection's reasons together come to a plain comparison with
    the recorded wallet, and a repaired wallet is recognised. */
module RepairConditions {
  import opened Prelude
  import opened Records
  import opened IntegrityScanner
  import opened IncidentRepair
  import opened RepairVerdicts

  function EntryAmount(): ExpectedEntry -> int {
    (e: ExpectedEntry) => e.amount
  }

  /** A profile whose own numbers agree: its credits are its entries, which open at zero, there are no debits, and the
      unsupported amount is what the credits do not cover. */
  predicate SelfConsistent(p: Profile) {
    && p.entries != [] && p.entries[0].before == 0 && p.legitimateCredits == Tally(p.entries, EntryAmount())
    && p.legitimateDebits == 0 && p.unsupported == p.balance - p.legitimateCredits
  }

  lemma ProductionIsSelfConsistent()
    ensures SelfConsistent(Production())
  {
    var e := ProductionEntries();
    FirstHalf(e);
    SecondHalf(e);
    assert e[..8] == e;
  }

  lemma FirstHalf(e: seq<ExpectedEntry>)
    requires |e| == 8
    ensures Tally(e[..4], EntryAmount()) == e[0].amount + e[1].amount + e[2].amount + e[3].amount
  {
    assert e[..0] == [];
    Sums(e, 0); Sums(e, 1); Sums(e, 2); Sums(e, 3);
  }

  lemma SecondHalf(e: seq<ExpectedEntry>)
    requires |e| == 8
    ensures Tally(e[..8], EntryAmount()) == Tally(e[..4], EntryAmount()) + e[4].amount + e[5].amount + e[6].amount + e[7].amount
  {
    Sums(e, 4); Sums(e, 5); Sums(e, 6); Sums(e, 7);
  }

  lemma Sums(e: seq<ExpectedEntry>, n: nat)
    requires n < |e|
    ensures Tally(e[..n + 1], EntryAmount()) == Tally(e[..n], EntryAmount()) + e[n].amount
  {
    assert e[..n + 1][..n] == e[..n];
  }

  /** The rows are the recorded funding credits, one by one. */
  ghost predicate RowsAreRecorded(rows: seq<Entry>, entries: seq<ExpectedEntry>, short: string -> string) {
    && Recorded(rows, entries)
    && forall k :: 0 <= k < |rows| ==> short(Reference(rows[k])) == entries[k].referenceHash
  }

  lemma EvidenceExactlyWhen(rows: seq<Entry>, entries: seq<ExpectedEntry>, short: string -> string)
    ensures EvidenceMatches(rows, entries, short) <==> RowsAreRecorded(rows, entries, short)
  {
    if EvidenceMatches(rows, entries, short) {
      EvidenceRecords(rows, entries, short);
      forall k | 0 <= k < |rows| ensures short(Reference(rows[k])) == entries[k].referenceHash {
        assert EvidenceOf(rows[k], short) == Evidence(entries[k], "FUNDING", CREDIT);
      }
    }
  }

  lemma {:induction false} RecordedTotals(rows: seq<Entry>, entries: seq<ExpectedEntry>)
    requires Recorded(rows, entries)
    ensures Tally(rows, FundingAmount()) == Tally(entries, EntryAmount()) && Tally(rows, FundingCount()) == |rows| && Tally(rows, DirectDebit()) == 0
  {
    if rows != [] { RecordedTotals(rows[..|rows| - 1], entries[..|entries| - 1]); }
  }

  /** The wallet as recorded, by its columns and its neighbours. */
  predicate ColumnsAreRecorded(x: Incident, p: Profile) {
    && x.currency == p.currency && x.purpose == p.purpose && x.balance == p.balance && x.reserved == p.reserved
    && x.updatedAt == p.walletUpdatedAt && x.settlements == 0 && x.disbursements == 0 && x.fundingAttempts == 0
  }

  /** The repair runs exactly on the recorded wallet: its columns and its rows are those of the profile and nothing uses
      it. Every further check of the inspection then holds by itself. */
  lemma RepairableExactlyWhen(x: Incident, p: Profile, short: string -> string)
    requires SelfConsistent(p)
    ensures Repairable(x, p, short) <==> ColumnsAreRecorded(x, p) && RowsAreRecorded(x.rows, p.entries, short)
  {
    if Repairable(x, p, short) {
      assert !Changed(x, p, short, WALLET_PURPOSE_CHANGED) && !Changed(x, p, short, WALLET_UPDATED);
      assert !Changed(x, p, short, DISBURSEMENT_PRESENT) && !Changed(x, p, short, FUNDING_ATTEMPT_PRESENT);
      UnchangedColumns(x, p, short);
      UnchangedLedger(x, p, short);
      EvidenceExactlyWhen(x.rows, p.entries, short);
    }
    if ColumnsAreRecorded(x, p) && RowsAreRecorded(x.rows, p.entries, short) {
      RecordedIsUnchanged(x, p, short);
      RecordedHasNoCorrection(x.rows, p.entries);
    }
  }

  lemma RecordedIsUnchanged(x: Incident, p: Profile, short: string -> string)
    requires SelfConsistent(p) && ColumnsAreRecorded(x, p) && RowsAreRecorded(x.rows, p.entries, short)
    ensures Unchanged(x, p, short)
  {
    RecordedTotals(x.rows, p.entries);
    EvidenceExactlyWhen(x.rows, p.entries, short);
  }

  lemma RecordedHasNoCorrection(rows: seq<Entry>, entries: seq<ExpectedEntry>)
    requires Recorded(rows, entries)
    ensures FindCorrection(rows).None?
  {
    assert |"FUNDING"| == 7 && |CORRECTION_KIND| == 30;
  }

  lemma {:induction false} OneAudit(audits: seq<nat>, id: nat)
    requires id !in audits
    ensures AuditsOf(audits, id) == [] && AuditsOf(audits + [id], id) == [id]
  {
    assert (audits + [id])[..|audits|] == audits;
    if audits != [] {
      var init := audits[..|audits| - 1];
      OneAudit(init, id);
    }
  }

  /** What the repair writes: the corrected balance, one audit, and one adjustment row from the old balance to the new one
      for the unsupported amount. The inspection recognises it from then on, so it never runs again. */
  lemma RepairIsRecognised(x: Incident, p: Profile, short: string -> string, id: nat, now: int)
    requires Repairable(x, p, short) && id !in x.audits
    ensures var y := Repaired(x, p, id, now);
      && y == x.(balance := p.correctedBalance, updatedAt := now, rows := y.rows, audits := x.audits + [id])
      && |y.rows| == |x.rows| + 1 && y.rows[..|x.rows|] == x.rows
      && var c := y.rows[|x.rows|];
         && c.id == id && c.kind == "FINANCIAL_INTEGRITY_CORRECTION" && c.direction == ADJUSTMENT && c.amount == p.unsupported
         && c.before == p.balance && c.after == p.correctedBalance && c.createdAt == now
         && c.sourceType == Some("FINANCIAL_INTEGRITY_REPAIR") && c.sourceId == Some("PAYROLL-WALLET-ATOMICITY-2026-09-23-001")
    ensures AlreadyRepaired(Repaired(x, p, id, now), p) && !Repairable(Repaired(x, p, id, now), p, short)
  {
    var y, c := Repaired(x, p, id, now), CorrectionRow(x, p, id, now);
    OneAudit(x.audits, id);
    UnchangedColumns(x, p, short);
    LastIsFound(x.rows, c);
  }

  /** After the repair the wallet is recognised exactly while its balances are the corrected ones and no second audit
      names the correction; otherwise the evidence counts as conflicting. */
  lemma RecognisedExactlyWhen(x: Incident, p: Profile, short: string -> string, id: nat, now: int, balance: int, reserved: int, later: seq<nat>)
    requires Repairable(x, p, short) && id !in x.audits
    ensures AlreadyRepaired(Repaired(x, p, id, now).(balance := balance, reserved := reserved, audits := x.audits + [id] + later), p)
      <==> balance == p.correctedBalance && reserved == p.reserved && id !in later
  {
    LastIsFound(x.rows, CorrectionRow(x, p, id, now));
    OneAudit(x.audits, id);
    FurtherAudits(x.audits + [id], later, id);
  }

  lemma {:induction false} FurtherAudits(audits: seq<nat>, later: seq<nat>, id: nat)
    ensures |AuditsOf(audits + later, id)| >= |AuditsOf(audits, id)|
    ensures |AuditsOf(audits + later, id)| == |AuditsOf(audits, id)| <==> id !in later
  {
    if later == [] {
      assert audits + later == audits;
    } else {
      var n := |later| - 1;
      assert (audits + later)[..|audits| + n] == audits + later[..n];
      assert later == later[..n] + [later[n]];
      FurtherAudits(audits, later[..n], id);
    }
  }

  lemma LastIsFound(rows: seq<Entry>, c: Entry)
    requires FindCorrection(rows).None? && IsIncidentCorrection(c)
    ensures FindCorrection(rows + [c]) == Some(|rows|)
  {
    assert (rows + [c])[..|rows|] == rows;
  }

  /** A recorded wallet with one row too many is refused, and the reasons say what the row is: always the count and the
      evidence, the credit total exactly for a funding credit, the debit total exactly for a debit, and the unsupported
      amount when either of them moved it. */
  lemma ForeignRowIsNamed(x: Incident, p: Profile, short: string -> string, e: Entry)
    requires SelfConsistent(p) && ColumnsAreRecorded(x, p) && RowsAreRecorded(x.rows, p.entries, short)
    ensures var y := x.(rows := x.rows + [e]);
      && Changed(y, p, short, LEDGER_COUNT_CHANGED) && Changed(y, p, short, EVIDENCE_FINGERPRINT_CHANGED)
      && (Changed(y, p, short, CREDIT_TOTAL_CHANGED) <==> e.kind == "FUNDING" && e.direction == CREDIT && e.amount != 0)
      && (Changed(y, p, short, DEBIT_TOTAL_CHANGED) <==> e.direction == DEBIT && e.amount != 0)
      && (Changed(y, p, short, UNSUPPORTED_AMOUNT_CHANGED) <==>
          ((e.kind == "FUNDING" && e.direction == CREDIT) || e.direction == DEBIT) && e.amount != 0)
      && !Repairable(y, p, short)
  {
    RecordedTotals(x.rows, p.entries);
    OneMoreRow(x.rows, e);
    assert Changed(x.(rows := x.rows + [e]), p, short, LEDGER_COUNT_CHANGED);
  }

  lemma OneMoreRow(rows: seq<Entry>, e: Entry)
    ensures Tally(rows + [e], FundingAmount()) == Tally(rows, FundingAmount()) + if e.kind == "FUNDING" && e.direction == CREDIT then e.amount else 0
    ensures Tally(rows + [e], DirectDebit()) == Tally(rows, DirectDebit()) + if e.direction == DEBIT then e.amount else 0
  {
    TallyAppend(rows, e, FundingAmount());
    TallyAppend(rows, e, DirectDebit());
  }
}
