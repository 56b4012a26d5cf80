/** The transactions as the code runs them: row by row against mutable tables, undoing every write when a
    statement fails. Each is proved to end exactly as its transaction function says, so everything proved
    about those functions holds of these methods. */
module SettlementStore {
  import opened Prelude
  import opened Records
  import opened Wallets
  import opened Settlements
  import opened Effects
  import opened Protocol

  /** The method ended as `spec` says: with its writes, or with none. */
  ghost predicate EndsAs(before: Database, outcome: Outcome, now: Database, spec: Outcome) {
    match spec
    case Committed(d, acted) => outcome == spec && now == d
    case RolledBack(_) => outcome.RolledBack? && now == before
  }

  /** The database after one result was handled without interruption. */
  function Applied(db: Database, i: nat, seen: Settlement, result: TransferResult): Database {
    var e := Apply(db, i, seen, result);
    if e.next.Finished? then e.db else Act(e.db, e.next, Proceed).db
  }

  /** A terminal row that already says what the result says. */
  predicate Repeats(status: Status, state: TransferState) {
    (status == SUCCEEDED && state == SUCCESS) || (status == FAILED && state == FAILURE) || (status == REVERSED && state == REVERSAL)
    || state == NON_CONCLUSIVE
  }

  /** Whether handling a result ends in an error for the caller. */
  predicate Throws(db: Database, i: nat, seen: Settlement, result: TransferResult) {
    if !Matches(seen, result) then true
    else if (seen.status == SUCCEEDED || seen.status == FAILED || seen.status == REVERSED) && Repeats(seen.status, result.state) then false
    else if (seen.status == SUCCEEDED || seen.status == FAILED || seen.status == REVERSED) && !(seen.status == SUCCEEDED && result.state == REVERSAL) then true
    else match result.state
      case SUCCESS => FinalizeSuccess(db, i, result).RolledBack?
      case FAILURE => ReleaseReservation(db, seen.org, i).RolledBack?
      case REVERSAL => ReverseSucceeded(db, seen.org, i, ReversalReference(result.reference)).RolledBack?
      case NON_CONCLUSIVE => i >= |db.settlements|
  }

  /** A caller that is told of an error can rely on nothing having happened. */
  lemma ErrorsLeaveNoTrace(db: Database, i: nat, seen: Settlement, result: TransferResult)
    requires Throws(db, i, seen, result)
    ensures Applied(db, i, seen, result) == db
  {
  }

  /** On a row that had ended when it was read, news changes nothing unless it reverses a success; it is an error exactly
      when it contradicts the ending: another transfer, a failure or reversal after another ending, or a late success. */
  lemma EndedRowsAnswer(db: Database, i: nat, seen: Settlement, result: TransferResult)
    requires seen.status == SUCCEEDED || seen.status == FAILED || seen.status == REVERSED
    requires !(SameTransfer(seen, result) && seen.status == SUCCEEDED && result.state == REVERSAL)
    ensures Applied(db, i, seen, result) == db
    ensures Throws(db, i, seen, result) <==>
      || !SameTransfer(seen, result)
      || (seen.status == SUCCEEDED && result.state == FAILURE)
      || (seen.status == FAILED && (result.state == SUCCESS || result.state == REVERSAL))
      || (seen.status == REVERSED && (result.state == SUCCESS || result.state == FAILURE))
  {
    MatchesExactlyWhen(seen, result);
  }

  /** The tables after the reservation of a manual settlement. */
  function ManualHeld(db: Database, source: Source, i: nat, row: Settlement): Database
    requires i <= |db.settlements| && WalletRow(db, source.wallet, source.org).Ok?
    requires Reserve(db.wallets[source.wallet], source.org, source.amount, Normalize(source.currency)).Ok?
  {
    db.(wallets := db.wallets[source.wallet := Reserve(db.wallets[source.wallet], source.org, source.amount, Normalize(source.currency)).value],
        settlements := if i < |db.settlements| then db.settlements[i := row] else db.settlements + [row])
  }

  /** What is left to do after the reservation, and when it succeeds. */
  lemma ManualRest(db: Database, source: Source, i: nat, row: Settlement, externalReference: string)
    requires i <= |db.settlements| && WalletRow(db, source.wallet, source.org).Ok? && SettlementFits(db.settlements, i, row)
    requires Reserve(db.wallets[source.wallet], source.org, source.amount, Normalize(source.currency)).Ok?
    ensures var held := ManualHeld(db, source, i, row);
      var consumed := Consume(held.wallets[source.wallet], source.org, source.amount, Normalize(source.currency));
      var spec := ManualWrites(db, source, i, row, externalReference);
      var done := row.(status := SUCCEEDED, releasedAt := true);
      && (spec.Ok? <==> consumed.Ok? && EntryFits(db.ledger, ManualDebit(held, source, consumed.value, row.internalReference, externalReference)))
      && (spec.Ok? ==> spec.value == db.(
            wallets := held.wallets[source.wallet := consumed.value],
            ledger := db.ledger + [ManualDebit(held, source, consumed.value, row.internalReference, externalReference)],
            settlements := if i < |db.settlements| then db.settlements[i := done] else db.settlements + [done]))
  {
  }

  class Store {
    var wallets: seq<Wallet>
    var ledger: seq<Entry>
    var settlements: seq<Settlement>
    var slips: map<string, Payslip>
    var runs: map<string, PayrollRun>
    var requests: map<string, PaymentRequest>

    function View(): Database
      reads this
    {
      Database(wallets, ledger, settlements, slips, runs, requests)
    }

    constructor (initial: seq<Wallet>)
      ensures View() == Database(initial, [], [], map[], map[], map[])
    {
      wallets, ledger, settlements := initial, [], [];
      slips, runs, requests := map[], map[], map[];
    }

    method Rollback(saved: Database)
      modifies this
      ensures View() == saved
    {
      wallets, ledger, settlements := saved.wallets, saved.ledger, saved.settlements;
      slips, runs, requests := saved.slips, saved.runs, saved.requests;
    }

    // ----- wallet-integrity.ts -----

    /** The shared opening of the wallet operations: amount, wallet and currency checks. */
    method FinancialWallet(org: string, wallet: nat, amount: int, currency: string) returns (problem: Option<Problem>)
      ensures problem.None? <==> amount >= 0 && WalletRow(View(), wallet, org).Ok? && CurrencyAgrees(Normalize(currency), wallets[wallet].currency)
    {
      if amount < 0 { return Some(NOT_POSITIVE); }
      if wallet >= |wallets| || wallets[wallet].org != org { return Some(NOT_FOUND); }
      if !CurrencyAgrees(Normalize(currency), wallets[wallet].currency) { return Some(CURRENCY_MISMATCH); }
      return None;
    }

    method ReserveWalletBalance(org: string, wallet: nat, amount: int, currency: string) returns (problem: Option<Problem>)
      modifies this`wallets
      ensures problem.None? <==> WalletRow(old(View()), wallet, org).Ok? && Reserve(old(wallets)[wallet], org, amount, currency).Ok?
      ensures problem.None? ==> wallets == old(wallets)[wallet := Reserve(old(wallets)[wallet], org, amount, currency).value]
      ensures problem.Some? ==> wallets == old(wallets)
    {
      problem := FinancialWallet(org, wallet, amount, currency);
      if problem.Some? { return; }
      var w := wallets[wallet];
      if Upper(w.currency) == Normalize(currency) && w.balance - w.reserved >= amount {
        wallets := wallets[wallet := w.(reserved := w.reserved + amount)];
      } else {
        problem := Some(INSUFFICIENT_SPENDABLE_BALANCE);
      }
    }

    method DebitUnreservedWallet(org: string, wallet: nat, amount: int, currency: string) returns (problem: Option<Problem>)
      modifies this`wallets
      ensures problem.None? <==> WalletRow(old(View()), wallet, org).Ok? && DebitUnreserved(old(wallets)[wallet], org, amount, currency).Ok?
      ensures problem.None? ==> wallets == old(wallets)[wallet := DebitUnreserved(old(wallets)[wallet], org, amount, currency).value]
      ensures problem.Some? ==> wallets == old(wallets)
    {
      problem := FinancialWallet(org, wallet, amount, currency);
      if problem.Some? { return; }
      var w := wallets[wallet];
      if Upper(w.currency) == Normalize(currency) && w.balance - w.reserved >= amount {
        wallets := wallets[wallet := w.(balance := w.balance - amount)];
      } else {
        problem := Some(INSUFFICIENT_SPENDABLE_BALANCE);
      }
    }

    method ConsumeWalletReservation(org: string, wallet: nat, amount: int, currency: string) returns (problem: Option<Problem>)
      modifies this`wallets
      ensures problem.None? <==> WalletRow(old(View()), wallet, org).Ok? && Consume(old(wallets)[wallet], org, amount, currency).Ok?
      ensures problem.None? ==> wallets == old(wallets)[wallet := Consume(old(wallets)[wallet], org, amount, currency).value]
      ensures problem.Some? ==> wallets == old(wallets)
    {
      problem := FinancialWallet(org, wallet, amount, currency);
      if problem.Some? { return; }
      var w := wallets[wallet];
      if Upper(w.currency) == Normalize(currency) && w.balance >= amount && w.reserved >= amount {
        wallets := wallets[wallet := w.(balance := w.balance - amount, reserved := w.reserved - amount)];
      } else {
        problem := Some(RESERVATION_NOT_HELD);
      }
    }

    method ReleaseWalletReservation(org: string, wallet: nat, amount: int, currency: string) returns (problem: Option<Problem>)
      modifies this`wallets
      ensures problem.None? <==> WalletRow(old(View()), wallet, org).Ok? && Release(old(wallets)[wallet], org, amount, currency).Ok?
      ensures problem.None? ==> wallets == old(wallets)[wallet := Release(old(wallets)[wallet], org, amount, currency).value]
      ensures problem.Some? ==> wallets == old(wallets)
    {
      problem := FinancialWallet(org, wallet, amount, currency);
      if problem.Some? { return; }
      var w := wallets[wallet];
      if Upper(w.currency) == Normalize(currency) && w.reserved >= amount {
        wallets := wallets[wallet := w.(reserved := w.reserved - amount)];
      } else {
        problem := Some(RESERVATION_NOT_HELD);
      }
    }

    // ----- inserts and updates under the unique keys -----

    method CreateEntry(e: Entry) returns (ok: bool)
      modifies this`ledger
      ensures ok == EntryFits(old(ledger), e)
      ensures ledger == if ok then old(ledger) + [e] else old(ledger)
    {
      ok := EntryFits(ledger, e);
      if ok { ledger := ledger + [e]; }
    }

    method UpdateSettlement(i: nat, s: Settlement) returns (ok: bool)
      requires i < |settlements|
      modifies this`settlements
      ensures ok == SettlementFits(old(settlements), i, s)
      ensures settlements == if ok then old(settlements)[i := s] else old(settlements)
    {
      ok := SettlementFits(settlements, i, s);
      if ok { settlements := settlements[i := s]; }
    }

    // ----- provider-settlement.ts -----

    /** The first half of a claim: a PREPARED row is marked and its amount reserved; nothing is undone here. */
    method MarkAndReserve(org: string, i: nat) returns (problem: Option<Problem>)
      requires i < |settlements|
      modifies this`settlements, this`wallets
      ensures var db := old(View());
        var s := db.settlements[i];
        var t := s.(status := RESERVED, reservedAt := true, transferReference := Some(s.internalReference));
        match Rewrite(db, i, t)
        case Error(_) => problem.Some?
        case Ok(marked) =>
          match WalletRow(db, s.wallet, org)
          case Error(_) => problem.Some?
          case Ok(w) =>
            match Reserve(w, org, s.amount, s.currency)
            case Error(_) => problem.Some?
            case Ok(held) => problem.None? && View() == SetWallet(marked, s.wallet, held)
    {
      var s := settlements[i];
      var marked := UpdateSettlement(i, s.(status := RESERVED, reservedAt := true, transferReference := Some(s.internalReference)));
      if !marked { return Some(DUPLICATE_KEY); }
      problem := ReserveWalletBalance(org, s.wallet, s.amount, s.currency);
    }

    /** The second half: a RESERVED row that nobody claimed goes to this initiator. */
    method Claim(i: nat) returns (outcome: Outcome)
      requires i < |settlements|
      modifies this`settlements
      ensures EndsAs(old(View()), outcome, View(), ClaimInitiation(old(View()), i))
    {
      var s := settlements[i];
      if s.status != RESERVED || s.initiationClaimed { return Committed(View(), false); }
      var claimed := UpdateSettlement(i, s.(status := PROVIDER_PROCESSING, initiationClaimed := true, transferReference := Some(s.internalReference)));
      return if claimed then Committed(View(), true) else RolledBack(DUPLICATE_KEY);
    }

    /** Reserves the amount of a PREPARED settlement and hands it to one initiator. */
    method ReserveAndClaimProviderSettlement(org: string, i: nat) returns (outcome: Outcome)
      modifies this
      ensures EndsAs(old(View()), outcome, View(), ReserveAndClaim(old(View()), org, i))
    {
      var saved := View();
      if i >= |settlements| || settlements[i].org != org { return RolledBack(NOT_FOUND); }
      var status := settlements[i].status;
      if status == SUCCEEDED || status == REVERSED || status == FAILED { return Committed(View(), false); }
      if status == PREPARED {
        var problem := MarkAndReserve(org, i);
        if problem.Some? {
          Rollback(saved);
          return RolledBack(problem.value);
        }
      }
      outcome := Claim(i);
      if outcome.RolledBack? { Rollback(saved); }
    }

    method UpdatePayrollAggregate(payslipId: string, successful: bool) returns (ok: bool)
      modifies this`runs
      ensures ok <==> Aggregate(old(View()), payslipId, successful).Ok?
      ensures ok ==> View() == Aggregate(old(View()), payslipId, successful).value
      ensures !ok ==> runs == old(runs)
      ensures payslipId in slips && ok && successful ==> RunFollows(View(), old(View()), slips[payslipId].run, slips[payslipId].org)
      ensures payslipId in slips && !successful ==> RunReopened(View(), old(View()), slips[payslipId])
    {
      if payslipId !in slips { return true; }
      var slip := slips[payslipId];
      if !successful {
        if slip.run in runs && runs[slip.run].org == slip.org && runs[slip.run].status != CANCELLED {
          runs := runs[slip.run := runs[slip.run].(status := DISBURSING)];
        }
        return true;
      }
      var remaining := Unpaid(View(), slip.run, slip.org);
      if slip.run !in runs { return false; }
      runs := runs[slip.run := runs[slip.run].(status := if remaining then DISBURSING else DISBURSED)];
      return true;
    }

    method ClaimObligation(s: Settlement) returns (ok: bool)
      modifies this`slips, this`runs, this`requests
      ensures ok <==> MarkPaid(old(View()), s).Ok?
      ensures ok ==> View() == MarkPaid(old(View()), s).value
    {
      if s.sourceType == PAYMENT_REQUEST {
        if !(s.sourceId in requests && requests[s.sourceId].org == s.org && requests[s.sourceId].status == APPROVED) { return false; }
        requests := requests[s.sourceId := requests[s.sourceId].(status := SETTLED)];
        return true;
      }
      if s.sourceType == PAYSLIP {
        if !(s.sourceId in slips && slips[s.sourceId].org == s.org && slips[s.sourceId].status != PAID) { return false; }
        slips := slips[s.sourceId := slips[s.sourceId].(status := PAID)];
        ok := UpdatePayrollAggregate(s.sourceId, true);
        return;
      }
      return true;
    }

    /** Consumes the reservation of a provider settlement and posts its debit row, or does neither. */
    method ConsumeAndPost(s: Settlement) returns (problem: Option<Problem>)
      modifies this`wallets, this`ledger
      ensures var db := old(View());
        match WalletRow(db, s.wallet, s.org)
        case Error(_) => problem.Some? && View() == db
        case Ok(w) =>
          match Consume(w, s.org, s.amount, s.currency)
          case Error(_) => problem.Some? && View() == db
          case Ok(after) =>
            match Post(SetWallet(db, s.wallet, after), ProviderDebit(db, s, after))
            case Error(_) => problem.Some? && View() == db
            case Ok(posted) => problem.None? && View() == posted
    {
      ghost var db := View();
      var saved := wallets;
      problem := ConsumeWalletReservation(s.org, s.wallet, s.amount, s.currency);
      if problem.Some? { return; }
      var created := CreateEntry(ProviderDebit(View(), s, wallets[s.wallet]));
      if !created {
        wallets := saved;
        problem := Some(DUPLICATE_KEY);
      }
    }

    /** The one transaction that debits a provider settlement. */
    method FinalizeProviderSettlementSuccess(i: nat, result: TransferResult) returns (outcome: Outcome)
      modifies this
      ensures EndsAs(old(View()), outcome, View(), FinalizeSuccess(old(View()), i, result))
    {
      var saved := View();
      if i >= |settlements| { return RolledBack(NOT_FOUND); }
      var s := settlements[i];
      if s.status == SUCCEEDED { return Committed(View(), false); }
      if !Active(s.status) || !s.reservedAt || s.releasedAt { return RolledBack(NOT_ELIGIBLE); }
      if !Matches(s, result) { return RolledBack(RESULT_MISMATCH); }
      var problem := ConsumeAndPost(s);
      if problem.Some? { return RolledBack(problem.value); }
      var paid := ClaimObligation(s);
      if !paid { Rollback(saved); return RolledBack(OBLIGATION_NOT_ELIGIBLE); }
      settlements := settlements[i := s.(
        status := SUCCEEDED, providerStatus := Some(result.providerStatus),
        transferCode := KeepCode(s, result.transferCode), releasedAt := true)];
      return Committed(View(), true);
    }

    // ----- financial-settlement.ts -----

    method ReleaseSettlementReservation(org: string, i: nat) returns (outcome: Outcome)
      modifies this
      ensures EndsAs(old(View()), outcome, View(), ReleaseReservation(old(View()), org, i))
    {
      if i >= |settlements| || settlements[i].org != org { return RolledBack(NOT_FOUND); }
      var s := settlements[i];
      if s.status == FAILED && s.releasedAt { return Committed(View(), false); }
      if !Active(s.status) || !s.reservedAt || s.releasedAt { return RolledBack(NOT_ELIGIBLE); }
      var problem := ReleaseWalletReservation(org, s.wallet, s.amount, s.currency);
      if problem.Some? { return RolledBack(problem.value); }
      settlements := settlements[i := s.(status := FAILED, releasedAt := true)];
      return Committed(View(), true);
    }

    /** The writes of a reversal: wallet, credit row, settlement row. */
    method WriteReversal(i: nat, reference: string, original: nat) returns (ok: bool)
      requires i < |settlements| && settlements[i].wallet < |wallets|
      modifies this
      ensures var db := old(View());
              var s := db.settlements[i];
              var w := db.wallets[s.wallet];
              var credit := ReversalCredit(db, s, w.balance, reference, original);
              var t := s.(status := REVERSED, reversalReference := Some(reference), reversalLedger := Some(|db.ledger|));
              && (ok <==> EntryFits(db.ledger, credit) && SettlementFits(db.settlements, i, t))
              && (ok ==> View() == db.(wallets := db.wallets[s.wallet := w.(balance := w.balance + s.amount)],
                                       ledger := db.ledger + [credit], settlements := db.settlements[i := t]))
              && (!ok ==> View() == db)
    {
      var saved := View();
      var s := settlements[i];
      var id := |ledger|;
      ok := PostCredit(s, reference, original);
      if ok {
        ok := UpdateSettlement(i, s.(status := REVERSED, reversalReference := Some(reference), reversalLedger := Some(id)));
      }
      if !ok { Rollback(saved); }
    }

    /** The money side of a reversal; the caller undoes a failure. */
    method PostCredit(s: Settlement, reference: string, original: nat) returns (ok: bool)
      requires s.wallet < |wallets|
      modifies this`wallets, this`ledger
      ensures var db := old(View());
        var w := db.wallets[s.wallet];
        var credit := ReversalCredit(db, s, w.balance, reference, original);
        && (ok <==> EntryFits(db.ledger, credit))
        && (ok ==> wallets == db.wallets[s.wallet := w.(balance := w.balance + s.amount)] && ledger == db.ledger + [credit])
    {
      var w := wallets[s.wallet];
      wallets := wallets[s.wallet := w.(balance := w.balance + s.amount)];
      ok := CreateEntry(ReversalCredit(View(), s, w.balance, reference, original));
    }

    method ReverseSucceededSettlement(org: string, i: nat, reference: string) returns (outcome: Outcome)
      modifies this
      ensures EndsAs(old(View()), outcome, View(), ReverseSucceeded(old(View()), org, i, reference))
    {
      if i >= |settlements| || settlements[i].org != org { return RolledBack(NOT_FOUND); }
      var s := settlements[i];
      if s.status == REVERSED && s.reversalReference == Some(reference) { return Committed(View(), false); }
      if s.status != SUCCEEDED { return RolledBack(NOT_ELIGIBLE); }
      var original := FirstDebit(ledger, s);
      if original.None? { return RolledBack(DEBIT_MISSING); }
      if s.wallet >= |wallets| || wallets[s.wallet].org != org { return RolledBack(NOT_FOUND); }
      if !CurrencyAgrees(s.currency, wallets[s.wallet].currency) { return RolledBack(CURRENCY_MISMATCH); }
      var written := WriteReversal(i, reference, original.value);
      if !written { return RolledBack(DUPLICATE_KEY); }
      return Committed(View(), true);
    }

    /** The business half of a provider reversal, in its own transaction. */
    method ReverseBusinessObjects(i: nat, providerStatus: string) returns (outcome: Outcome)
      modifies this
      ensures EndsAs(old(View()), outcome, View(), ReverseBusiness(old(View()), i, providerStatus))
    {
      if i >= |settlements| { return RolledBack(NOT_FOUND); }
      var s := settlements[i];
      if s.sourceType == PAYMENT_REQUEST {
        if s.sourceId in requests && requests[s.sourceId].org == s.org && requests[s.sourceId].status == SETTLED {
          requests := requests[s.sourceId := requests[s.sourceId].(status := APPROVED)];
        }
      } else if s.sourceType == PAYSLIP {
        if s.sourceId in slips && slips[s.sourceId].org == s.org && slips[s.sourceId].status == PAID {
          slips := slips[s.sourceId := slips[s.sourceId].(status := UNDONE)];
        }
        var aggregated := UpdatePayrollAggregate(s.sourceId, false);
      }
      settlements := settlements[i := s.(providerStatus := Some(providerStatus))];
      return Committed(View(), true);
    }

    method PrepareProviderSettlement(source: Source, key: string, internalReference: string) returns (outcome: Outcome)
      modifies this
      ensures EndsAs(old(View()), outcome, View(), PrepareProvider(old(View()), source, key, internalReference))
    {
      if FindSource(settlements, source.org, source.sourceType, source.sourceId).Some? { return Committed(View(), false); }
      if source.wallet >= |wallets| || wallets[source.wallet].org != source.org { return RolledBack(NOT_FOUND); }
      if !CurrencyAgrees(source.currency, wallets[source.wallet].currency) { return RolledBack(CURRENCY_MISMATCH); }
      var s := Prepared(source, key, internalReference, Normalize(source.currency));
      if !SettlementFits(settlements, |settlements|, s) { return RolledBack(DUPLICATE_KEY); }
      settlements := settlements + [s];
      return Committed(View(), true);
    }

    /** Consumes the reservation of a manual settlement and posts its debit row; the caller undoes a failure. */
    method ConsumeAndDebit(source: Source, internalReference: string, externalReference: string) returns (problem: Option<Problem>)
      requires source.wallet < |wallets|
      modifies this`wallets, this`ledger
      ensures var db := old(View());
              var consumed := Consume(db.wallets[source.wallet], source.org, source.amount, Normalize(source.currency));
              && (problem.None? <==> consumed.Ok? && EntryFits(db.ledger, ManualDebit(db, source, consumed.value, internalReference, externalReference)))
              && (problem.None? ==> wallets == db.wallets[source.wallet := consumed.value]
                                    && ledger == db.ledger + [ManualDebit(db, source, consumed.value, internalReference, externalReference)])
    {
      problem := ConsumeWalletReservation(source.org, source.wallet, source.amount, Normalize(source.currency));
      if problem.None? {
        var created := CreateEntry(ManualDebit(View(), source, wallets[source.wallet], internalReference, externalReference));
        if !created { problem := Some(DUPLICATE_KEY); }
      }
    }

    /** Reserves the amount of a manual settlement and writes its row. */
    method ReserveAndWriteRow(source: Source, i: nat, row: Settlement) returns (problem: Option<Problem>)
      requires i <= |settlements|
      modifies this
      ensures var db := old(View());
              && (problem.None? <==> WalletRow(db, source.wallet, source.org).Ok?
                                     && Reserve(db.wallets[source.wallet], source.org, source.amount, Normalize(source.currency)).Ok?
                                     && SettlementFits(db.settlements, i, row))
              && (problem.None? ==> View() == db.(
                    wallets := db.wallets[source.wallet := Reserve(db.wallets[source.wallet], source.org, source.amount, Normalize(source.currency)).value],
                    settlements := if i < |db.settlements| then db.settlements[i := row] else db.settlements + [row]))
              && (problem.Some? ==> View() == db)
    {
      var saved := View();
      problem := ReserveWalletBalance(source.org, source.wallet, source.amount, Normalize(source.currency));
      if problem.Some? { return; }
      if !SettlementFits(settlements, i, row) { Rollback(saved); return Some(DUPLICATE_KEY); }
      settlements := if i < |settlements| then settlements[i := row] else settlements + [row];
    }

    /** The writes after the reservation: consume, debit, complete; the caller undoes a failure. */
    method SettleHeld(source: Source, i: nat, row: Settlement, externalReference: string, ghost db: Database) returns (problem: Option<Problem>)
      requires i <= |db.settlements| && WalletRow(db, source.wallet, source.org).Ok? && SettlementFits(db.settlements, i, row)
      requires Reserve(db.wallets[source.wallet], source.org, source.amount, Normalize(source.currency)).Ok?
      requires View() == ManualHeld(db, source, i, row)
      modifies this
      ensures var spec := ManualWrites(db, source, i, row, externalReference);
        (problem.None? <==> spec.Ok?) && (problem.None? ==> View() == spec.value)
    {
      problem := ConsumeAndDebit(source, row.internalReference, externalReference);
      if problem.None? { CompleteRow(i, row, db.settlements); }
      ManualRest(db, source, i, row, externalReference);
    }

    /** The writes of a manual settlement: reserve, write the row, consume, debit, complete. */
    method WriteManual(source: Source, i: nat, row: Settlement, externalReference: string) returns (problem: Option<Problem>)
      requires i <= |settlements|
      modifies this
      ensures var db := old(View());
              var spec := ManualWrites(db, source, i, row, externalReference);
              && (problem.None? <==> spec.Ok?) && View() == if problem.None? then spec.value else db
    {
      var saved := View();
      problem := ReserveAndWriteRow(source, i, row);
      if problem.Some? { return; }
      problem := SettleHeld(source, i, row, externalReference, saved);
      if problem.Some? { Rollback(saved); }
    }

    /** The last write of a manual settlement, on the row just written. */
    method CompleteRow(i: nat, row: Settlement, ghost before: seq<Settlement>)
      requires i <= |before| && settlements == if i < |before| then before[i := row] else before + [row]
      modifies this`settlements
      ensures var done := row.(status := SUCCEEDED, releasedAt := true);
        settlements == if i < |before| then before[i := done] else before + [done]
    {
      settlements := settlements[i := row.(status := SUCCEEDED, releasedAt := true)];
    }

    /** Reserves and consumes in one transaction, taking over a PREPARED provider row when there is one. */
    method CompleteManualSettlement(source: Source, key: string, externalReference: string, internalReference: string) returns (outcome: Outcome)
      modifies this
      ensures EndsAs(old(View()), outcome, View(), CompleteManual(old(View()), source, key, externalReference, internalReference))
    {
      var existing := FindSource(settlements, source.org, source.sourceType, source.sourceId);
      var i := |settlements|;
      var row := Prepared(source, key, internalReference, Normalize(source.currency));
      if existing.Some? {
        i := existing.value;
        row := settlements[i];
        if row.via == MANUAL && row.externalReference == Some(externalReference) && row.status == SUCCEEDED { return Committed(View(), false); }
        if !(row.via == PROVIDER && row.status == PREPARED) { return RolledBack(ALREADY_SETTLED); }
        if !CurrencyAgrees(source.currency, row.currency) { return RolledBack(CURRENCY_MISMATCH); }
      }
      if !CurrencyAgrees(source.currency, source.currency) { return RolledBack(CURRENCY_MISMATCH); }
      var problem := WriteManual(source, i, ManualRow(row, key, externalReference), externalReference);
      if problem.Some? { return RolledBack(problem.value); }
      return Committed(View(), true);
    }

    method ApplyFailure(i: nat, seen: Settlement, result: TransferResult) returns (problem: Option<Problem>)
      requires Matches(seen, result) && result.state == FAILURE && (seen.status != SUCCEEDED && seen.status != FAILED && seen.status != REVERSED)
      modifies this
      ensures View() == Applied(old(View()), i, seen, result)
      ensures problem.Some? <==> Throws(old(View()), i, seen, result)
    {
      var released := ReleaseSettlementReservation(seen.org, i);
      if released.RolledBack? { return Some(released.problem); }
      OverwriteColumns(i, None, Some(result.providerStatus), result.transferCode);
      return None;
    }

    method ApplyReversal(i: nat, seen: Settlement, result: TransferResult) returns (problem: Option<Problem>)
      requires Matches(seen, result) && result.state == REVERSAL && seen.status != FAILED && seen.status != REVERSED
      modifies this
      ensures View() == Applied(old(View()), i, seen, result)
      ensures problem.Some? <==> Throws(old(View()), i, seen, result)
    {
      var reversed := ReverseSucceededSettlement(seen.org, i, ReversalReference(result.reference));
      if reversed.RolledBack? { return Some(reversed.problem); }
      var undone := ReverseBusinessObjects(i, result.providerStatus);
      return None;
    }

    /** The result handler when nothing interleaves with it: its transaction and, when there is one, its second
        write, and the error it ends with, if any. */
    method ApplyProviderTransferResult(i: nat, seen: Settlement, result: TransferResult) returns (problem: Option<Problem>)
      modifies this
      ensures View() == Applied(old(View()), i, seen, result)
      ensures problem.Some? <==> Throws(old(View()), i, seen, result)
    {
      if !Matches(seen, result) { return Some(RESULT_MISMATCH); }
      if seen.status == SUCCEEDED || seen.status == FAILED || seen.status == REVERSED {
        if Repeats(seen.status, result.state) { return None; }
        if !(seen.status == SUCCEEDED && result.state == REVERSAL) { return Some(NOT_ELIGIBLE); }
      }
      match result.state {
        case SUCCESS =>
          var finalized := FinalizeProviderSettlementSuccess(i, result);
          return if finalized.RolledBack? then Some(finalized.problem) else None;
        case FAILURE =>
          problem := ApplyFailure(i, seen, result);
        case REVERSAL =>
          problem := ApplyReversal(i, seen, result);
        case NON_CONCLUSIVE =>
          if i >= |settlements| { return Some(NOT_FOUND); }
          OverwriteColumns(i, Some(PROVIDER_PROCESSING), Some(result.providerStatus), result.transferCode);
          return None;
      }
    }

    method OverwriteColumns(i: nat, status: Option<Status>, providerStatus: Option<string>, code: Option<string>)
      modifies this`settlements
      ensures View() == Land(old(View()), Overwrite(old(View()), i, status, providerStatus, code))
    {
      if i >= |settlements| { return; }
      var s := settlements[i];
      settlements := settlements[i := s.(
        status := if status.Some? then status.value else s.status,
        providerStatus := if providerStatus.Some? then providerStatus else s.providerStatus,
        transferCode := KeepCode(s, code))];
    }
  }
}
