/** What each transaction needs and what it leaves behind, spelled out on the tables: the conditions under which it does
    something new, every row it then writes, and that it touches nothing else. */
module Effects {
  import opened Prelude
  import opened Records
  import opened Wallets
  import opened Settlements

  // ----- unique keys -----

  /** A settlement row may be added or rewritten when no other row has its obligation, key, reference, external
      reference or reversal reference in its tenant, or its provider reference anywhere. */
  lemma SettlementFitsExactlyWhen(settlements: seq<Settlement>, i: nat, s: Settlement)
    ensures SettlementFits(settlements, i, s) <==>
      (forall k :: 0 <= k < |settlements| && k != i ==>
        var o := settlements[k];
        && (o.org == s.org ==>
              && (o.sourceType != s.sourceType || o.sourceId != s.sourceId)
              && o.idempotencyKey != s.idempotencyKey && o.internalReference != s.internalReference
              && (o.externalReference == None || o.externalReference != s.externalReference)
              && (o.reversalReference == None || o.reversalReference != s.reversalReference))
        && (o.paystack && s.paystack ==> o.transferReference == None || o.transferReference != s.transferReference))
  {
  }

  /** No ledger row of the tenant has the reference or the transfer reference, and none on the wallet the source and
      kind: a debit or credit row with them may be added. */
  predicate LedgerFree(db: Database, org: string, wallet: nat, kind: string, sourceType: string, sourceId: string,
                       reference: string, transferReference: Option<string>) {
    forall k :: 0 <= k < |db.ledger| ==>
      var o := db.ledger[k];
      && (o.org == org ==> o.reference != reference && (o.transferReference == None || o.transferReference != transferReference))
      && !(o.wallet == wallet && o.kind == kind && o.sourceType == Some(sourceType) && o.sourceId == Some(sourceId))
  }

  lemma EntryFitsExactlyWhen(db: Database, e: Entry)
    requires e.sourceType.Some? && e.sourceId.Some?
    ensures EntryFits(db.ledger, e) <==>
      LedgerFree(db, e.org, e.wallet, e.kind, e.sourceType.value, e.sourceId.value, e.reference, e.transferReference)
  {
  }

  // ----- preparation -----

  /** The obligation has no settlement yet. */
  predicate Fresh(db: Database, org: string, sourceType: string, sourceId: string) {
    forall k :: 0 <= k < |db.settlements| ==>
      !(db.settlements[k].org == org && db.settlements[k].sourceType == sourceType && db.settlements[k].sourceId == sourceId)
  }

  /** A preparation adds a row exactly for an obligation without one, on a wallet of its tenant in its currency, with
      unused keys; nothing is reserved yet. */
  lemma PreparingActsExactlyWhen(db: Database, source: Source, key: string, reference: string)
    ensures var o := PrepareProvider(db, source, key, reference);
      && (o.Committed? && o.acted <==>
          && Fresh(db, source.org, source.sourceType, source.sourceId)
          && source.wallet < |db.wallets| && db.wallets[source.wallet].org == source.org
          && Normalize(source.currency) != "" && Normalize(source.currency) == Normalize(db.wallets[source.wallet].currency)
          && forall k :: 0 <= k < |db.settlements| && db.settlements[k].org == source.org ==>
               db.settlements[k].idempotencyKey != key && db.settlements[k].internalReference != reference)
      && (!Fresh(db, source.org, source.sourceType, source.sourceId) ==> o == Committed(db, false))
      && (o.Committed? && !o.acted ==> !Fresh(db, source.org, source.sourceType, source.sourceId))
  {
    var s := Prepared(source, key, reference, Normalize(source.currency));
    SettlementFitsExactlyWhen(db.settlements, |db.settlements|, s);
  }

  lemma PreparingWrites(db: Database, source: Source, key: string, reference: string)
    requires PrepareProvider(db, source, key, reference).Committed? && PrepareProvider(db, source, key, reference).acted
    ensures var d := PrepareProvider(db, source, key, reference).db;
      && d == db.(settlements := d.settlements) && |d.settlements| == |db.settlements| + 1 && d.settlements[..|db.settlements|] == db.settlements
      && var s := d.settlements[|db.settlements|];
         && s.org == source.org && s.wallet == source.wallet && s.sourceType == source.sourceType && s.sourceId == source.sourceId
         && s.amount == source.amount && s.currency == Normalize(source.currency)
         && s.internalReference == reference && s.idempotencyKey == key
         && s.via == PROVIDER && s.status == PREPARED && s.paystack
         && !s.reservedAt && !s.releasedAt && !s.initiationClaimed && !s.initiationAttempted
         && s.transferReference == s.recipientReference == s.transferCode == s.providerStatus == s.externalReference == s.reversalReference == None
         && s.reversalLedger == None
  {
  }

  // ----- claim -----

  /** The wallet of a settlement, of its tenant and in its currency. */
  predicate WalletOpen(db: Database, s: Settlement) {
    s.wallet < |db.wallets| && db.wallets[s.wallet].org == s.org && 0 <= s.amount && Denominated(db.wallets[s.wallet], s.currency)
  }

  /** No other provider row uses the reference this row is about to send. */
  predicate ReferenceFree(db: Database, i: nat)
    requires i < |db.settlements|
  {
    db.settlements[i].paystack ==>
      forall k :: 0 <= k < |db.settlements| && k != i ==>
        !(db.settlements[k].paystack && db.settlements[k].transferReference == Some(db.settlements[i].internalReference))
  }

  lemma ReferenceFits(db: Database, i: nat, t: Settlement)
    requires i < |db.settlements| && SettlementFits(db.settlements, i, db.settlements[i])
    requires t == db.settlements[i].(status := t.status, reservedAt := t.reservedAt, initiationClaimed := t.initiationClaimed,
                                     transferReference := Some(db.settlements[i].internalReference))
    ensures SettlementFits(db.settlements, i, t) <==> ReferenceFree(db, i)
  {
    SettlementFitsExactlyWhen(db.settlements, i, db.settlements[i]);
    SettlementFitsExactlyWhen(db.settlements, i, t);
  }

  predicate CanBeClaimed(db: Database, org: string, i: nat) {
    && i < |db.settlements| && db.settlements[i].org == org && !db.settlements[i].initiationClaimed && ReferenceFree(db, i)
    && match db.settlements[i].status
       case RESERVED => true
       case PREPARED => WalletOpen(db, db.settlements[i])
                        && db.settlements[i].amount <= db.wallets[db.settlements[i].wallet].balance - db.wallets[db.settlements[i].wallet].reserved
       case _ => false
  }

  /** An initiator is let through exactly for an unclaimed row that is reserved, or prepared with its amount spendable.
      A prepared row's amount is reserved on the way; the row becomes processing under its own reference. */
  lemma ClaimingActsExactlyWhen(db: Database, org: string, i: nat)
    requires i < |db.settlements| ==> SettlementFits(db.settlements, i, db.settlements[i])
    ensures var o := ReserveAndClaim(db, org, i);
      && (o.Committed? && o.acted <==> CanBeClaimed(db, org, i))
      && (o.Committed? && o.acted ==>
            var s := db.settlements[i];
            && o.db.settlements == db.settlements[i := s.(status := PROVIDER_PROCESSING, initiationClaimed := true,
                 reservedAt := s.reservedAt || s.status == PREPARED, transferReference := Some(s.internalReference))]
            && o.db == db.(settlements := o.db.settlements, wallets := o.db.wallets)
            && o.db.wallets == if s.status != PREPARED then db.wallets
                               else db.wallets[s.wallet := db.wallets[s.wallet].(reserved := db.wallets[s.wallet].reserved + s.amount)])
  {
    if i < |db.settlements| && db.settlements[i].org == org {
      var s := db.settlements[i];
      if s.status == PREPARED {
        PreparedIsClaimed(db, org, i);
      } else if s.status == RESERVED {
        ReferenceFits(db, i, s.(status := PROVIDER_PROCESSING, initiationClaimed := true, transferReference := Some(s.internalReference)));
      }
    }
  }

  lemma PreparedIsClaimed(db: Database, org: string, i: nat)
    requires i < |db.settlements| && db.settlements[i].org == org && db.settlements[i].status == PREPARED
    requires SettlementFits(db.settlements, i, db.settlements[i])
    ensures var o := ReserveAndClaim(db, org, i);
      && (o.Committed? && o.acted <==> CanBeClaimed(db, org, i))
      && (o.Committed? && o.acted ==>
            var s := db.settlements[i];
            && o.db.settlements == db.settlements[i := s.(status := PROVIDER_PROCESSING, initiationClaimed := true,
                 reservedAt := true, transferReference := Some(s.internalReference))]
            && o.db == db.(settlements := o.db.settlements, wallets := o.db.wallets)
            && o.db.wallets == db.wallets[s.wallet := db.wallets[s.wallet].(reserved := db.wallets[s.wallet].reserved + s.amount)])
  {
    var s := db.settlements[i];
    var marked := s.(status := RESERVED, reservedAt := true, transferReference := Some(s.internalReference));
    ReferenceFits(db, i, marked);
    if ReferenceFree(db, i) && s.wallet < |db.wallets| && db.wallets[s.wallet].org == org {
      var w := db.wallets[s.wallet];
      UpdatesLandExactlyWhen(w, org, s.amount, s.currency);
      if Reserve(w, org, s.amount, s.currency).Ok? {
        var d := SetWallet(db.(settlements := db.settlements[i := marked]), s.wallet, Reserve(w, org, s.amount, s.currency).value);
        SameOthers(db, d, i, marked.(status := PROVIDER_PROCESSING, initiationClaimed := true));
      }
    }
  }

  /** Rewriting a row twice fits as rewriting it once. */
  lemma SameOthers(db: Database, d: Database, i: nat, t: Settlement)
    requires i < |db.settlements| && |d.settlements| == |db.settlements|
    requires forall k :: 0 <= k < |db.settlements| && k != i ==> d.settlements[k] == db.settlements[k]
    ensures SettlementFits(d.settlements, i, t) <==> SettlementFits(db.settlements, i, t)
  {
  }

  /** A row past its claim, or ended, is handed to nobody and stays as it is. */
  lemma ClaimingLeavesAlone(db: Database, org: string, i: nat)
    requires i < |db.settlements| && db.settlements[i].org == org && db.settlements[i].status != PREPARED
    requires db.settlements[i].status != RESERVED || db.settlements[i].initiationClaimed
    ensures ReserveAndClaim(db, org, i) == Committed(db, false)
  {
  }

  // ----- success -----

  /** The result names the row's reference, amount and currency, and its recipient where both name one. */
  predicate SameTransfer(s: Settlement, result: TransferResult) {
    && s.transferReference == Some(result.reference) && s.amount == result.amountMinor && s.currency == result.currency
    && (s.recipientReference in [None, Some(""), result.recipientReference] || result.recipientReference in [None, Some("")])
  }

  lemma MatchesExactlyWhen(s: Settlement, result: TransferResult)
    ensures Matches(s, result) <==> SameTransfer(s, result)
  {
  }

  /** The obligation can still be paid: an approved request, or an unpaid payslip with its run. */
  predicate Payable(db: Database, s: Settlement) {
    if s.sourceType == "ACCOUNTING_PAYMENT_REQUEST" then
      s.sourceId in db.requests && db.requests[s.sourceId].org == s.org && db.requests[s.sourceId].status == APPROVED
    else if s.sourceType == "PAYROLL_PAYSLIP" then
      s.sourceId in db.slips && db.slips[s.sourceId].org == s.org && db.slips[s.sourceId].status != PAID && db.slips[s.sourceId].run in db.runs
    else true
  }

  lemma PaidExactlyWhen(db: Database, s: Settlement)
    ensures MarkPaid(db, s).Ok? <==> Payable(db, s)
    ensures MarkPaid(db, s).Ok? ==>
      var d := MarkPaid(db, s).value;
      && d == db.(slips := d.slips, runs := d.runs, requests := d.requests)
      && (s.sourceType == "ACCOUNTING_PAYMENT_REQUEST" ==>
            && d.requests == db.requests[s.sourceId := db.requests[s.sourceId].(status := SETTLED)]
            && d.slips == db.slips && d.runs == db.runs)
      && (s.sourceType == "PAYROLL_PAYSLIP" ==>
            && d.slips == db.slips[s.sourceId := db.slips[s.sourceId].(status := PAID)] && d.requests == db.requests
            && RunFollows(d, db, db.slips[s.sourceId].run, s.org))
  {
    assert "ACCOUNTING_PAYMENT_REQUEST"[0] != "PAYROLL_PAYSLIP"[0];
    if s.sourceType == "PAYROLL_PAYSLIP" && Payable(db, s) {
      var marked := db.(slips := db.slips[s.sourceId := db.slips[s.sourceId].(status := PAID)]);
      var run := db.slips[s.sourceId].run;
      assert Unpaid(marked, run, s.org) <==> exists id :: id in marked.slips && marked.slips[id].run == run && marked.slips[id].org == s.org && marked.slips[id].status != PAID;
    }
  }

  /** Of all runs only this one may have changed, and only in its status: disbursed exactly when every payslip of it in
      the tenant is paid, disbursing otherwise. */
  ghost predicate RunFollows(d: Database, db: Database, run: string, org: string) {
    && run in db.runs && d.runs.Keys == db.runs.Keys
    && (forall r :: r in db.runs && r != run ==> d.runs[r] == db.runs[r])
    && d.runs[run].org == db.runs[run].org
    && (d.runs[run].status == DISBURSED || d.runs[run].status == DISBURSING)
    && (d.runs[run].status == DISBURSED <==>
          forall id :: id in d.slips && d.slips[id].run == run && d.slips[id].org == org ==> d.slips[id].status == PAID)
  }

  predicate CanSucceed(db: Database, i: nat, result: TransferResult) {
    && i < |db.settlements|
    && var s := db.settlements[i];
       && s.status in [RESERVED, PROVIDER_PROCESSING, UNKNOWN] && s.reservedAt && !s.releasedAt
       && SameTransfer(s, result) && WalletOpen(db, s)
       && s.amount <= db.wallets[s.wallet].reserved && s.amount <= db.wallets[s.wallet].balance
       && LedgerFree(db, s.org, s.wallet, "PROVIDER_" + s.sourceType, s.sourceType, s.sourceId, s.internalReference, s.transferReference)
       && Payable(db, s)
  }

  /** The money part of a success: the wallet loses the amount and its reservation, the debit row says so. */
  predicate DebitWritten(db: Database, d: Database, s: Settlement)
    requires s.wallet < |db.wallets|
  {
    var w := db.wallets[s.wallet];
    && d.wallets == db.wallets[s.wallet := w.(balance := w.balance - s.amount, reserved := w.reserved - s.amount)]
    && |d.ledger| == |db.ledger| + 1 && d.ledger[..|db.ledger|] == db.ledger
    && var e := d.ledger[|db.ledger|];
       && e.id == e.createdAt == |db.ledger| && e.org == s.org && e.wallet == s.wallet && e.kind == "PROVIDER_" + s.sourceType
       && e.direction == DEBIT && e.amount == s.amount && e.before == w.balance && e.after == w.balance - s.amount
       && e.reference == s.internalReference && e.transferReference == s.transferReference
       && e.sourceType == Some(s.sourceType) && e.sourceId == Some(s.sourceId) && e.reversalOf == None
  }

  /** A success is finalised exactly on an active, still reserved row that the result matches, whose wallet holds the
      amount, whose debit row is new and whose obligation can be paid. */
  lemma FinalizingActsExactlyWhen(db: Database, i: nat, result: TransferResult)
    ensures var o := FinalizeSuccess(db, i, result);
      && (o.Committed? && o.acted <==> CanSucceed(db, i, result))
      && (i < |db.settlements| && db.settlements[i].status == SUCCEEDED <==> o == Committed(db, false))
  {
    if i < |db.settlements| {
      var s := db.settlements[i];
      MatchesExactlyWhen(s, result);
      if s.wallet < |db.wallets| {
        var w := db.wallets[s.wallet];
        UpdatesLandExactlyWhen(w, s.org, s.amount, s.currency);
        if Consume(w, s.org, s.amount, s.currency).Ok? {
          var after := Consume(w, s.org, s.amount, s.currency).value;
          var e := ProviderDebit(db, s, after);
          EntryFitsExactlyWhen(db, e);
          PaidExactlyWhen(SetWallet(db, s.wallet, after).(ledger := db.ledger + [e]), s);
        }
      }
    }
  }

  /** What a finalised success writes: wallet, debit row, settlement row, and the obligation with its run. */
  lemma FinalizingWrites(db: Database, i: nat, result: TransferResult)
    requires FinalizeSuccess(db, i, result).Committed? && FinalizeSuccess(db, i, result).acted
    ensures var d := FinalizeSuccess(db, i, result).db;
      && i < |db.settlements| && db.settlements[i].wallet < |db.wallets|
      && var s := db.settlements[i];
         && DebitWritten(db, d, s)
         && d.settlements == db.settlements[i := s.(
              status := SUCCEEDED, providerStatus := Some(result.providerStatus), releasedAt := true,
              transferCode := if result.transferCode == None then s.transferCode else result.transferCode)]
         && (s.sourceType == "ACCOUNTING_PAYMENT_REQUEST" ==>
               && s.sourceId in db.requests && d.slips == db.slips && d.runs == db.runs
               && d.requests == db.requests[s.sourceId := db.requests[s.sourceId].(status := SETTLED)])
         && (s.sourceType == "PAYROLL_PAYSLIP" ==>
               && s.sourceId in db.slips && d.slips == db.slips[s.sourceId := db.slips[s.sourceId].(status := PAID)]
               && d.requests == db.requests && RunFollows(d, db, db.slips[s.sourceId].run, s.org))
  {
    FinalizingActsExactlyWhen(db, i, result);
    var s := db.settlements[i];
    var w := db.wallets[s.wallet];
    UpdatesLandExactlyWhen(w, s.org, s.amount, s.currency);
    var after := Consume(w, s.org, s.amount, s.currency).value;
    var posted := SetWallet(db, s.wallet, after).(ledger := db.ledger + [ProviderDebit(db, s, after)]);
    PaidExactlyWhen(posted, s);
  }

  // ----- release -----

  /** A reservation is given back exactly on an active, still reserved row of the tenant whose wallet holds the amount;
      the wallet loses the reservation only, the row is failed, and nothing else changes. */
  lemma ReleasingActsExactlyWhen(db: Database, org: string, i: nat)
    ensures var o := ReleaseReservation(db, org, i);
      && (o.Committed? && o.acted <==>
          && i < |db.settlements| && db.settlements[i].org == org
          && db.settlements[i].status in [RESERVED, PROVIDER_PROCESSING, UNKNOWN]
          && db.settlements[i].reservedAt && !db.settlements[i].releasedAt
          && WalletOpen(db, db.settlements[i]) && db.settlements[i].amount <= db.wallets[db.settlements[i].wallet].reserved)
      && (i < |db.settlements| && db.settlements[i].org == org && db.settlements[i].status == FAILED && db.settlements[i].releasedAt <==>
            o == Committed(db, false))
      && (o.Committed? && o.acted ==>
            var s := db.settlements[i];
            o.db == db.(settlements := db.settlements[i := s.(status := FAILED, releasedAt := true)],
                        wallets := db.wallets[s.wallet := db.wallets[s.wallet].(reserved := db.wallets[s.wallet].reserved - s.amount)]))
  {
    if i < |db.settlements| && db.settlements[i].wallet < |db.wallets| {
      var s := db.settlements[i];
      UpdatesLandExactlyWhen(db.wallets[s.wallet], s.org, s.amount, s.currency);
    }
  }

  // ----- reversal -----

  /** A debit row of this settlement. */
  predicate IsDebit(e: Entry, s: Settlement) {
    e.direction == DEBIT && e.wallet == s.wallet && e.sourceType == Some(s.sourceType) && e.sourceId == Some(s.sourceId)
  }

  predicate CanBeReversed(db: Database, org: string, i: nat, reference: string) {
    && i < |db.settlements| && db.settlements[i].org == org
    && var s := db.settlements[i];
       && s.status == SUCCEEDED
       && s.wallet < |db.wallets| && db.wallets[s.wallet].org == org
       && Normalize(s.currency) != "" && Normalize(s.currency) == Normalize(db.wallets[s.wallet].currency)
       && (exists k :: 0 <= k < |db.ledger| && IsDebit(db.ledger[k], s))
       && LedgerFree(db, s.org, s.wallet, "REVERSAL_" + s.sourceType, s.sourceType, s.sourceId, reference, Some(reference))
       && (forall k :: 0 <= k < |db.settlements| && k != i && db.settlements[k].org == org ==> db.settlements[k].reversalReference != Some(reference))
  }

  predicate AlreadyReversed(db: Database, org: string, i: nat, reference: string) {
    && i < |db.settlements| && db.settlements[i].org == org && db.settlements[i].status == REVERSED
    && db.settlements[i].reversalReference == Some(reference)
  }

  lemma ReversalFits(db: Database, i: nat, t: Settlement)
    requires i < |db.settlements| && SettlementFits(db.settlements, i, db.settlements[i]) && t.reversalReference.Some?
    requires t == db.settlements[i].(status := t.status, reversalReference := t.reversalReference, reversalLedger := t.reversalLedger)
    ensures SettlementFits(db.settlements, i, t) <==>
      forall k :: 0 <= k < |db.settlements| && k != i && db.settlements[k].org == t.org ==> db.settlements[k].reversalReference != t.reversalReference
  {
    SettlementFitsExactlyWhen(db.settlements, i, db.settlements[i]);
    SettlementFitsExactlyWhen(db.settlements, i, t);
  }

  /** A success is reversed exactly on a row that reads SUCCEEDED, has a debit row, and for a reference that is new in
      the ledger and on the settlements of the tenant. */
  lemma ReversingActsExactlyWhen(db: Database, org: string, i: nat, reference: string)
    requires i < |db.settlements| ==> SettlementFits(db.settlements, i, db.settlements[i])
    ensures var o := ReverseSucceeded(db, org, i, reference);
      && (o.Committed? && o.acted <==> CanBeReversed(db, org, i, reference))
      && (AlreadyReversed(db, org, i, reference) <==> o == Committed(db, false))
  {
    if i < |db.settlements| && db.settlements[i].org == org && db.settlements[i].status == SUCCEEDED
       && FirstDebit(db.ledger, db.settlements[i]).Some? && WalletRow(db, db.settlements[i].wallet, org).Ok? {
      var s := db.settlements[i];
      var w := db.wallets[s.wallet];
      var original := FirstDebit(db.ledger, s).value;
      assert IsDebit(db.ledger[original], s);
      EntryFitsExactlyWhen(db, ReversalCredit(db, s, w.balance, reference, original));
      ReversalFits(db, i, s.(status := REVERSED, reversalReference := Some(reference), reversalLedger := Some(|db.ledger|)));
    }
  }

  /** The reversal puts the amount back on the wallet, with a credit row that points at the earliest debit row, and
      names that row on the settlement. */
  lemma ReversingWrites(db: Database, org: string, i: nat, reference: string)
    requires ReverseSucceeded(db, org, i, reference).Committed? && ReverseSucceeded(db, org, i, reference).acted
    ensures var d := ReverseSucceeded(db, org, i, reference).db;
      && i < |db.settlements| && db.settlements[i].wallet < |db.wallets|
      && var s := db.settlements[i];
         var w := db.wallets[s.wallet];
         && d == db.(wallets := db.wallets[s.wallet := w.(balance := w.balance + s.amount)], ledger := d.ledger,
                     settlements := db.settlements[i := s.(status := REVERSED, reversalReference := Some(reference), reversalLedger := Some(|db.ledger|))])
         && |d.ledger| == |db.ledger| + 1 && d.ledger[..|db.ledger|] == db.ledger
         && var e := d.ledger[|db.ledger|];
            && e.id == e.createdAt == |db.ledger| && e.org == s.org && e.wallet == s.wallet && e.kind == "REVERSAL_" + s.sourceType
            && e.direction == CREDIT && e.amount == s.amount && e.before == w.balance && e.after == w.balance + s.amount
            && e.reference == reference && e.transferReference == Some(reference)
            && e.sourceType == Some(s.sourceType) && e.sourceId == Some(s.sourceId)
            && e.reversalOf.Some? && e.reversalOf.value < |db.ledger| && IsDebit(db.ledger[e.reversalOf.value], s)
            && forall k :: 0 <= k < e.reversalOf.value ==> !IsDebit(db.ledger[k], s)
  {
    var s := db.settlements[i];
    var original := FirstDebit(db.ledger, s).value;
    forall k | 0 <= k < original ensures !IsDebit(db.ledger[k], s) { assert !DebitOf(db.ledger[k], s); }
  }

  // ----- the business half of a reversal -----

  /** The run of a reopened payslip: disbursing again, unless it was cancelled or is none of the tenant's. */
  predicate RunReopened(d: Database, db: Database, slip: Payslip) {
    d.runs == if slip.run in db.runs && db.runs[slip.run].org == slip.org && db.runs[slip.run].status != CANCELLED
              then db.runs[slip.run := db.runs[slip.run].(status := DISBURSING)] else db.runs
  }

  predicate RequestReopened(d: Database, db: Database, s: Settlement) {
    && d.slips == db.slips && d.runs == db.runs
    && d.requests == if s.sourceId in db.requests && db.requests[s.sourceId] == PaymentRequest(s.org, SETTLED)
                     then db.requests[s.sourceId := PaymentRequest(s.org, APPROVED)] else db.requests
  }

  predicate SlipReopened(d: Database, db: Database, s: Settlement) {
    && d.requests == db.requests
    && (if s.sourceId !in db.slips then d.slips == db.slips && d.runs == db.runs
        else
          && RunReopened(d, db, db.slips[s.sourceId])
          && d.slips == if db.slips[s.sourceId].org == s.org && db.slips[s.sourceId].status == PAID
                        then db.slips[s.sourceId := db.slips[s.sourceId].(status := UNDONE)] else db.slips)
  }

  /** The business half always lands: a settled request reads approved again, a paid payslip reads undone and its run
      is reopened; of the settlements only the provider's word is noted, and no money moves. */
  lemma UndoingBusinessWrites(db: Database, i: nat, providerStatus: string)
    requires i < |db.settlements|
    ensures var o := ReverseBusiness(db, i, providerStatus);
      && o.Committed? && o.acted
      && var d, s := o.db, db.settlements[i];
         && d.wallets == db.wallets && d.ledger == db.ledger
         && d.settlements == db.settlements[i := s.(providerStatus := Some(providerStatus))]
         && (s.sourceType == "ACCOUNTING_PAYMENT_REQUEST" ==> RequestReopened(d, db, s))
         && (s.sourceType == "PAYROLL_PAYSLIP" ==> SlipReopened(d, db, s))
  {
    assert "ACCOUNTING_PAYMENT_REQUEST"[0] != "PAYROLL_PAYSLIP"[0];
    var s := db.settlements[i];
    if s.sourceType == "PAYROLL_PAYSLIP" && s.sourceId in db.slips {
      var slips := if db.slips[s.sourceId].org == s.org && db.slips[s.sourceId].status == PAID
                   then db.slips[s.sourceId := db.slips[s.sourceId].(status := UNDONE)] else db.slips;
      assert slips[s.sourceId].run == db.slips[s.sourceId].run && slips[s.sourceId].org == db.slips[s.sourceId].org;
    }
  }

  // ----- manual settlement -----

  /** The settlement of the obligation was already completed by hand with the same external reference. */
  predicate CompletedBefore(db: Database, k: nat, externalReference: string)
    requires k < |db.settlements|
  {
    db.settlements[k].via == MANUAL && db.settlements[k].externalReference == Some(externalReference) && db.settlements[k].status == SUCCEEDED
  }

  predicate TakenOver(db: Database, k: nat, source: Source)
    requires k < |db.settlements|
  {
    && db.settlements[k].via == PROVIDER && db.settlements[k].status == PREPARED
    && Normalize(source.currency) != "" && Normalize(source.currency) == Normalize(db.settlements[k].currency)
  }

  /** The money part of a manual settlement needs a wallet of the tenant in the currency with the amount spendable, and
      an unused debit row. */
  predicate CanBePaid(db: Database, source: Source, reference: string, externalReference: string) {
    && LedgerFree(db, source.org, source.wallet, "MANUAL_" + source.sourceType, source.sourceType, source.sourceId, reference, Some(externalReference))
    && source.wallet < |db.wallets|
    && var w := db.wallets[source.wallet];
       && w.org == source.org && Denominated(w, source.currency)
       && 0 <= source.amount <= w.balance - w.reserved && 0 <= w.reserved
  }

  lemma NormalizedDenominates(w: Wallet, currency: string)
    ensures Denominated(w, Normalize(currency)) <==> Denominated(w, currency)
  {
    NormalizeIdempotent(currency);
  }

  /** The row a manual settlement leaves: the one it took over or a new one, with the hand-given key and reference. */
  predicate CompletedRow(t: Settlement, source: Source, key: string, externalReference: string) {
    && t.org == source.org && t.sourceType == source.sourceType && t.sourceId == source.sourceId
    && t.via == MANUAL && t.status == SUCCEEDED && !t.paystack && t.reservedAt && t.releasedAt
    && t.idempotencyKey == key && t.externalReference == Some(externalReference)
    && t.transferReference == None && t.recipientReference == None
  }

  predicate ManualDebitWritten(db: Database, d: Database, source: Source, reference: string, externalReference: string)
    requires source.wallet < |db.wallets|
  {
    var w := db.wallets[source.wallet];
    && d.wallets == db.wallets[source.wallet := w.(balance := w.balance - source.amount)]
    && |d.ledger| == |db.ledger| + 1 && d.ledger[..|db.ledger|] == db.ledger
    && var e := d.ledger[|db.ledger|];
       && e.id == e.createdAt == |db.ledger| && e.org == source.org && e.wallet == source.wallet && e.kind == "MANUAL_" + source.sourceType
       && e.direction == DEBIT && e.amount == source.amount && e.before == w.balance && e.after == w.balance - source.amount
       && e.reference == reference && e.transferReference == Some(externalReference)
       && e.sourceType == Some(source.sourceType) && e.sourceId == Some(source.sourceId) && e.reversalOf == None
  }

  /** Reserving and consuming at once. */
  lemma ReservedAndConsumed(w: Wallet, org: string, amount: int, currency: string)
    ensures var c := Normalize(currency);
      var paid := Reserve(w, org, amount, c).Ok? && Consume(Reserve(w, org, amount, c).value, org, amount, c).Ok?;
      && (paid <==> w.org == org && Denominated(w, currency) && 0 <= amount <= w.balance - w.reserved && 0 <= w.reserved)
      && (paid ==> Consume(Reserve(w, org, amount, c).value, org, amount, c) == Ok(w.(balance := w.balance - amount)))
  {
    var c := Normalize(currency);
    NormalizedDenominates(w, currency);
    UpdatesLandExactlyWhen(w, org, amount, c);
    if Reserve(w, org, amount, c).Ok? { UpdatesLandExactlyWhen(Reserve(w, org, amount, c).value, org, amount, c); }
  }

  lemma ManualMoneyLands(db: Database, source: Source, i: nat, row: Settlement, externalReference: string)
    requires i <= |db.settlements|
    ensures ManualWrites(db, source, i, row, externalReference).Ok?
      <==> SettlementFits(db.settlements, i, row) && CanBePaid(db, source, row.internalReference, externalReference)
  {
    if source.wallet < |db.wallets| {
      var w := db.wallets[source.wallet];
      ReservedAndConsumed(w, source.org, source.amount, source.currency);
      EntryFitsExactlyWhen(db, ManualDebit(db, source, w.(balance := w.balance - source.amount), row.internalReference, externalReference));
    }
  }

  lemma ManualMoneyWrites(db: Database, source: Source, i: nat, row: Settlement, externalReference: string)
    requires i <= |db.settlements| && ManualWrites(db, source, i, row, externalReference).Ok?
    ensures source.wallet < |db.wallets|
    ensures var d, done := ManualWrites(db, source, i, row, externalReference).value, row.(status := SUCCEEDED, releasedAt := true);
      && ManualDebitWritten(db, d, source, row.internalReference, externalReference)
      && d == db.(wallets := d.wallets, ledger := d.ledger, settlements := d.settlements)
      && d.settlements == if i < |db.settlements| then db.settlements[i := done] else db.settlements + [done]
  {
    var w := db.wallets[source.wallet];
    ReservedAndConsumed(w, source.org, source.amount, source.currency);
    var after := w.(balance := w.balance - source.amount);
    var e := ManualDebit(db, source, after, row.internalReference, externalReference);
    assert ManualWrites(db, source, i, row, externalReference).value == SetWallet(db, source.wallet, after).(
      ledger := db.ledger + [e],
      settlements := ManualWrites(db, source, i, row, externalReference).value.settlements);
  }

  /** No other settlement of the tenant has the key or the external reference. */
  predicate KeysUnused(db: Database, i: nat, org: string, key: string, externalReference: string) {
    forall k :: 0 <= k < |db.settlements| && k != i && db.settlements[k].org == org ==>
      db.settlements[k].idempotencyKey != key && db.settlements[k].externalReference != Some(externalReference)
  }

  predicate ReferenceUnused(db: Database, org: string, reference: string) {
    forall k :: 0 <= k < |db.settlements| && db.settlements[k].org == org ==> db.settlements[k].internalReference != reference
  }

  /** An obligation without a settlement is completed by hand exactly when its money can be paid and its keys are new. */
  lemma CompletingNewActsExactlyWhen(db: Database, source: Source, key: string, externalReference: string, reference: string)
    requires Fresh(db, source.org, source.sourceType, source.sourceId)
    ensures var o := CompleteManual(db, source, key, externalReference, reference);
      && (o.Committed? && o.acted <==>
            && CanBePaid(db, source, reference, externalReference)
            && KeysUnused(db, |db.settlements|, source.org, key, externalReference) && ReferenceUnused(db, source.org, reference))
      && (o.Committed? ==>
            && o.acted && ManualDebitWritten(db, o.db, source, reference, externalReference)
            && o.db == db.(wallets := o.db.wallets, ledger := o.db.ledger, settlements := o.db.settlements)
            && |o.db.settlements| == |db.settlements| + 1 && o.db.settlements[..|db.settlements|] == db.settlements
            && var t := o.db.settlements[|db.settlements|];
               && CompletedRow(t, source, key, externalReference) && t.internalReference == reference
               && t.wallet == source.wallet && t.amount == source.amount && t.currency == Normalize(source.currency))
  {
    var n := |db.settlements|;
    assert FindSource(db.settlements, source.org, source.sourceType, source.sourceId).None?;
    var row := ManualRow(Prepared(source, key, reference, Normalize(source.currency)), key, externalReference);
    SettlementFitsExactlyWhen(db.settlements, n, row);
    ManualMoneyLands(db, source, n, row, externalReference);
    if ManualWrites(db, source, n, row, externalReference).Ok? { ManualMoneyWrites(db, source, n, row, externalReference); }
  }

  /** The row a hand completion takes over, as it leaves it. */
  predicate CompletedOver(t: Settlement, s: Settlement, source: Source, key: string, externalReference: string) {
    && CompletedRow(t, source, key, externalReference)
    && t.internalReference == s.internalReference && t.wallet == s.wallet && t.amount == s.amount && t.currency == s.currency
  }

  lemma OverFits(db: Database, i: nat, key: string, externalReference: string)
    requires i < |db.settlements| && SettlementFits(db.settlements, i, db.settlements[i])
    ensures SettlementFits(db.settlements, i, ManualRow(db.settlements[i], key, externalReference))
      <==> KeysUnused(db, i, db.settlements[i].org, key, externalReference)
  {
    SettlementFitsExactlyWhen(db.settlements, i, db.settlements[i]);
    SettlementFitsExactlyWhen(db.settlements, i, ManualRow(db.settlements[i], key, externalReference));
  }

  /** An obligation with a settlement: the same completion again changes nothing; a prepared provider row is taken over
      exactly when its currency agrees, the money can be paid under its reference and the keys are new; any other
      settlement stands in the way. */
  lemma CompletingOldActsExactlyWhen(db: Database, source: Source, i: nat, key: string, externalReference: string, reference: string)
    requires FindSource(db.settlements, source.org, source.sourceType, source.sourceId) == Some(i)
    requires SettlementFits(db.settlements, i, db.settlements[i])
    ensures var o, s := CompleteManual(db, source, key, externalReference, reference), db.settlements[i];
      && (CompletedBefore(db, i, externalReference) <==> o == Committed(db, false))
      && (o.Committed? && o.acted <==>
            && TakenOver(db, i, source) && CanBePaid(db, source, s.internalReference, externalReference)
            && KeysUnused(db, i, source.org, key, externalReference))
  {
    OverFits(db, i, key, externalReference);
    ManualMoneyLands(db, source, i, ManualRow(db.settlements[i], key, externalReference), externalReference);
  }

  /** The takeover rewrites the one row, with its own wallet, amount and reference, and debits what the caller named. */
  lemma CompletingOldWrites(db: Database, source: Source, i: nat, key: string, externalReference: string, reference: string)
    requires FindSource(db.settlements, source.org, source.sourceType, source.sourceId) == Some(i)
    requires CompleteManual(db, source, key, externalReference, reference).Committed? && CompleteManual(db, source, key, externalReference, reference).acted
    ensures var d, s := CompleteManual(db, source, key, externalReference, reference).db, db.settlements[i];
      && source.wallet < |db.wallets| && ManualDebitWritten(db, d, source, s.internalReference, externalReference)
      && d == db.(wallets := d.wallets, ledger := d.ledger, settlements := d.settlements)
      && |d.settlements| == |db.settlements| && d.settlements == db.settlements[i := d.settlements[i]]
      && CompletedOver(d.settlements[i], s, source, key, externalReference)
  {
    ManualMoneyWrites(db, source, i, ManualRow(db.settlements[i], key, externalReference), externalReference);
  }

  // ----- money from and to the outside -----

  /** Outside money lands exactly on a wallet of its tenant in its currency under unused keys, a debit only within what is
      spendable; it changes the balance by its amount, with one row that says so, and nothing else. */
  lemma OutsideActsExactlyWhen(db: Database, x: External)
    requires x.sourceType.Some? && x.sourceId.Some?
    ensures PostExternal(db, x).Committed? <==>
      && x.wallet < |db.wallets| && db.wallets[x.wallet].org == x.org && 0 <= x.amount
      && (if x.credit then Normalize(x.currency) != "" && Normalize(x.currency) == Normalize(db.wallets[x.wallet].currency)
          else Denominated(db.wallets[x.wallet], x.currency) && x.amount <= db.wallets[x.wallet].balance - db.wallets[x.wallet].reserved)
      && LedgerFree(db, x.org, x.wallet, x.kind, x.sourceType.value, x.sourceId.value, x.reference, x.transferReference)
  {
    if x.wallet < |db.wallets| {
      UpdatesLandExactlyWhen(db.wallets[x.wallet], x.org, x.amount, x.currency);
      EntryFitsExactlyWhen(db, ExternalEntry(db, x, db.wallets[x.wallet].balance));
    }
  }

  lemma OutsideWrites(db: Database, x: External)
    requires PostExternal(db, x).Committed?
    ensures var d, change := PostExternal(db, x).db, if x.credit then x.amount else -x.amount;
      && x.wallet < |db.wallets|
      && var w := db.wallets[x.wallet];
         && d == db.(wallets := db.wallets[x.wallet := w.(balance := w.balance + change)], ledger := d.ledger)
         && |d.ledger| == |db.ledger| + 1 && d.ledger[..|db.ledger|] == db.ledger
         && var e := d.ledger[|db.ledger|];
            && e.org == x.org && e.wallet == x.wallet && e.kind == x.kind && e.direction == (if x.credit then CREDIT else DEBIT)
            && e.amount == x.amount && e.before == w.balance && e.after == w.balance + change
            && e.reference == x.reference && e.transferReference == x.transferReference
            && e.sourceType == x.sourceType && e.sourceId == x.sourceId
  {
    UpdatesLandExactlyWhen(db.wallets[x.wallet], x.org, x.amount, x.currency);
  }

  // ----- refusals -----

  /** Whether a transaction was undone, and why. */
  predicate RefusedWith(o: Outcome, problem: Problem) {
    o == RolledBack(problem)
  }

  /** A claim is refused for a row of another tenant. On the wallet of a prepared row it is refused exactly when the amount
      is not spendable, and says so. */
  lemma ClaimRefusals(db: Database, org: string, i: nat)
    requires i < |db.settlements| ==> SettlementFits(db.settlements, i, db.settlements[i])
    ensures var o := ReserveAndClaim(db, org, i);
      && (i >= |db.settlements| || db.settlements[i].org != org ==> RefusedWith(o, NOT_FOUND))
      && (i < |db.settlements| && db.settlements[i].org == org && db.settlements[i].status == PREPARED && ReferenceFree(db, i) && WalletOpen(db, db.settlements[i]) ==>
            var s := db.settlements[i];
            && (o.RolledBack? <==> s.amount > db.wallets[s.wallet].balance - db.wallets[s.wallet].reserved)
            && (o.RolledBack? ==> RefusedWith(o, INSUFFICIENT_SPENDABLE_BALANCE)))
  {
    if i < |db.settlements| && db.settlements[i].org == org && db.settlements[i].status == PREPARED && ReferenceFree(db, i)
       && WalletOpen(db, db.settlements[i]) {
      HoldRefusals(db, i);
    }
  }

  lemma HoldRefusals(db: Database, i: nat)
    requires i < |db.settlements| && SettlementFits(db.settlements, i, db.settlements[i])
    requires db.settlements[i].status == PREPARED && ReferenceFree(db, i) && WalletOpen(db, db.settlements[i])
    ensures var s := db.settlements[i];
      var o := ReserveAndClaim(db, s.org, i);
      && (o.RolledBack? <==> s.amount > db.wallets[s.wallet].balance - db.wallets[s.wallet].reserved)
      && (o.RolledBack? ==> RefusedWith(o, INSUFFICIENT_SPENDABLE_BALANCE))
  {
    var s := db.settlements[i];
    var w := db.wallets[s.wallet];
    var marked := s.(status := RESERVED, reservedAt := true, transferReference := Some(s.internalReference));
    ReferenceFits(db, i, marked);
    UpperIsTrimmed(w.currency, s.currency);
    RefusalsSay(w, s.org, s.amount, s.currency);
    UpdatesLandExactlyWhen(w, s.org, s.amount, s.currency);
    if s.amount <= w.balance - w.reserved {
      ReferenceFits(db, i, marked.(status := PROVIDER_PROCESSING, initiationClaimed := true));
      SameOthers(db, db.(settlements := db.settlements[i := marked]), i, marked.(status := PROVIDER_PROCESSING, initiationClaimed := true));
    }
  }

  /** The money of this row is under way and still reserved. */
  predicate UnderWay(s: Settlement) {
    (s.status == RESERVED || s.status == PROVIDER_PROCESSING || s.status == UNKNOWN) && s.reservedAt && !s.releasedAt
  }

  /** Which refusal a result meets, in this order: no such row, a row whose money is not under way, another transfer. */
  lemma ResultRefusals(db: Database, i: nat, result: TransferResult)
    ensures i >= |db.settlements| ==> RefusedWith(FinalizeSuccess(db, i, result), NOT_FOUND)
    ensures i < |db.settlements| && db.settlements[i].status != SUCCEEDED && !UnderWay(db.settlements[i]) ==>
      RefusedWith(FinalizeSuccess(db, i, result), NOT_ELIGIBLE)
    ensures i < |db.settlements| && UnderWay(db.settlements[i]) && !SameTransfer(db.settlements[i], result) ==>
      RefusedWith(FinalizeSuccess(db, i, result), RESULT_MISMATCH)
  {
    if i < |db.settlements| { MatchesExactlyWhen(db.settlements[i], result); }
  }

  /** And a release or a reversal: no such row in the tenant, or a row that has nothing to release or to reverse. */
  lemma EndingRefusals(db: Database, org: string, i: nat, reference: string)
    ensures i >= |db.settlements| || db.settlements[i].org != org ==>
      RefusedWith(ReleaseReservation(db, org, i), NOT_FOUND) && RefusedWith(ReverseSucceeded(db, org, i, reference), NOT_FOUND)
    ensures i < |db.settlements| && db.settlements[i].org == org ==>
      var s := db.settlements[i];
      && (RefusedWith(ReleaseReservation(db, org, i), NOT_ELIGIBLE) <==> !UnderWay(s) && !(s.status == FAILED && s.releasedAt))
      && (RefusedWith(ReverseSucceeded(db, org, i, reference), NOT_ELIGIBLE) <==> s.status != SUCCEEDED && !AlreadyReversed(db, org, i, reference))
  {
    if i < |db.settlements| && db.settlements[i].wallet < |db.wallets| {
      RefusalsSay(db.wallets[db.settlements[i].wallet], org, db.settlements[i].amount, db.settlements[i].currency);
    }
  }
}
