/** financial-settlement.ts and the transactions of provider-settlement.ts, each as the function from the
    database before to the outcome. A transaction that throws leaves no trace: it is `RolledBack`. */
module Settlements {
  import opened Prelude
  import opened Records
  import opened Wallets

  /** What a provider answer or webhook says about a transfer (settlement-provider.ts:13-14). */
  datatype TransferState = NON_CONCLUSIVE | SUCCESS | FAILURE | REVERSAL
  datatype TransferResult = TransferResult(
    reference: string, transferCode: Option<string>, recipientReference: Option<string>,
    providerStatus: string, state: TransferState, amountMinor: int, currency: string)

  datatype Source = Source(org: string, wallet: nat, sourceType: string, sourceId: string, amount: int, currency: string)

  function WalletRow(db: Database, wallet: nat, org: string): Result<Wallet> {
    if wallet < |db.wallets| && db.wallets[wallet].org == org then Ok(db.wallets[wallet]) else Error(NOT_FOUND)
  }

  /** The position of the settlement of a business obligation; the source key makes it unique. */
  function FindSource(settlements: seq<Settlement>, org: string, sourceType: string, sourceId: string): (r: Option<nat>)
    ensures r.Some? ==> r.value < |settlements| && settlements[r.value].org == org
                        && settlements[r.value].sourceType == sourceType && settlements[r.value].sourceId == sourceId
    ensures r.None? ==> forall k :: 0 <= k < |settlements| ==>
              !(settlements[k].org == org && settlements[k].sourceType == sourceType && settlements[k].sourceId == sourceId)
  {
    if settlements == [] then None
    else
      var n := |settlements| - 1;
      var s := settlements[n];
      if s.org == org && s.sourceType == sourceType && s.sourceId == sourceId then Some(n)
      else FindSource(settlements[..n], org, sourceType, sourceId)
  }

  /** A text the code treats as present: the empty text counts as missing. */
  predicate Given(o: Option<string>) {
    o.Some? && o.value != ""
  }

  /** The checks of a provider result against a settlement row (provider-settlement.ts:70-73). */
  predicate Matches(s: Settlement, result: TransferResult) {
    && s.transferReference == Some(result.reference) && result.amountMinor == s.amount && result.currency == s.currency
    && !(Given(result.recipientReference) && Given(s.recipientReference) && result.recipientReference != s.recipientReference)
  }

  function KeepCode(s: Settlement, code: Option<string>): Option<string> {
    if code.Some? then code else s.transferCode
  }

  function ManualKind(sourceType: string): string { "MANUAL_" + sourceType }
  function ProviderKind(sourceType: string): string { "PROVIDER_" + sourceType }
  function ReversalKind(sourceType: string): string { "REVERSAL_" + sourceType }
  function ReversalReference(reference: string): string { "paystack-reversal-" + reference }

  /** A row is posted only when no unique key of the ledger is taken. */
  function Post(db: Database, e: Entry): Result<Database> {
    if EntryFits(db.ledger, e) then Ok(db.(ledger := db.ledger + [e])) else Error(DUPLICATE_KEY)
  }

  /** A settlement row is rewritten only when no unique key of the settlement table is taken. */
  function Rewrite(db: Database, i: nat, s: Settlement): Result<Database>
    requires i < |db.settlements|
  {
    if SettlementFits(db.settlements, i, s) then Ok(db.(settlements := db.settlements[i := s])) else Error(DUPLICATE_KEY)
  }

  function SetWallet(db: Database, wallet: nat, w: Wallet): Database
    requires wallet < |db.wallets|
  {
    db.(wallets := db.wallets[wallet := w])
  }

  // ----- provider preparation, claim and reservation -----

  function Prepared(source: Source, key: string, internalReference: string, currency: string): Settlement {
    Settlement(source.org, source.wallet, source.sourceType, source.sourceId, source.amount, currency,
               internalReference, key, PROVIDER, PREPARED, true, None, None, None, None, None,
               false, false, false, false, None, None)
  }

  function PrepareProvider(db: Database, source: Source, key: string, internalReference: string): Outcome {
    if FindSource(db.settlements, source.org, source.sourceType, source.sourceId).Some? then Committed(db, false)
    else match WalletRow(db, source.wallet, source.org)
      case Error(p) => RolledBack(p)
      case Ok(w) =>
        if !CurrencyAgrees(source.currency, w.currency) then RolledBack(CURRENCY_MISMATCH)
        else
          var s := Prepared(source, key, internalReference, Normalize(source.currency));
          if !SettlementFits(db.settlements, |db.settlements|, s) then RolledBack(DUPLICATE_KEY)
          else Committed(db.(settlements := db.settlements + [s]), true)
  }

  function ClaimInitiation(db: Database, i: nat): Outcome
    requires i < |db.settlements|
  {
    var s := db.settlements[i];
    if s.status != RESERVED || s.initiationClaimed then Committed(db, false)
    else
      match Rewrite(db, i, s.(status := PROVIDER_PROCESSING, initiationClaimed := true,
                              transferReference := Some(s.internalReference)))
      case Error(p) => RolledBack(p)
      case Ok(claimed) => Committed(claimed, true)
  }

  /** `acted` is the source's shouldInitiate. */
  function ReserveAndClaim(db: Database, org: string, i: nat): Outcome {
    if i >= |db.settlements| || db.settlements[i].org != org then RolledBack(NOT_FOUND)
    else
      var s := db.settlements[i];
      if s.status == SUCCEEDED || s.status == REVERSED || s.status == FAILED then Committed(db, false)
      else if s.status == PREPARED then
        match Rewrite(db, i, s.(status := RESERVED, reservedAt := true, transferReference := Some(s.internalReference)))
        case Error(p) => RolledBack(p)
        case Ok(marked) =>
          match WalletRow(db, s.wallet, org)
          case Error(p) => RolledBack(p)
          case Ok(w) =>
            match Reserve(w, org, s.amount, s.currency)
            case Error(p) => RolledBack(p)
            case Ok(held) => ClaimInitiation(SetWallet(marked, s.wallet, held), i)
      else ClaimInitiation(db, i)
  }

  // ----- business objects -----

  predicate Unpaid(db: Database, run: string, org: string) {
    exists id :: id in db.slips && db.slips[id].run == run && db.slips[id].org == org && db.slips[id].status != PAID
  }

  function Aggregate(db: Database, slipId: string, successful: bool): Result<Database> {
    if slipId !in db.slips then Ok(db)
    else
      var slip := db.slips[slipId];
      if !successful then
        if slip.run in db.runs && db.runs[slip.run].org == slip.org && db.runs[slip.run].status != CANCELLED
        then Ok(db.(runs := db.runs[slip.run := db.runs[slip.run].(status := DISBURSING)]))
        else Ok(db)
      else if slip.run !in db.runs then Error(NOT_FOUND)
      else
        var status := if Unpaid(db, slip.run, slip.org) then DISBURSING else DISBURSED;
        Ok(db.(runs := db.runs[slip.run := db.runs[slip.run].(status := status)]))
  }

  function MarkPaid(db: Database, s: Settlement): Result<Database> {
    if s.sourceType == PAYMENT_REQUEST then
      if s.sourceId in db.requests && db.requests[s.sourceId].org == s.org && db.requests[s.sourceId].status == APPROVED
      then Ok(db.(requests := db.requests[s.sourceId := db.requests[s.sourceId].(status := SETTLED)]))
      else Error(OBLIGATION_NOT_ELIGIBLE)
    else if s.sourceType == PAYSLIP then
      if s.sourceId in db.slips && db.slips[s.sourceId].org == s.org && db.slips[s.sourceId].status != PAID
      then Aggregate(db.(slips := db.slips[s.sourceId := db.slips[s.sourceId].(status := PAID)]), s.sourceId, true)
      else Error(OBLIGATION_NOT_ELIGIBLE)
    else Ok(db)
  }

  // ----- success, failure, reversal -----

  function ProviderDebit(db: Database, s: Settlement, after: Wallet): Entry {
    Entry(|db.ledger|, s.org, s.wallet, ProviderKind(s.sourceType), DEBIT, s.amount, after.balance + s.amount, after.balance,
          s.internalReference, s.transferReference, Some(s.sourceType), Some(s.sourceId), |db.ledger|, None)
  }

  function FinalizeSuccess(db: Database, i: nat, result: TransferResult): Outcome {
    if i >= |db.settlements| then RolledBack(NOT_FOUND)
    else
      var s := db.settlements[i];
      if s.status == SUCCEEDED then Committed(db, false)
      else if !Active(s.status) || !s.reservedAt || s.releasedAt then RolledBack(NOT_ELIGIBLE)
      else if !Matches(s, result) then RolledBack(RESULT_MISMATCH)
      else match WalletRow(db, s.wallet, s.org)
        case Error(p) => RolledBack(p)
        case Ok(w) =>
          match Consume(w, s.org, s.amount, s.currency)
          case Error(p) => RolledBack(p)
          case Ok(after) =>
            match Post(SetWallet(db, s.wallet, after), ProviderDebit(db, s, after))
            case Error(p) => RolledBack(p)
            case Ok(posted) =>
              match MarkPaid(posted, s)
              case Error(p) => RolledBack(p)
              case Ok(paid) =>
                Committed(paid.(settlements := paid.settlements[i := s.(
                  status := SUCCEEDED, providerStatus := Some(result.providerStatus),
                  transferCode := KeepCode(s, result.transferCode), releasedAt := true)]), true)
  }

  function ReleaseReservation(db: Database, org: string, i: nat): Outcome {
    if i >= |db.settlements| || db.settlements[i].org != org then RolledBack(NOT_FOUND)
    else
      var s := db.settlements[i];
      if s.status == FAILED && s.releasedAt then Committed(db, false)
      else if !Active(s.status) || !s.reservedAt || s.releasedAt then RolledBack(NOT_ELIGIBLE)
      else match WalletRow(db, s.wallet, org)
        case Error(p) => RolledBack(p)
        case Ok(w) =>
          match Release(w, org, s.amount, s.currency)
          case Error(p) => RolledBack(p)
          case Ok(after) =>
            Committed(SetWallet(db, s.wallet, after).(
              settlements := db.settlements[i := s.(status := FAILED, releasedAt := true)]), true)
  }

  predicate DebitOf(e: Entry, s: Settlement) {
    && e.wallet == s.wallet && e.direction == DEBIT
    && e.sourceType == Some(s.sourceType) && e.sourceId == Some(s.sourceId)
  }

  /** The earliest debit row of a settlement. */
  function FirstDebit(ledger: seq<Entry>, s: Settlement): (r: Option<nat>)
    ensures r.Some? ==> r.value < |ledger| && DebitOf(ledger[r.value], s)
                        && forall k :: 0 <= k < r.value ==> !DebitOf(ledger[k], s)
    ensures r.None? ==> forall k :: 0 <= k < |ledger| ==> !DebitOf(ledger[k], s)
  {
    if ledger == [] then None
    else
      match FirstDebit(ledger[..|ledger| - 1], s)
      case Some(k) => Some(k)
      case None => if DebitOf(ledger[|ledger| - 1], s) then Some(|ledger| - 1) else None
  }

  function ReversalCredit(db: Database, s: Settlement, before: int, reference: string, original: nat): Entry {
    Entry(|db.ledger|, s.org, s.wallet, ReversalKind(s.sourceType), CREDIT, s.amount, before, before + s.amount,
          reference, Some(reference), Some(s.sourceType), Some(s.sourceId), |db.ledger|, Some(original))
  }

  function ReverseSucceeded(db: Database, org: string, i: nat, reference: string): Outcome {
    if i >= |db.settlements| || db.settlements[i].org != org then RolledBack(NOT_FOUND)
    else
      var s := db.settlements[i];
      if s.status == REVERSED && s.reversalReference == Some(reference) then Committed(db, false)
      else if s.status != SUCCEEDED then RolledBack(NOT_ELIGIBLE)
      else match FirstDebit(db.ledger, s)
        case None => RolledBack(DEBIT_MISSING)
        case Some(original) =>
          match WalletRow(db, s.wallet, org)
          case Error(p) => RolledBack(p)
          case Ok(w) =>
            if !CurrencyAgrees(s.currency, w.currency) then RolledBack(CURRENCY_MISMATCH)
            else
              match Post(SetWallet(db, s.wallet, w.(balance := w.balance + s.amount)),
                         ReversalCredit(db, s, w.balance, reference, original))
              case Error(p) => RolledBack(p)
              case Ok(posted) =>
                match Rewrite(posted, i, s.(status := REVERSED, reversalReference := Some(reference),
                                            reversalLedger := Some(|db.ledger|)))
                case Error(p) => RolledBack(p)
                case Ok(reversed) => Committed(reversed, true)
  }

  /** The second, separate transaction of a provider reversal. */
  function ReverseBusiness(db: Database, i: nat, providerStatus: string): Outcome {
    if i >= |db.settlements| then RolledBack(NOT_FOUND)
    else
      var s := db.settlements[i];
      var undone :=
        if s.sourceType == PAYMENT_REQUEST then
          if s.sourceId in db.requests && db.requests[s.sourceId].org == s.org && db.requests[s.sourceId].status == SETTLED
          then Ok(db.(requests := db.requests[s.sourceId := db.requests[s.sourceId].(status := APPROVED)]))
          else Ok(db)
        else if s.sourceType == PAYSLIP then
          Aggregate(
            if s.sourceId in db.slips && db.slips[s.sourceId].org == s.org && db.slips[s.sourceId].status == PAID
            then db.(slips := db.slips[s.sourceId := db.slips[s.sourceId].(status := UNDONE)]) else db,
            s.sourceId, false)
        else Ok(db);
      match undone
      case Error(p) => RolledBack(p)
      case Ok(d) => Committed(d.(settlements := d.settlements[i := s.(providerStatus := Some(providerStatus))]), true)
  }

  // ----- manual settlement -----

  function ManualRow(s: Settlement, key: string, externalReference: string): Settlement {
    s.(via := MANUAL, status := RESERVED, idempotencyKey := key, externalReference := Some(externalReference),
       reservedAt := true, paystack := false, recipientReference := None, transferReference := None)
  }

  function ManualDebit(db: Database, source: Source, after: Wallet, internalReference: string, externalReference: string): Entry {
    Entry(|db.ledger|, source.org, source.wallet, ManualKind(source.sourceType), DEBIT, source.amount,
          after.balance + source.amount, after.balance, internalReference, Some(externalReference),
          Some(source.sourceType), Some(source.sourceId), |db.ledger|, None)
  }

  /** The row a manual settlement writes: the PREPARED provider row it takes over, or a new one. */
  function ManualTarget(db: Database, source: Source, key: string, externalReference: string, internalReference: string)
    : (r: Result<(nat, Settlement)>)
    ensures r.Ok? ==> r.value.0 <= |db.settlements|
  {
    var currency := Normalize(source.currency);
    match FindSource(db.settlements, source.org, source.sourceType, source.sourceId)
    case None =>
      Ok((|db.settlements|, ManualRow(Prepared(source, key, internalReference, currency), key, externalReference)))
    case Some(i) =>
      var e := db.settlements[i];
      if !(e.via == PROVIDER && e.status == PREPARED) then Error(ALREADY_SETTLED)
      else if !CurrencyAgrees(source.currency, e.currency) then Error(CURRENCY_MISMATCH)
      else Ok((i, ManualRow(e, key, externalReference)))
  }

  predicate ManualReplay(db: Database, source: Source, externalReference: string) {
    match FindSource(db.settlements, source.org, source.sourceType, source.sourceId)
    case None => false
    case Some(i) =>
      var e := db.settlements[i];
      e.via == MANUAL && e.externalReference == Some(externalReference) && e.status == SUCCEEDED
  }

  /** The money and row writes of a manual settlement on row `i`. */
  function ManualWrites(db: Database, source: Source, i: nat, row: Settlement, externalReference: string): Result<Database>
    requires i <= |db.settlements|
  {
    var currency := Normalize(source.currency);
    match WalletRow(db, source.wallet, source.org)
    case Error(p) => Error(p)
    case Ok(w) =>
      match Reserve(w, source.org, source.amount, currency)
      case Error(p) => Error(p)
      case Ok(held) =>
        if !SettlementFits(db.settlements, i, row) then Error(DUPLICATE_KEY)
        else match Consume(held, source.org, source.amount, currency)
          case Error(p) => Error(p)
          case Ok(after) =>
            match Post(SetWallet(db, source.wallet, after), ManualDebit(db, source, after, row.internalReference, externalReference))
            case Error(p) => Error(p)
            case Ok(posted) =>
              var done := row.(status := SUCCEEDED, releasedAt := true);
              Ok(posted.(settlements := if i < |db.settlements| then db.settlements[i := done] else db.settlements + [done]))
  }

  function CompleteManual(db: Database, source: Source, key: string, externalReference: string, internalReference: string): Outcome {
    if ManualReplay(db, source, externalReference) then Committed(db, false)
    else match ManualTarget(db, source, key, externalReference, internalReference)
      case Error(p) => RolledBack(p)
      case Ok((i, row)) =>
        if !CurrencyAgrees(source.currency, source.currency) then RolledBack(CURRENCY_MISMATCH)
        else match ManualWrites(db, source, i, row, externalReference)
          case Error(p) => RolledBack(p)
          case Ok(d) => Committed(d, true)
  }

  // ----- unguarded status writes -----

  /** Every write that does not look at the row first only touches these columns. */
  function Overwrite(db: Database, i: nat, status: Option<Status>, providerStatus: Option<string>, code: Option<string>): Outcome {
    if i >= |db.settlements| then RolledBack(NOT_FOUND)
    else
      var s := db.settlements[i];
      Committed(db.(settlements := db.settlements[i := s.(
        status := if status.Some? then status.value else s.status,
        providerStatus := if providerStatus.Some? then providerStatus else s.providerStatus,
        transferCode := KeepCode(s, code))]), true)
  }

  function SetRecipient(db: Database, i: nat, recipient: string): Outcome {
    if i >= |db.settlements| then RolledBack(NOT_FOUND)
    else Committed(db.(settlements := db.settlements[i := db.settlements[i].(recipientReference := Some(recipient))]), true)
  }

  function MarkAttempted(db: Database, i: nat): Outcome {
    if i >= |db.settlements| then RolledBack(NOT_FOUND)
    else Committed(db.(settlements := db.settlements[i := db.settlements[i].(initiationAttempted := true)]), true)
  }

  // ----- money that enters or leaves outside settlements -----

  datatype External = External(
    org: string, wallet: nat, kind: string, credit: bool, amount: int, currency: string, reference: string,
    transferReference: Option<string>, sourceType: Option<string>, sourceId: Option<string>)

  function ExternalEntry(db: Database, x: External, before: int): Entry {
    Entry(|db.ledger|, x.org, x.wallet, x.kind, if x.credit then CREDIT else DEBIT, x.amount, before,
          if x.credit then before + x.amount else before - x.amount, x.reference, x.transferReference,
          x.sourceType, x.sourceId, |db.ledger|, None)
  }

  /** Funding credits a wallet; other payables debit its unreserved balance. */
  function PostExternal(db: Database, x: External): Outcome {
    match WalletRow(db, x.wallet, x.org)
    case Error(p) => RolledBack(p)
    case Ok(w) =>
      if x.credit then
        if x.amount < 0 then RolledBack(NOT_POSITIVE)
        else if !CurrencyAgrees(x.currency, w.currency) then RolledBack(CURRENCY_MISMATCH)
        else match Post(SetWallet(db, x.wallet, w.(balance := w.balance + x.amount)), ExternalEntry(db, x, w.balance))
          case Error(p) => RolledBack(p)
          case Ok(posted) => Committed(posted, true)
      else match DebitUnreserved(w, x.org, x.amount, x.currency)
        case Error(p) => RolledBack(p)
        case Ok(after) =>
          match Post(SetWallet(db, x.wallet, after), ExternalEntry(db, x, w.balance))
          case Error(p) => RolledBack(p)
          case Ok(posted) => Committed(posted, true)
  }
}
