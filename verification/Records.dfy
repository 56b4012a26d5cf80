/** The rows of the financial tables. Money is counted in integer minor units. A timestamp column that
    the code only tests for null is a boolean. Row identifiers are table positions, so ledger order is
    creation order. */
module Records {
  import opened Prelude

  datatype Direction = CREDIT | INFLOW | DEBIT | OUTFLOW | ADJUSTMENT

  datatype Entry = Entry(
    id: nat, org: string, wallet: nat, kind: string, direction: Direction,
    amount: int, before: int, after: int,
    reference: string, transferReference: Option<string>,
    sourceType: Option<string>, sourceId: Option<string>, createdAt: int, reversalOf: Option<nat>)

  datatype Wallet = Wallet(org: string, currency: string, balance: int, reserved: int, testTenant: bool)

  datatype Method = MANUAL | PROVIDER

  datatype Status = PREPARED | RESERVED | PROVIDER_PROCESSING | UNKNOWN | SUCCEEDED | FAILED | REVERSED

  datatype Settlement = Settlement(
    org: string, wallet: nat, sourceType: string, sourceId: string, amount: int, currency: string,
    internalReference: string, idempotencyKey: string,
    via: Method, status: Status, paystack: bool,
    transferReference: Option<string>, recipientReference: Option<string>, transferCode: Option<string>,
    providerStatus: Option<string>, externalReference: Option<string>,
    reservedAt: bool, releasedAt: bool, initiationClaimed: bool, initiationAttempted: bool,
    reversalReference: Option<string>, reversalLedger: Option<nat>)

  datatype PaymentStatus = PENDING | PAID | UNDONE
  datatype Payslip = Payslip(org: string, run: string, status: PaymentStatus)

  datatype RunStatus = APPROVED_RUN | DISBURSING | DISBURSED | CANCELLED
  datatype PayrollRun = PayrollRun(org: string, status: RunStatus)

  datatype RequestStatus = SUBMITTED | APPROVED | SETTLED
  datatype PaymentRequest = PaymentRequest(org: string, status: RequestStatus)

  datatype Database = Database(
    wallets: seq<Wallet>, ledger: seq<Entry>, settlements: seq<Settlement>,
    slips: map<string, Payslip>, runs: map<string, PayrollRun>, requests: map<string, PaymentRequest>)

  datatype Problem =
    | NOT_FOUND | NOT_POSITIVE | CURRENCY_MISMATCH | INSUFFICIENT_SPENDABLE_BALANCE | RESERVATION_NOT_HELD
    | NOT_ELIGIBLE | RESULT_MISMATCH | OBLIGATION_NOT_ELIGIBLE | ALREADY_SETTLED | DEBIT_MISSING | DUPLICATE_KEY

  datatype Result<+T> = Ok(value: T) | Error(problem: Problem)

  /** How a transaction ends: its writes and whether it did anything new, or no write at all. */
  datatype Outcome = Committed(db: Database, acted: bool) | RolledBack(problem: Problem)

  const PAYMENT_REQUEST := "ACCOUNTING_PAYMENT_REQUEST"
  const PAYSLIP := "PAYROLL_PAYSLIP"

  predicate SettlementSource(sourceType: string) {
    sourceType == PAYMENT_REQUEST || sourceType == PAYSLIP
  }

  predicate Active(status: Status) {
    status == RESERVED || status == PROVIDER_PROCESSING || status == UNKNOWN
  }

  /** The signed effect of a ledger row on the balance. */
  function Signed(e: Entry): int {
    match e.direction
    case CREDIT => e.amount
    case INFLOW => e.amount
    case DEBIT => -e.amount
    case OUTFLOW => -e.amount
    case ADJUSTMENT => -e.amount
  }

  /** The unique keys of the ledger table: two rows that clash cannot both be stored. */
  predicate EntryClash(a: Entry, b: Entry) {
    || (a.org == b.org && a.reference == b.reference)
    || (a.org == b.org && a.transferReference.Some? && a.transferReference == b.transferReference)
    || (a.wallet == b.wallet && a.sourceType.Some? && a.sourceId.Some?
        && a.sourceType == b.sourceType && a.sourceId == b.sourceId && a.kind == b.kind)
  }

  predicate EntryFits(ledger: seq<Entry>, e: Entry) {
    forall k :: 0 <= k < |ledger| ==> !EntryClash(ledger[k], e)
  }

  /** The unique keys of the settlement table. */
  predicate SettlementClash(a: Settlement, b: Settlement) {
    || (a.org == b.org && a.sourceType == b.sourceType && a.sourceId == b.sourceId)
    || (a.org == b.org && a.idempotencyKey == b.idempotencyKey)
    || (a.org == b.org && a.internalReference == b.internalReference)
    || (a.org == b.org && a.externalReference.Some? && a.externalReference == b.externalReference)
    || (a.org == b.org && a.reversalReference.Some? && a.reversalReference == b.reversalReference)
    || (a.paystack && b.paystack && a.transferReference.Some? && a.transferReference == b.transferReference)
  }

  /** Whether row `i` (or a new row, when `i` is the table length) may hold `s`. */
  predicate SettlementFits(settlements: seq<Settlement>, i: nat, s: Settlement) {
    forall k :: 0 <= k < |settlements| && k != i ==> !SettlementClash(settlements[k], s)
  }
}
