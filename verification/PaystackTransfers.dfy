/** paystack-transfer-provider.ts and the front door of paystack-transfer-webhook.ts: how the provider's words
    become transfer results. */
module PaystackTransfers {
  import opened Prelude
  import opened Settlements
  import opened Records
  import opened SettlementInvariant
  import opened Protocol
  import opened ProtocolSafety
  import opened Verdicts
  import opened WebhookInbox

  /** A JSON field as the code tells fields apart: text, a safe integer, an object holding a recipient code, or
      anything else. */
  datatype Field = Text(s: string) | Integer(n: int) | Recipient(code: Field) | Other

  datatype Data = Data(reference: Field, transferCode: Field, status: Field, amount: Field, currency: Field, recipient: Field)

  /** Why a response was refused; both refusals are ambiguous to the caller. */
  datatype Parsed = Parsed(result: TransferResult) | Malformed | Unsupported

  function TextOf(f: Field): Option<string> {
    if f.Text? then Some(f.s) else None
  }

  function IntegerOf(f: Field): Option<int> {
    if f.Integer? then Some(f.n) else None
  }

  function RecipientOf(f: Field): Option<string> {
    if f.Text? then Some(f.s) else if f.Recipient? then TextOf(f.code) else None
  }

  function MapStatus(status: string): Option<TransferState> {
    var normalized := Lower(status);
    if normalized == "pending" || normalized == "otp" || normalized == "received" then Some(NON_CONCLUSIVE)
    else if normalized == "success" then Some(SUCCESS)
    else if normalized == "reversed" then Some(REVERSAL)
    else if normalized == "failed" || normalized == "abandoned" || normalized == "blocked" || normalized == "rejected" then Some(FAILURE)
    else None
  }

  function ParseTransfer(data: Data): Parsed {
    var reference, status, amount, currency := TextOf(data.reference), TextOf(data.status), IntegerOf(data.amount), TextOf(data.currency);
    if reference.None? || reference.value == "" || status.None? || status.value == "" || amount.None? || currency.None? || currency.value == ""
    then Malformed
    else match MapStatus(status.value)
      case None => Unsupported
      case Some(state) =>
        Parsed(TransferResult(reference.value, TextOf(data.transferCode), RecipientOf(data.recipient), Lower(status.value), state, amount.value, Upper(currency.value)))
  }

  /** What an initiation or an OTP submission reports. */
  function Acknowledge(data: Data): Parsed {
    match ParseTransfer(data)
    case Parsed(result) => Parsed(Downgrade(result))
    case refused => refused
  }

  // ----- webhook events -----

  datatype EventType = TransferSuccess | TransferFailed | TransferReversed

  function Verb(e: EventType): string {
    match e
    case TransferSuccess => "success"
    case TransferFailed => "failed"
    case TransferReversed => "reversed"
  }

  /** The payload kept with an accepted event. */
  datatype Payload = Payload(
    reference: string, amount: int, currency: string, status: string,
    transferCode: Option<string>, recipientReference: Option<string>)

  /** Accepting a delivery: the event is stored only with a reference, a whole amount, a currency and a status,
      which the event type supplies when the data has none. */
  function Accept(e: EventType, data: Data): Option<Payload> {
    var reference, amount, currency := TextOf(data.reference), IntegerOf(data.amount), TextOf(data.currency);
    var status := if data.status.Text? then data.status.s else Verb(e);
    if reference.None? || reference.value == "" || amount.None? || currency.None? || currency.value == "" || status == "" then None
    else Some(Payload(reference.value, amount.value, Upper(currency.value), status, TextOf(data.transferCode), RecipientOf(data.recipient)))
  }

  function NonEmpty(o: Option<string>): Option<string> {
    if o == Some("") then None else o
  }

  /** Reading a stored payload back when the event is handled. */
  function ReadStored(p: Payload): Parsed {
    if p.reference == "" || p.currency == "" || p.status == "" then Malformed
    else match MapStatus(p.status)
      case None => Unsupported
      case Some(state) =>
        Parsed(TransferResult(p.reference, NonEmpty(p.transferCode), NonEmpty(p.recipientReference), Lower(p.status), state, p.amount, Upper(p.currency)))
  }

  /** What the inbox row of a stored payload says. */
  function NewsOf(p: Payload): News {
    match ReadStored(p)
    case Malformed => MALFORMED
    case Unsupported => UNSUPPORTED
    case Parsed(result) => if result.state == REVERSAL then REVERSING else OTHER
  }

  // ----- properties -----

  lemma UpperTwice(s: string)
    ensures Upper(Upper(s)) == Upper(s)
  {
  }

  lemma LowerTwice(s: string)
    ensures Lower(Lower(s)) == Lower(s)
  {
  }

  /** Which words mean what, in any case, and that there are no others. */
  lemma WordsMean(word: string)
    ensures MapStatus(word) == Some(NON_CONCLUSIVE) <==> Lower(word) in ["pending", "otp", "received"]
    ensures MapStatus(word) == Some(SUCCESS) <==> Lower(word) == "success"
    ensures MapStatus(word) == Some(FAILURE) <==> Lower(word) in ["failed", "abandoned", "blocked", "rejected"]
    ensures MapStatus(word) == Some(REVERSAL) <==> Lower(word) == "reversed"
    ensures MapStatus(word) == None <==>
      Lower(word) !in ["pending", "otp", "received", "success", "failed", "abandoned", "blocked", "rejected", "reversed"]
  {
  }

  /** Whatever its case, a status means the same, and each of the four states has its own words. */
  lemma StatusIgnoresCase(a: string, b: string)
    requires Lower(a) == Lower(b)
    ensures MapStatus(a) == MapStatus(b) && MapStatus(Lower(a)) == MapStatus(a)
    ensures MapStatus(a) == Some(NON_CONCLUSIVE) <==> Lower(b) in ["pending", "otp", "received"]
    ensures MapStatus(a) == Some(SUCCESS) <==> Lower(b) == "success"
    ensures MapStatus(a) == Some(FAILURE) <==> Lower(b) in ["failed", "abandoned", "blocked", "rejected"]
    ensures MapStatus(a) == Some(REVERSAL) <==> Lower(b) == "reversed"
  {
    LowerTwice(a);
    WordsMean(a);
  }

  /** An event accepted at the door is never found malformed later, and handling it reads the very result that
      the same words would give in a verification, apart from empty optional codes. */
  lemma StoredEventReadsBack(e: EventType, data: Data)
    requires Accept(e, data).Some?
    ensures var p := Accept(e, data).value;
      && NewsOf(p) != MALFORMED
      && ReadStored(p) == match ParseTransfer(data.(status := Text(p.status)))
         case Parsed(r) => Parsed(r.(transferCode := if r.transferCode == Some("") then None else r.transferCode,
                                     recipientReference := if r.recipientReference == Some("") then None else r.recipientReference))
         case refused => refused
  {
    UpperTwice(data.currency.s);
    assert Upper(data.currency.s) != "" by { assert |Upper(data.currency.s)| == |data.currency.s|; }
  }

  /** A delivery without a status of its own is read as its event type says. */
  lemma EventTypeSpeaks(e: EventType, data: Data)
    requires !data.status.Text? && Accept(e, data).Some?
    ensures var read := ReadStored(Accept(e, data).value);
      read.Parsed? && read.result.state == match e
        case TransferSuccess => SUCCESS
        case TransferFailed => FAILURE
        case TransferReversed => REVERSAL
  {
    StoredEventReadsBack(e, data);
    VerbsAreLower(e);
  }

  lemma VerbsAreLower(e: EventType)
    ensures MapStatus(Verb(e)) == match e
      case TransferSuccess => Some(SUCCESS)
      case TransferFailed => Some(FAILURE)
      case TransferReversed => Some(REVERSAL)
  {
    assert Lower("success") == "success" && Lower("failed") == "failed" && Lower("reversed") == "reversed";
  }

  /** Initiation and OTP answers are never evidence of success; every other answer passes unchanged. */
  lemma AcknowledgementIsNoEvidence(data: Data)
    ensures var said, heard := ParseTransfer(data), Acknowledge(data);
      && (heard.Parsed? <==> said.Parsed?)
      && (heard.Parsed? ==> heard.result.state != SUCCESS)
      && (heard != said <==> said.Parsed? && said.result.state == SUCCESS)
      && (said.Parsed? && said.result.state == SUCCESS ==> heard == Parsed(said.result.(state := NON_CONCLUSIVE)))
  {
  }

  /** Handing such an answer to the result handler never debits a settlement, whatever the answer says. */
  lemma AcknowledgementNeverDebits(db: Database, i: nat, seen: Settlement, data: Data)
    requires Sound(db) && SeenRow(db, i, seen) && Acknowledge(data).Parsed? && Phase(db, i) != Debited
    ensures var d := Apply(db, i, seen, Acknowledge(data).result).db;
      |d.settlements| == |db.settlements| && Phase(d, i) != Debited
  {
    AcknowledgementIsNoEvidence(data);
    ApplyMoves(db, i, seen, Acknowledge(data).result, INITIATE, i);
  }

  // ----- what each word does to the money -----

  /** A response is understood exactly when it has a reference, a known status, a whole amount and a currency; then it
      is passed on with its status in lower and its currency in upper case. */
  lemma ParsedExactlyWhen(data: Data)
    ensures var complete := data.reference.Text? && data.reference.s != "" && data.status.Text? && data.status.s != ""
                            && data.amount.Integer? && data.currency.Text? && data.currency.s != "";
      && (ParseTransfer(data) == Malformed <==> !complete)
      && (ParseTransfer(data) == Unsupported <==>
          (complete && Lower(data.status.s) !in ["pending", "otp", "received", "success", "failed", "abandoned", "blocked", "rejected", "reversed"]))
      && (ParseTransfer(data).Parsed? ==>
            var r := ParseTransfer(data).result;
            && r.reference == data.reference.s && r.amountMinor == data.amount.n && r.currency == Upper(data.currency.s)
            && r.providerStatus == Lower(data.status.s) && MapStatus(data.status.s) == Some(r.state)
            && r.transferCode == (if data.transferCode.Text? then Some(data.transferCode.s) else None)
            && r.recipientReference == (match data.recipient
                 case Text(code) => Some(code)
                 case Recipient(Text(code)) => Some(code)
                 case _ => None))
  {
    if data.status.Text? { WordsMean(data.status.s); }
  }

  /** An event is kept exactly when it has a reference, a whole amount, a currency, and a status that is not empty or
      none at all. */
  lemma EventIsStoredExactlyWhen(e: EventType, data: Data)
    ensures Accept(e, data).Some? <==>
      && data.reference.Text? && data.reference.s != "" && data.amount.Integer?
      && data.currency.Text? && data.currency.s != "" && data.status != Text("")
  {
    assert "success" != "" && "failed" != "" && "reversed" != "";
  }
}
