/** The settlement protocol as it runs: any number of workers, each holding the row it last read, taking
    one database step at a time in any order. A worker that crashes simply never steps again. Webhook
    deliveries and reconciliations may start at any moment and any number of times, so nothing below
    leans on the inbox lease or on the reconciliation lease. */
module Protocol {
  import opened Prelude
  import opened Records
  import opened Settlements
  import opened TransactionSafety

  /** Where a statement about a transfer came from. */
  datatype Channel = WEBHOOK | VERIFY | INITIATE | OTP

  /** What is on record about transfers: a statement of the provider, or an initiation that ended in a definite error. */
  datatype Delivery = Delivery(channel: Channel, said: TransferResult) | InitiationFailed(settlement: nat)

  /** One request to move money, as sent to the provider. */
  datatype Call = Call(settlement: nat, retry: bool, reference: Option<string>, amountMinor: int, currency: string)

  /** A worker's next database step or pending provider answer; `seen` is the row it read earlier. */
  datatype Task =
    | Finished
    | EnsuringRecipient(i: nat)
    | SavingRecipient(i: nat, recipient: string)
    | MarkingAttempt(i: nat, seen: Settlement)
    | CallingTransfer(i: nat, seen: Settlement)
    | AwaitingTransfer(i: nat, seen: Settlement)
    | FlaggingUnknown(i: nat)
    | ReleasingAfterError(i: nat)
    | Applying(i: nat, seen: Settlement, result: TransferResult, channel: Channel)
    | NotingFailure(i: nat, result: TransferResult)
    | UndoingBusiness(i: nat, providerStatus: string)
    | Verifying(i: nat, seen: Settlement)
    | ClaimingRetry(i: nat, seen: Settlement)
    | CallingRetry(i: nat, seen: Settlement)
    | AwaitingRetry(i: nat, seen: Settlement)
    | ClaimingOtp(i: nat, seen: Settlement)
    | AwaitingOtp(i: nat, seen: Settlement)
    | RefusingOtp(i: nat)
    | ResettingOtp(i: nat)
    | AcceptingOtp(i: nat, seen: Settlement, result: TransferResult)
    | DoubtingOtp(i: nat)

  /** What the environment does to the stepping worker. */
  datatype Response =
    | Proceed
    | Recipient(code: string)
    | Answer(said: TransferResult)
    | Ambiguous
    | Definite
    | Missing

  datatype Event =
    | Prepare(source: Source, key: string, internalReference: string)
    | Manual(source: Source, key: string, externalReference: string, internalReference: string)
    | Outside(x: External)
    | Initiate(org: string, i: nat)
    | Verify(i: nat)
    | Deliver(said: TransferResult)
    | SubmitOtp(org: string, i: nat)
    | Step(t: nat, response: Response)
    | Crash(t: nat)

  /** `calls`, `claims`, `deliveries` and `splits` are history: what was sent to the provider, which
      settlements were handed to an initiator, what is on record, and which reversals lost their second half. */
  datatype System = System(
    db: Database, tasks: seq<Task>, calls: seq<Call>, claims: seq<nat>, deliveries: set<Delivery>, splits: set<nat>)

  /** The adapter never reports success from an initiation or an OTP submission. */
  function Downgrade(said: TransferResult): TransferResult {
    if said.state == SUCCESS then said.(state := NON_CONCLUSIVE) else said
  }

  /** The effect of one worker step. */
  datatype Effect = Effect(db: Database, next: Task, calls: seq<Call>, deliveries: set<Delivery>)

  function Land(db: Database, outcome: Outcome): Database {
    if outcome.Committed? then outcome.db else db
  }

  function Stay(db: Database, next: Task): Effect {
    Effect(db, next, [], {})
  }

  /** A definite error during initiation: what is left to do is to give the reservation back. */
  function GiveUp(db: Database, i: nat): Effect {
    Effect(db, ReleasingAfterError(i), [], {InitiationFailed(i)})
  }

  /** One call of the result handler: its checks on the row the worker read, then one transaction. */
  function Apply(db: Database, i: nat, seen: Settlement, result: TransferResult): Effect {
    if !Matches(seen, result) then Stay(db, Finished)
    else if (seen.status == SUCCEEDED || seen.status == FAILED || seen.status == REVERSED)
            && !(seen.status == SUCCEEDED && result.state == REVERSAL)
    then Stay(db, Finished)
    else match result.state
      case SUCCESS => Stay(Land(db, FinalizeSuccess(db, i, result)), Finished)
      case FAILURE =>
        var released := ReleaseReservation(db, seen.org, i);
        if released.Committed? then Stay(released.db, NotingFailure(i, result)) else Stay(db, Finished)
      case REVERSAL =>
        var reversed := ReverseSucceeded(db, seen.org, i, ReversalReference(result.reference));
        if reversed.Committed? then Stay(reversed.db, UndoingBusiness(i, result.providerStatus)) else Stay(db, Finished)
      case NON_CONCLUSIVE =>
        Stay(Land(db, Overwrite(db, i, Some(PROVIDER_PROCESSING), Some(result.providerStatus), result.transferCode)), Finished)
  }

  /** initiateProviderSettlement, up to the provider's answer. */
  predicate Initiating(task: Task) {
    task.EnsuringRecipient? || task.SavingRecipient? || task.MarkingAttempt? || task.CallingTransfer? || task.AwaitingTransfer?
  }

  /** verifyAndReconcileProviderSettlement, up to the provider's answer. */
  predicate Reconciling(task: Task) {
    task.Verifying? || task.ClaimingRetry? || task.CallingRetry? || task.AwaitingRetry?
  }

  /** finalizeProviderSettlementOtp. */
  predicate Otp(task: Task) {
    task.ClaimingOtp? || task.AwaitingOtp? || task.RefusingOtp? || task.ResettingOtp? || task.AcceptingOtp? || task.DoubtingOtp?
  }

  function ActInitiating(db: Database, task: Task, response: Response): Effect
    requires Initiating(task)
  {
    match task
    case EnsuringRecipient(i) =>
      (match response
       case Recipient(code) => Stay(db, SavingRecipient(i, code))
       case Ambiguous => Stay(db, FlaggingUnknown(i))
       case Definite => GiveUp(db, i)
       case _ => Stay(db, task))
    case SavingRecipient(i, code) =>
      if response == Definite || i >= |db.settlements| then GiveUp(db, i)
      else var d := SetRecipient(db, i, code).db; Stay(d, MarkingAttempt(i, d.settlements[i]))
    case MarkingAttempt(i, seen) =>
      if response == Definite || i >= |db.settlements| then GiveUp(db, i)
      else Stay(MarkAttempted(db, i).db, CallingTransfer(i, seen))
    case CallingTransfer(i, seen) =>
      Effect(db, AwaitingTransfer(i, seen), [Call(i, false, seen.transferReference, seen.amount, seen.currency)], {})
    case AwaitingTransfer(i, seen) =>
      (match response
       case Answer(said) => Effect(db, Applying(i, seen, Downgrade(said), INITIATE), [], {Delivery(INITIATE, said)})
       case Ambiguous => Stay(db, FlaggingUnknown(i))
       case Definite => GiveUp(db, i)
       case _ => Stay(db, task))
  }

  function ActReconciling(db: Database, task: Task, response: Response): Effect
    requires Reconciling(task)
  {
    match task
    case Verifying(i, seen) =>
      (match response
       case Answer(said) => Effect(db, Applying(i, seen, said, VERIFY), [], {Delivery(VERIFY, said)})
       case Ambiguous => Stay(db, FlaggingUnknown(i))
       case Missing =>
         if !seen.initiationAttempted && Given(seen.recipientReference) then Stay(db, ClaimingRetry(i, seen))
         else Stay(db, FlaggingUnknown(i))
       case Definite => Stay(db, Finished)
       case _ => Stay(db, task))
    case ClaimingRetry(i, seen) =>
      if i >= |db.settlements| || db.settlements[i].initiationAttempted then Stay(db, Finished)
      else Stay(MarkAttempted(db, i).db, CallingRetry(i, seen))
    case CallingRetry(i, seen) =>
      Effect(db, AwaitingRetry(i, seen), [Call(i, true, seen.transferReference, seen.amount, seen.currency)], {})
    case AwaitingRetry(i, seen) =>
      (match response
       case Answer(said) => Effect(db, Applying(i, seen, Downgrade(said), INITIATE), [], {Delivery(INITIATE, said)})
       case Ambiguous => Stay(db, Finished)
       case Definite => Stay(db, Finished)
       case _ => Stay(db, task))
  }

  function ActOtp(db: Database, task: Task, response: Response): Effect
    requires Otp(task)
  {
    match task
    case ClaimingOtp(i, seen) =>
      if i < |db.settlements| && db.settlements[i].status == PROVIDER_PROCESSING
         && db.settlements[i].providerStatus == Some("otp") && !db.settlements[i].releasedAt
      then Stay(Overwrite(db, i, None, Some("otp_finalizing"), None).db, AwaitingOtp(i, seen))
      else Stay(db, Finished)
    case AwaitingOtp(i, seen) =>
      (match response
       case Answer(said) =>
         var result := Downgrade(said);
         Effect(db,
                if !Matches(seen, result) then ResettingOtp(i)
                else if result.state != NON_CONCLUSIVE then RefusingOtp(i)
                else AcceptingOtp(i, seen, result), [], {Delivery(OTP, said)})
       case Ambiguous => Stay(db, DoubtingOtp(i))
       case Definite => Stay(db, ResettingOtp(i))
       case _ => Stay(db, task))
    case RefusingOtp(i) => Stay(Land(db, Overwrite(db, i, None, Some("otp"), None)), ResettingOtp(i))
    case ResettingOtp(i) =>
      if i < |db.settlements| && db.settlements[i].providerStatus == Some("otp_finalizing")
      then Stay(Overwrite(db, i, None, Some("otp"), None).db, Finished)
      else Stay(db, Finished)
    case AcceptingOtp(i, seen, result) =>
      Stay(Land(db, Overwrite(db, i, Some(PROVIDER_PROCESSING), Some(result.providerStatus), seen.transferCode)), Finished)
    case DoubtingOtp(i) => Stay(Land(db, Overwrite(db, i, Some(UNKNOWN), Some("unknown"), None)), Finished)
  }

  /** The writes that follow an answer. */
  function ActConcluding(db: Database, task: Task): Effect
    requires !Initiating(task) && !Reconciling(task) && !Otp(task)
  {
    match task
    case Finished => Stay(db, task)
    case FlaggingUnknown(i) => Stay(Land(db, Overwrite(db, i, Some(UNKNOWN), None, None)), Finished)
    case ReleasingAfterError(i) =>
      if i >= |db.settlements| then Stay(db, Finished)
      else Stay(Land(db, ReleaseReservation(db, db.settlements[i].org, i)), Finished)
    case Applying(i, seen, result, _) => Apply(db, i, seen, result)
    case NotingFailure(i, result) =>
      Stay(Land(db, Overwrite(db, i, None, Some(result.providerStatus), result.transferCode)), Finished)
    case UndoingBusiness(i, providerStatus) => Stay(Land(db, ReverseBusiness(db, i, providerStatus)), Finished)
  }

  function Act(db: Database, task: Task, response: Response): Effect {
    if Initiating(task) then ActInitiating(db, task, response)
    else if Reconciling(task) then ActReconciling(db, task, response)
    else if Otp(task) then ActOtp(db, task, response)
    else ActConcluding(db, task)
  }

  /** The settlement a provider reference belongs to. */
  function FindTransfer(settlements: seq<Settlement>, reference: string): (r: Option<nat>)
    ensures r.Some? ==> r.value < |settlements| && settlements[r.value].paystack
                        && settlements[r.value].transferReference == Some(reference)
    ensures r.None? ==> forall k :: 0 <= k < |settlements| ==> !(settlements[k].paystack && settlements[k].transferReference == Some(reference))
  {
    if settlements == [] then None
    else
      var n := |settlements| - 1;
      if settlements[n].paystack && settlements[n].transferReference == Some(reference) then Some(n)
      else FindTransfer(settlements[..n], reference)
  }

  function Spawn(sys: System, task: Task): System {
    sys.(tasks := sys.tasks + [task])
  }

  /** A stored webhook event is handed to the result handler, unless it is a reversal of a settlement that
      does not look successful yet: that one is put back for later. */
  function Hear(sys: System, said: TransferResult): System {
    var heard := sys.(deliveries := sys.deliveries + {Delivery(WEBHOOK, said)});
    match FindTransfer(sys.db.settlements, said.reference)
    case None => heard
    case Some(i) =>
      var s := sys.db.settlements[i];
      if said.state == REVERSAL && s.status != SUCCEEDED && s.status != REVERSED then heard
      else Spawn(heard, Applying(i, s, said, WEBHOOK))
  }

  ghost function Next(sys: System, event: Event): System {
    match event
    case Prepare(source, key, internalReference) =>
      if !SettlementSource(source.sourceType) then sys
      else sys.(db := Land(sys.db, PrepareProvider(sys.db, source, key, internalReference)))
    case Manual(source, key, externalReference, internalReference) =>
      if !SettlementSource(source.sourceType) || !SameObligation(sys.db, source) then sys
      else sys.(db := Land(sys.db, CompleteManual(sys.db, source, key, externalReference, internalReference)))
    case Outside(x) =>
      if x.sourceType.Some? && SettlementSource(x.sourceType.value) then sys
      else sys.(db := Land(sys.db, PostExternal(sys.db, x)))
    case Initiate(org, i) =>
      (match ReserveAndClaim(sys.db, org, i)
       case RolledBack(_) => sys
       case Committed(d, shouldInitiate) =>
         if shouldInitiate
         then Spawn(sys.(db := d, claims := sys.claims + [i]), EnsuringRecipient(i))
         else sys.(db := d))
    case Verify(i) =>
      if i < |sys.db.settlements| && sys.db.settlements[i].paystack && sys.db.settlements[i].transferReference.Some?
      then Spawn(sys, Verifying(i, sys.db.settlements[i])) else sys
    case Deliver(said) => Hear(sys, said)
    case SubmitOtp(org, i) =>
      if i >= |sys.db.settlements| then sys
      else
        var s := sys.db.settlements[i];
        if s.org == org && s.via == PROVIDER && s.paystack && s.status == PROVIDER_PROCESSING && s.providerStatus == Some("otp")
           && s.reservedAt && !s.releasedAt && s.transferCode.Some? && s.transferReference.Some?
        then Spawn(sys, ClaimingOtp(i, s)) else sys
    case Step(t, response) =>
      if t >= |sys.tasks| then sys
      else
        var e := Act(sys.db, sys.tasks[t], response);
        sys.(db := e.db, tasks := sys.tasks[t := e.next], calls := sys.calls + e.calls, deliveries := sys.deliveries + e.deliveries)
    case Crash(t) =>
      if t >= |sys.tasks| then sys
      else sys.(tasks := sys.tasks[t := Finished],
                splits := if sys.tasks[t].UndoingBusiness? then sys.splits + {sys.tasks[t].i} else sys.splits)
  }

  /** The whole run: every state after each event. */
  ghost function After(sys: System, events: seq<Event>): System {
    if events == [] then sys else Next(After(sys, events[..|events| - 1]), events[|events| - 1])
  }
}
