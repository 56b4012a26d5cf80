/** What a crash between the two transactions of a reversal leaves behind: the money is back and the obligation
    still reads as paid. Which workers can still undo it, and exactly when nobody ever will. */
module SplitReversals {
  import opened Prelude
  import opened Records
  import opened Settlements
  import opened SettlementInvariant
  import opened TransactionSafety
  import opened Obligations
  import opened Protocol
  import opened ProtocolSafety
  import opened ProtocolRuns
  import opened Verdicts

  /** The money of `i` was given back and its obligation still reads as paid. */
  ghost predicate Split(db: Database, i: nat) {
    i < |db.settlements| && db.settlements[i].via == PROVIDER && Phase(db, i) == Restored && ObligationPaid(db, db.settlements[i])
  }

  // ----- who heals -----

  /** A worker that read the row before it showed the reversal, and hears of this very reversal again. */
  predicate Heals(db: Database, i: nat, seen: Settlement, result: TransferResult)
    requires i < |db.settlements|
  {
    && db.settlements[i].status == REVERSED && seen.status != REVERSED && seen.status != FAILED
    && result.state == REVERSAL && Matches(seen, result)
    && db.settlements[i].reversalReference == Some(ReversalReference(result.reference))
  }

  /** On a restored settlement the handler goes on to the business half exactly for such a worker. */
  lemma HealsExactlyWhen(db: Database, i: nat, seen: Settlement, result: TransferResult)
    requires Sound(db) && SeenRow(db, i, seen) && Phase(db, i) == Restored
    ensures Apply(db, i, seen, result).next.UndoingBusiness? <==> Heals(db, i, seen, result)
  {
    if result.state == REVERSAL {
      ReverseIsSafe(db, seen.org, i, ReversalReference(result.reference));
    }
  }

  /** A worker that may yet be told of the reversal and would then act on it. */
  predicate Stale(db: Database, i: nat, seen: Settlement)
    requires i < |db.settlements|
  {
    && db.settlements[i].status == REVERSED && seen.status != REVERSED && seen.status != FAILED
    && db.settlements[i].reversalReference == Some(ReversalReference(db.settlements[i].internalReference))
  }

  predicate CanHeal(db: Database, task: Task, i: nat)
    requires i < |db.settlements|
  {
    match task
    case UndoingBusiness(j, _) => j == i
    case Applying(j, seen, result, _) => j == i && Heals(db, i, seen, result)
    case MarkingAttempt(j, seen) => j == i && Stale(db, i, seen)
    case CallingTransfer(j, seen) => j == i && Stale(db, i, seen)
    case AwaitingTransfer(j, seen) => j == i && Stale(db, i, seen)
    case Verifying(j, seen) => j == i && Stale(db, i, seen)
    case ClaimingRetry(j, seen) => j == i && Stale(db, i, seen) && !db.settlements[i].initiationAttempted
    case CallingRetry(j, seen) => j == i && Stale(db, i, seen)
    case AwaitingRetry(j, seen) => j == i && Stale(db, i, seen)
    case _ => false
  }

  ghost predicate NobodyHeals(sys: System, i: nat) {
    i < |sys.db.settlements| && forall t :: 0 <= t < |sys.tasks| ==> !CanHeal(sys.db, sys.tasks[t], i)
  }

  // ----- what no other step touches -----

  /** From `db` to `d` row `i` was not reversed anew and its evidence columns only grew. */
  predicate Kept(db: Database, d: Database, i: nat)
    requires i < |db.settlements|
  {
    && i < |d.settlements| && SameIdentity(db.settlements[i], d.settlements[i]) && d.settlements[i].via == db.settlements[i].via
    && (db.settlements[i].initiationAttempted ==> d.settlements[i].initiationAttempted)
    && (d.settlements[i].status == REVERSED ==>
          db.settlements[i].status == REVERSED && d.settlements[i].reversalReference == db.settlements[i].reversalReference)
  }

  predicate SamePaid(db: Database, d: Database, i: nat)
    requires i < |db.settlements|
  {
    ObligationPaid(d, db.settlements[i]) == ObligationPaid(db, db.settlements[i])
  }

  predicate SameBusiness(db: Database, d: Database) {
    d.slips == db.slips && d.requests == db.requests
  }

  lemma RestoredRow(db: Database, i: nat)
    requires Sound(db) && i < |db.settlements| && Phase(db, i) == Restored
    ensures var s := db.settlements[i];
      s.reservedAt && s.releasedAt && s.status != SUCCEEDED && s.status != FAILED && s.status != RESERVED && s.status != PREPARED
  {
    assert SettlementSound(db, i);
  }

  lemma OverwriteKeeps(db: Database, j: nat, status: Option<Status>, providerStatus: Option<string>, code: Option<string>, i: nat)
    requires i < |db.settlements| && status != Some(REVERSED)
    ensures var d := Land(db, Overwrite(db, j, status, providerStatus, code)); Kept(db, d, i) && SameBusiness(db, d)
  {
  }

  lemma SavingKeeps(db: Database, j: nat, code: string, response: Response, i: nat)
    requires i < |db.settlements|
    ensures var e := ActInitiating(db, SavingRecipient(j, code), response);
      Kept(db, e.db, i) && SameBusiness(db, e.db) && !CanHeal(e.db, e.next, i)
  {
    RecipientKeeps(db, j, code, i);
  }

  lemma RecipientKeeps(db: Database, j: nat, code: string, i: nat)
    requires i < |db.settlements|
    ensures var d := Land(db, SetRecipient(db, j, code)); Kept(db, d, i) && SameBusiness(db, d)
  {
  }

  lemma MarkingKeeps(db: Database, j: nat, seen: Settlement, response: Response, i: nat)
    requires i < |db.settlements|
    ensures var e := ActInitiating(db, MarkingAttempt(j, seen), response);
      && Kept(db, e.db, i) && SameBusiness(db, e.db)
      && (!CanHeal(db, MarkingAttempt(j, seen), i) ==> !CanHeal(e.db, e.next, i))
  {
    AttemptKeeps(db, j, i);
  }

  lemma AttemptKeeps(db: Database, j: nat, i: nat)
    requires i < |db.settlements|
    ensures var d := Land(db, MarkAttempted(db, j));
      && Kept(db, d, i) && SameBusiness(db, d)
      && d.settlements[i].status == db.settlements[i].status && d.settlements[i].reversalReference == db.settlements[i].reversalReference
  {
  }

  lemma InitiatingKeeps(db: Database, deliveries: set<Delivery>, task: Task, response: Response, i: nat)
    requires Initiating(task) && i < |db.settlements| && TaskSound(db, deliveries, task)
    ensures var e := ActInitiating(db, task, response);
      && Kept(db, e.db, i) && SameBusiness(db, e.db)
      && (!CanHeal(db, task, i) ==> !CanHeal(e.db, e.next, i))
  {
    match task {
      case SavingRecipient(j, code) => SavingKeeps(db, j, code, response, i);
      case MarkingAttempt(j, seen) => MarkingKeeps(db, j, seen, response, i);
      case _ =>
    }
  }

  lemma ReconcilingKeeps(db: Database, deliveries: set<Delivery>, task: Task, response: Response, i: nat)
    requires Reconciling(task) && i < |db.settlements| && TaskSound(db, deliveries, task)
    ensures var e := ActReconciling(db, task, response);
      && Kept(db, e.db, i) && SameBusiness(db, e.db)
      && (!CanHeal(db, task, i) ==> !CanHeal(e.db, e.next, i))
  {
    match task {
      case ClaimingRetry(j, seen) => RetryKeeps(db, j, seen, response, i);
      case _ => AskingKeeps(db, deliveries, task, response, i);
    }
  }

  lemma RetryKeeps(db: Database, j: nat, seen: Settlement, response: Response, i: nat)
    requires i < |db.settlements|
    ensures var e := ActReconciling(db, ClaimingRetry(j, seen), response);
      && Kept(db, e.db, i) && SameBusiness(db, e.db)
      && (!CanHeal(db, ClaimingRetry(j, seen), i) ==> !CanHeal(e.db, e.next, i))
  {
    AttemptKeeps(db, j, i);
  }

  lemma AskingKeeps(db: Database, deliveries: set<Delivery>, task: Task, response: Response, i: nat)
    requires Reconciling(task) && !task.ClaimingRetry? && i < |db.settlements| && TaskSound(db, deliveries, task)
    ensures var e := ActReconciling(db, task, response);
      && Kept(db, e.db, i) && SameBusiness(db, e.db)
      && (!CanHeal(db, task, i) ==> !CanHeal(e.db, e.next, i))
  {
  }

  lemma OtpKeeps(db: Database, task: Task, response: Response, i: nat)
    requires Otp(task) && i < |db.settlements|
    ensures var e := ActOtp(db, task, response);
      Kept(db, e.db, i) && SameBusiness(db, e.db) && !CanHeal(e.db, e.next, i)
  {
    if !task.AwaitingOtp? {
      var (status, providerStatus, code) := OtpWrite(task);
      OverwriteKeeps(db, task.i, status, providerStatus, code, i);
      OtpWrites(db, task, response);
    }
  }

  // ----- the handler and the other conclusions -----

  lemma FinalizeKeeps(db: Database, j: nat, result: TransferResult, i: nat)
    requires Sound(db) && Agreed(db) && i < |db.settlements| && Phase(db, i) != Held && (j < |db.settlements| ==> db.settlements[j].via == PROVIDER)
    ensures var d := Land(db, FinalizeSuccess(db, j, result)); Kept(db, d, i) && SamePaid(db, d, i)
  {
    FinalizeIsSafe(db, j, result);
    FinalizeAgrees(db, j, result);
  }

  lemma ReleaseKeeps(db: Database, j: nat, org: string, i: nat)
    requires Sound(db) && i < |db.settlements| && Phase(db, i) != Held
    ensures var d := Land(db, ReleaseReservation(db, org, j)); Kept(db, d, i) && SameBusiness(db, d)
  {
    ReleaseIsSafe(db, org, j);
    if ReleaseReservation(db, org, j).Committed? { ReleaseKeepsBusiness(db, org, j); }
  }

  lemma ReversalKeeps(db: Database, j: nat, org: string, reference: string, i: nat)
    requires Sound(db) && i < |db.settlements| && (j < |db.settlements| ==> db.settlements[j].via == PROVIDER)
    ensures var d := Land(db, ReverseSucceeded(db, org, j, reference));
      SameBusiness(db, d) && (Phase(db, i) == Restored || j != i ==> Kept(db, d, i))
  {
    ReverseIsSafe(db, org, j, reference);
  }

  /** Handling news about any settlement leaves the obligation of a debited or restored one as it reads; on a
      restored one it also leaves the reversal alone. */
  lemma ApplyKeeps(db: Database, j: nat, seen: Settlement, result: TransferResult, i: nat)
    requires Sound(db) && Agreed(db) && SeenRow(db, j, seen) && i < |db.settlements| && (Phase(db, i) == Debited || Phase(db, i) == Restored)
    ensures var d := Apply(db, j, seen, result).db; SamePaid(db, d, i) && (Phase(db, i) == Restored ==> Kept(db, d, i))
  {
    if LetThrough(seen, result) {
      match result.state {
        case SUCCESS => FinalizeKeeps(db, j, result, i);
        case FAILURE => ReleaseKeeps(db, j, seen.org, i);
        case REVERSAL => ReversalKeeps(db, j, seen.org, ReversalReference(result.reference), i);
        case NON_CONCLUSIVE => OverwriteKeeps(db, j, Some(PROVIDER_PROCESSING), Some(result.providerStatus), result.transferCode, i);
      }
    }
  }

  lemma UndoKeepsOthers(db: Database, j: nat, providerStatus: string, i: nat)
    requires Sound(db) && Agreed(db) && j < |db.settlements| && Phase(db, j) == Restored && i < |db.settlements| && i != j
    ensures var d := Land(db, ReverseBusiness(db, j, providerStatus)); Kept(db, d, i) && SamePaid(db, d, i)
  {
    ReverseBusinessIsSafe(db, j, providerStatus);
    ReverseBusinessAgrees(db, j, providerStatus);
  }

  lemma UndoUnpays(db: Database, i: nat, providerStatus: string)
    requires Sound(db) && Agreed(db) && i < |db.settlements| && Phase(db, i) == Restored
    ensures !ObligationPaid(Land(db, ReverseBusiness(db, i, providerStatus)), db.settlements[i])
  {
    UndoNeverFails(db, i, providerStatus);
    ReverseBusinessAgrees(db, i, providerStatus);
  }

  lemma ConcludingKeeps(db: Database, deliveries: set<Delivery>, task: Task, i: nat)
    requires Sound(db) && Agreed(db) && TaskSound(db, deliveries, task) && i < |db.settlements|
    requires !Initiating(task) && !Reconciling(task) && !Otp(task) && (Phase(db, i) == Debited || Phase(db, i) == Restored)
    requires task.UndoingBusiness? ==> task.i != i
    ensures var d := ActConcluding(db, task).db; SamePaid(db, d, i) && (Phase(db, i) == Restored ==> Kept(db, d, i))
  {
    match task {
      case Finished =>
      case FlaggingUnknown(j) => OverwriteKeeps(db, j, Some(UNKNOWN), None, None, i);
      case NotingFailure(j, result) => OverwriteKeeps(db, j, None, Some(result.providerStatus), result.transferCode, i);
      case ReleasingAfterError(j) => ReleaseKeeps(db, j, db.settlements[j].org, i);
      case Applying(j, seen, result, _) => ApplyKeeps(db, j, seen, result, i);
      case UndoingBusiness(j, providerStatus) => UndoKeepsOthers(db, j, providerStatus, i);
    }
  }

  /** What every step but the business half of `i` itself leaves alone, once `i` was debited. */
  predicate Preserves(db: Database, d: Database, i: nat)
    requires i < |db.settlements|
  {
    SamePaid(db, d, i) && (Phase(db, i) == Restored ==> Kept(db, d, i))
  }

  lemma ListeningPreserves(db: Database, deliveries: set<Delivery>, task: Task, response: Response, i: nat)
    requires TaskSound(db, deliveries, task) && i < |db.settlements| && (Initiating(task) || Reconciling(task))
    ensures Preserves(db, Act(db, task, response).db, i)
    ensures !CanHeal(db, task, i) ==> !CanHeal(Act(db, task, response).db, Act(db, task, response).next, i)
  {
    if Initiating(task) {
      InitiatingKeeps(db, deliveries, task, response, i);
    } else {
      ReconcilingKeeps(db, deliveries, task, response, i);
    }
  }

  lemma OtpPreserves(db: Database, task: Task, response: Response, i: nat)
    requires Otp(task) && i < |db.settlements|
    ensures Preserves(db, Act(db, task, response).db, i) && !CanHeal(Act(db, task, response).db, Act(db, task, response).next, i)
  {
    OtpKeeps(db, task, response, i);
  }

  lemma ConcludingPreserves(db: Database, deliveries: set<Delivery>, task: Task, response: Response, i: nat)
    requires Sound(db) && Agreed(db) && TaskSound(db, deliveries, task) && i < |db.settlements|
    requires !Initiating(task) && !Reconciling(task) && !Otp(task) && (Phase(db, i) == Debited || Phase(db, i) == Restored)
    requires task.UndoingBusiness? ==> task.i != i
    ensures Preserves(db, Act(db, task, response).db, i)
  {
    ConcludingKeeps(db, deliveries, task, i);
  }

  lemma StepPreserves(db: Database, deliveries: set<Delivery>, task: Task, response: Response, i: nat)
    requires Sound(db) && Agreed(db) && TaskSound(db, deliveries, task) && i < |db.settlements|
    requires Phase(db, i) == Debited || Phase(db, i) == Restored
    requires task.UndoingBusiness? ==> task.i != i
    ensures Preserves(db, Act(db, task, response).db, i)
  {
    if Initiating(task) || Reconciling(task) {
      ListeningPreserves(db, deliveries, task, response, i);
    } else if Otp(task) {
      OtpPreserves(db, task, response, i);
    } else {
      ConcludingPreserves(db, deliveries, task, response, i);
    }
  }

  lemma ConcludingStaysUnhealed(db: Database, deliveries: set<Delivery>, task: Task, i: nat)
    requires Sound(db) && TaskSound(db, deliveries, task) && i < |db.settlements| && Phase(db, i) == Restored
    requires !Initiating(task) && !Reconciling(task) && !Otp(task) && !CanHeal(db, task, i)
    ensures var e := ActConcluding(db, task); i < |e.db.settlements| ==> !CanHeal(e.db, e.next, i)
  {
    if task.Applying? && task.i == i { HealsExactlyWhen(db, i, task.seen, task.result); }
  }

  lemma StepStaysUnhealed(db: Database, deliveries: set<Delivery>, task: Task, response: Response, i: nat)
    requires Sound(db) && TaskSound(db, deliveries, task) && i < |db.settlements| && Phase(db, i) == Restored
    requires !CanHeal(db, task, i)
    ensures var e := Act(db, task, response); i < |e.db.settlements| ==> !CanHeal(e.db, e.next, i)
  {
    if Initiating(task) || Reconciling(task) {
      ListeningPreserves(db, deliveries, task, response, i);
    } else if Otp(task) {
      OtpPreserves(db, task, response, i);
    } else {
      ConcludingStaysUnhealed(db, deliveries, task, i);
    }
  }

  // ----- events that are not steps -----

  lemma PrepareKeeps(db: Database, source: Source, key: string, internalReference: string, i: nat)
    requires i < |db.settlements|
    ensures var d := Land(db, PrepareProvider(db, source, key, internalReference)); Kept(db, d, i) && SameBusiness(db, d)
  {
  }

  lemma OutsideKeeps(db: Database, x: External, i: nat)
    requires i < |db.settlements|
    ensures var d := Land(db, PostExternal(db, x)); Kept(db, d, i) && SameBusiness(db, d)
  {
  }

  lemma ManualKeeps(db: Database, source: Source, key: string, externalReference: string, internalReference: string, i: nat)
    requires Sound(db) && SettlementSource(source.sourceType) && SameObligation(db, source)
    requires i < |db.settlements| && (Phase(db, i) == Debited || Phase(db, i) == Restored)
    ensures var d := Land(db, CompleteManual(db, source, key, externalReference, internalReference)); Kept(db, d, i) && SameBusiness(db, d)
  {
    ManualIsSafe(db, source, key, externalReference, internalReference);
  }

  lemma ClaimRefusesSettled(db: Database, org: string, i: nat)
    requires Sound(db) && i < |db.settlements| && (Phase(db, i) == Debited || Phase(db, i) == Restored)
    requires ReserveAndClaim(db, org, i).Committed?
    ensures ReserveAndClaim(db, org, i) == Committed(db, false)
  {
    assert SettlementSound(db, i);
  }

  lemma ClaimLeavesOthers(db: Database, org: string, j: nat, i: nat)
    requires i < |db.settlements| && i != j && ReserveAndClaim(db, org, j).Committed?
    ensures i < |ReserveAndClaim(db, org, j).db.settlements| && ReserveAndClaim(db, org, j).db.settlements[i] == db.settlements[i]
  {
  }

  lemma ClaimKeeps(db: Database, org: string, j: nat, i: nat)
    requires Sound(db) && i < |db.settlements| && (Phase(db, i) == Debited || Phase(db, i) == Restored)
    ensures var o := ReserveAndClaim(db, org, j);
      Kept(db, Land(db, o), i) && SameBusiness(db, Land(db, o)) && (Acted(o) ==> j != i)
  {
    if ReserveAndClaim(db, org, j).Committed? {
      ClaimKeepsBusiness(db, org, j);
      if i == j { ClaimRefusesSettled(db, org, i); } else { ClaimLeavesOthers(db, org, j, i); }
    }
  }

  lemma NoChangeKeeps(db: Database, i: nat)
    requires i < |db.settlements|
    ensures Kept(db, db, i) && SameBusiness(db, db)
  {
  }

  lemma ManualEventKeeps(sys: System, event: Event, i: nat)
    requires Inv(sys) && event.Manual? && i < |sys.db.settlements| && (Phase(sys.db, i) == Debited || Phase(sys.db, i) == Restored)
    ensures var d := Next(sys, event).db; Kept(sys.db, d, i) && SameBusiness(sys.db, d)
  {
    NoChangeKeeps(sys.db, i);
    if SettlementSource(event.source.sourceType) && SameObligation(sys.db, event.source) {
      ManualKeeps(sys.db, event.source, event.key, event.externalReference, event.internalReference, i);
    }
  }

  lemma PostingEventKeeps(sys: System, event: Event, i: nat)
    requires (event.Prepare? || event.Outside?) && i < |sys.db.settlements|
    ensures var d := Next(sys, event).db; Kept(sys.db, d, i) && SameBusiness(sys.db, d)
  {
    NoChangeKeeps(sys.db, i);
    if event.Prepare? {
      PrepareKeeps(sys.db, event.source, event.key, event.internalReference, i);
    } else {
      OutsideKeeps(sys.db, event.x, i);
    }
  }

  lemma InitiateEventKeeps(sys: System, org: string, j: nat, i: nat)
    requires Inv(sys) && i < |sys.db.settlements| && (Phase(sys.db, i) == Debited || Phase(sys.db, i) == Restored)
    ensures var d := Next(sys, Initiate(org, j)).db; Kept(sys.db, d, i) && SameBusiness(sys.db, d)
  {
    NoChangeKeeps(sys.db, i);
    ClaimKeeps(sys.db, org, j, i);
  }

  lemma ReadingEventKeeps(sys: System, event: Event, i: nat)
    requires (event.Verify? || event.Deliver? || event.SubmitOtp? || event.Crash?) && i < |sys.db.settlements|
    ensures Next(sys, event).db == sys.db && Kept(sys.db, sys.db, i)
  {
    NoChangeKeeps(sys.db, i);
  }

  /** Events other than worker steps never touch the business objects. */
  lemma ArrivalKeeps(sys: System, event: Event, i: nat)
    requires Inv(sys) && !event.Step? && i < |sys.db.settlements| && (Phase(sys.db, i) == Debited || Phase(sys.db, i) == Restored)
    ensures var d := Next(sys, event).db; Kept(sys.db, d, i) && SameBusiness(sys.db, d)
  {
    if event.Manual? {
      ManualEventKeeps(sys, event, i);
    } else if event.Prepare? || event.Outside? {
      PostingEventKeeps(sys, event, i);
    } else if event.Initiate? {
      InitiateEventKeeps(sys, event.org, event.i, i);
    } else {
      ReadingEventKeeps(sys, event, i);
    }
  }

  /** The business half of settlement `i` runs in this event. */
  predicate Undoes(sys: System, event: Event, i: nat) {
    event.Step? && event.t < |sys.tasks| && sys.tasks[event.t].UndoingBusiness? && sys.tasks[event.t].i == i
  }

  lemma EventPreserves(sys: System, event: Event, i: nat)
    requires Inv(sys) && i < |sys.db.settlements| && (Phase(sys.db, i) == Debited || Phase(sys.db, i) == Restored) && !Undoes(sys, event, i)
    ensures Preserves(sys.db, Next(sys, event).db, i)
  {
    if event.Step? {
      if event.t < |sys.tasks| {
        assert TaskSound(sys.db, sys.deliveries, sys.tasks[event.t]);
        StepPreserves(sys.db, sys.deliveries, sys.tasks[event.t], event.response, i);
        NextIsStepped(sys, event.t, event.response);
      }
    } else {
      ArrivalKeeps(sys, event, i);
    }
  }

  // ----- paid until undone -----

  /** The settlements whose business half has run. */
  ghost function Undone(sys: System, events: seq<Event>): set<nat> {
    if events == [] then {}
    else
      var past, event := After(sys, events[..|events| - 1]), events[|events| - 1];
      Undone(sys, events[..|events| - 1])
        + if event.Step? && event.t < |past.tasks| && past.tasks[event.t].UndoingBusiness? then {past.tasks[event.t].i} else {}
  }

  lemma PhaseOnward(sys: System, event: Event, i: nat)
    requires Inv(sys) && i < |sys.db.settlements|
    ensures var d := Next(sys, event).db;
      && i < |d.settlements| && SameIdentity(sys.db.settlements[i], d.settlements[i])
      && (Phase(sys.db, i) == Restored ==> Phase(d, i) == Restored)
      && (Phase(d, i) == Restored ==> Phase(sys.db, i) == Debited || Phase(sys.db, i) == Restored)
  {
    EventKeepsInv(sys, event);
    assert Ages(sys.db.settlements[i], Next(sys, event).db.settlements[i]);
    assert Edge(sys.db.settlements[i], Phase(sys.db, i), Next(sys, event).db.settlements[i], Phase(Next(sys, event).db, i));
  }

  lemma UndoLeavesUnpaid(sys: System, event: Event, i: nat)
    requires Inv(sys) && Undoes(sys, event, i)
    ensures i < |sys.db.settlements| && Phase(sys.db, i) == Restored && !ObligationPaid(Next(sys, event).db, sys.db.settlements[i])
  {
    var task := sys.tasks[event.t];
    assert TaskSound(sys.db, sys.deliveries, task);
    NextIsStepped(sys, event.t, event.response);
    UndoUnpays(sys.db, i, task.providerStatus);
  }

  /** Only restored settlements are undone. */
  lemma {:induction false} UndoneIsRestored(sys: System, events: seq<Event>, i: nat)
    requires Initial(sys) && i in Undone(sys, events)
    ensures i < |After(sys, events).db.settlements| && Phase(After(sys, events).db, i) == Restored
  {
    var past, event := events[..|events| - 1], events[|events| - 1];
    InitialInv(sys);
    RunsKeepInv(sys, past);
    if Undoes(After(sys, past), event, i) {
      UndoLeavesUnpaid(After(sys, past), event, i);
    } else {
      UndoneIsRestored(sys, past, i);
    }
    PhaseOnward(After(sys, past), event, i);
  }

  /** In every run the obligation of a provider settlement reads as paid exactly from its debit until its business
      half runs. A reversal whose business half never runs leaves it paid. */
  lemma {:induction false} PaidExactlyUntilUndone(sys: System, events: seq<Event>, i: nat)
    requires Initial(sys) && i < |After(sys, events).db.settlements| && After(sys, events).db.settlements[i].via == PROVIDER
    ensures var db := After(sys, events).db;
      ObligationPaid(db, db.settlements[i]) <==> Phase(db, i) == Debited || (Phase(db, i) == Restored && i !in Undone(sys, events))
  {
    InitialInv(sys);
    RunsKeepInv(sys, events);
    if Phase(After(sys, events).db, i) == Restored { RestoredReadsPaid(sys, events, i); }
  }

  lemma {:induction false} RestoredReadsPaid(sys: System, events: seq<Event>, i: nat)
    requires Initial(sys) && i < |After(sys, events).db.settlements| && After(sys, events).db.settlements[i].via == PROVIDER
    requires Phase(After(sys, events).db, i) == Restored
    ensures ObligationPaid(After(sys, events).db, After(sys, events).db.settlements[i]) <==> i !in Undone(sys, events)
  {
    InitialInv(sys);
    var past, event := events[..|events| - 1], events[|events| - 1];
    var before := After(sys, past);
    RunsKeepInv(sys, past);
    StaysProvider(before, event, i);
    if i < |before.db.settlements| {
      PhaseOnward(before, event, i);
      PaidStep(before, event, i);
      if Phase(before.db, i) == Restored {
        RestoredReadsPaid(sys, past, i);
      } else {
        if i in Undone(sys, past) { UndoneIsRestored(sys, past, i); }
        if Undoes(before, event, i) { UndoLeavesUnpaid(before, event, i); }
      }
    }
  }

  /** One event on a settlement that ends restored: it reads as paid afterwards exactly when it did before and its
      business half did not run. */
  lemma PaidStep(sys: System, event: Event, i: nat)
    requires Inv(sys) && i < |sys.db.settlements| && (Phase(sys.db, i) == Debited || Phase(sys.db, i) == Restored)
    ensures ObligationPaid(Next(sys, event).db, sys.db.settlements[i])
      <==> ObligationPaid(sys.db, sys.db.settlements[i]) && !Undoes(sys, event, i)
  {
    if Undoes(sys, event, i) {
      UndoLeavesUnpaid(sys, event, i);
    } else {
      EventPreserves(sys, event, i);
    }
  }

  // ----- when nobody will heal it -----

  lemma KeptStaysUnhealed(db: Database, d: Database, tasks: seq<Task>, i: nat)
    requires i < |db.settlements| && Kept(db, d, i)
    requires forall t :: 0 <= t < |tasks| ==> !CanHeal(db, tasks[t], i)
    ensures forall t :: 0 <= t < |tasks| ==> !CanHeal(d, tasks[t], i)
  {
    forall t | 0 <= t < |tasks| ensures !CanHeal(d, tasks[t], i) { assert !CanHeal(db, tasks[t], i); }
  }

  /** A worker that starts now reads the row as it is. */
  lemma FreshWorkerCannotHeal(sys: System, task: Task, i: nat)
    requires Inv(sys) && i < |sys.db.settlements|
    requires task.EnsuringRecipient? || task.ClaimingOtp?
          || ((task.Verifying? || task.Applying?) && task.i < |sys.db.settlements| && task.seen == sys.db.settlements[task.i])
    ensures !CanHeal(sys.db, task, i)
  {
  }

  lemma NewWorkerStaysUnhealed(sys: System, event: Event, i: nat)
    requires Inv(sys) && !event.Step? && i < |sys.db.settlements| && i < |Next(sys, event).db.settlements|
    requires !event.Initiate? ==> Next(sys, event).tasks == sys.tasks || Next(sys, event).db == sys.db
    ensures var sys' := Next(sys, event);
      forall t :: |sys.tasks| <= t < |sys'.tasks| ==> !CanHeal(sys'.db, sys'.tasks[t], i)
  {
    var sys' := Next(sys, event);
    match event {
      case Verify(j) => if j < |sys.db.settlements| { FreshWorkerCannotHeal(sys, Verifying(j, sys.db.settlements[j]), i); }
      case Deliver(said) =>
        var found := FindTransfer(sys.db.settlements, said.reference);
        if found.Some? { FreshWorkerCannotHeal(sys, Applying(found.value, sys.db.settlements[found.value], said, WEBHOOK), i); }
      case SubmitOtp(org, j) => if j < |sys.db.settlements| { FreshWorkerCannotHeal(sys, ClaimingOtp(j, sys.db.settlements[j]), i); }
      case _ =>
    }
  }

  lemma ArrivalStaysUnhealed(sys: System, event: Event, i: nat)
    requires Inv(sys) && !event.Step? && NobodyHeals(sys, i) && Phase(sys.db, i) == Restored
    ensures NobodyHeals(Next(sys, event), i)
  {
    ArrivalKeeps(sys, event, i);
    NewWorkerStaysUnhealed(sys, event, i);
    var sys' := Next(sys, event);
    KeptStaysUnhealed(sys.db, sys'.db, sys.tasks, i);
    forall t | 0 <= t < |sys'.tasks| ensures !CanHeal(sys'.db, sys'.tasks[t], i) {
      if t < |sys.tasks| { assert sys'.tasks[t] == sys.tasks[t] || sys'.tasks[t].Finished?; }
    }
  }

  lemma WorkerStaysUnhealed(sys: System, t: nat, response: Response, i: nat)
    requires Inv(sys) && NobodyHeals(sys, i) && Phase(sys.db, i) == Restored && t < |sys.tasks|
    ensures NobodyHeals(Next(sys, Step(t, response)), i)
  {
    assert TaskSound(sys.db, sys.deliveries, sys.tasks[t]) && !CanHeal(sys.db, sys.tasks[t], i);
    var e := Act(sys.db, sys.tasks[t], response);
    StepPreserves(sys.db, sys.deliveries, sys.tasks[t], response, i);
    StepStaysUnhealed(sys.db, sys.deliveries, sys.tasks[t], response, i);
    KeptStaysUnhealed(sys.db, e.db, sys.tasks, i);
    NextIsStepped(sys, t, response);
  }

  lemma SplitStays(sys: System, event: Event, i: nat)
    requires Inv(sys) && Split(sys.db, i) && !Undoes(sys, event, i)
    ensures Split(Next(sys, event).db, i)
  {
    PhaseOnward(sys, event, i);
    EventPreserves(sys, event, i);
  }

  lemma ArrivalStaysSplit(sys: System, event: Event, i: nat)
    requires Inv(sys) && Split(sys.db, i) && NobodyHeals(sys, i) && !event.Step?
    ensures Split(Next(sys, event).db, i) && NobodyHeals(Next(sys, event), i)
  {
    SplitStays(sys, event, i);
    ArrivalStaysUnhealed(sys, event, i);
  }

  lemma WorkerStaysSplit(sys: System, t: nat, response: Response, i: nat)
    requires Inv(sys) && Split(sys.db, i) && NobodyHeals(sys, i) && t < |sys.tasks|
    ensures Split(Next(sys, Step(t, response)).db, i) && NobodyHeals(Next(sys, Step(t, response)), i)
  {
    assert !CanHeal(sys.db, sys.tasks[t], i);
    SplitStays(sys, Step(t, response), i);
    WorkerStaysUnhealed(sys, t, response, i);
  }

  lemma EventStaysUnhealed(sys: System, event: Event, i: nat)
    requires Inv(sys) && Split(sys.db, i) && NobodyHeals(sys, i)
    ensures Inv(Next(sys, event)) && Split(Next(sys, event).db, i) && NobodyHeals(Next(sys, event), i)
  {
    EventKeepsInv(sys, event);
    if !event.Step? {
      ArrivalStaysSplit(sys, event, i);
    } else if event.t < |sys.tasks| {
      WorkerStaysSplit(sys, event.t, event.response, i);
    }
  }

  /** Then whatever is delivered, verified or retried afterwards, however often, the obligation keeps reading as
      paid although its money was given back. */
  lemma {:induction false} SplitReversalIsForever(sys: System, events: seq<Event>, i: nat)
    requires Inv(sys) && Split(sys.db, i) && NobodyHeals(sys, i)
    ensures var end := After(sys, events); Inv(end) && Split(end.db, i) && NobodyHeals(end, i)
  {
    if events != [] {
      SplitReversalIsForever(sys, events[..|events| - 1], i);
      EventStaysUnhealed(After(sys, events[..|events| - 1]), events[|events| - 1], i);
    }
  }

  // ----- and how it can still be healed -----

  /** The provider says again that the transfer of `s` was reversed. */
  function ReversalOf(s: Settlement): TransferResult {
    TransferResult(s.internalReference, None, None, "reversed", REVERSAL, s.amount, s.currency)
  }

  /** How many steps a worker is away from the business half. */
  function Distance(task: Task): nat {
    match task
    case UndoingBusiness(_, _) => 0
    case Applying(_, _, _, _) => 1
    case AwaitingTransfer(_, _) => 2
    case AwaitingRetry(_, _) => 2
    case Verifying(_, _) => 2
    case CallingTransfer(_, _) => 3
    case CallingRetry(_, _) => 3
    case _ => 4
  }

  /** What the environment does to bring it closer. */
  function Nudge(task: Task, s: Settlement): Response {
    if task.AwaitingTransfer? || task.AwaitingRetry? || task.Verifying? then Answer(ReversalOf(s)) else Proceed
  }

  lemma AnswerHeals(db: Database, i: nat, seen: Settlement)
    requires SeenRow(db, i, seen) && Stale(db, i, seen)
    ensures Downgrade(ReversalOf(db.settlements[i])) == ReversalOf(db.settlements[i])
    ensures Heals(db, i, seen, ReversalOf(db.settlements[i]))
  {
  }

  lemma InitiatingNudge(db: Database, deliveries: set<Delivery>, task: Task, i: nat)
    requires TaskSound(db, deliveries, task) && Initiating(task) && i < |db.settlements| && CanHeal(db, task, i)
    ensures var e := ActInitiating(db, task, Nudge(task, db.settlements[i]));
      && i < |e.db.settlements| && SameBusiness(db, e.db)
      && CanHeal(e.db, e.next, i) && Distance(e.next) < Distance(task)
  {
    if task.AwaitingTransfer? { AnswerHeals(db, i, task.seen); }
  }

  lemma ReconcilingNudge(db: Database, deliveries: set<Delivery>, task: Task, i: nat)
    requires TaskSound(db, deliveries, task) && Reconciling(task) && i < |db.settlements| && CanHeal(db, task, i)
    ensures var e := ActReconciling(db, task, Nudge(task, db.settlements[i]));
      && i < |e.db.settlements| && SameBusiness(db, e.db)
      && CanHeal(e.db, e.next, i) && Distance(e.next) < Distance(task)
  {
    if task.AwaitingRetry? || task.Verifying? { AnswerHeals(db, i, task.seen); }
  }

  lemma ApplyingNudge(db: Database, i: nat, seen: Settlement, result: TransferResult)
    requires Sound(db) && SeenRow(db, i, seen) && Phase(db, i) == Restored && Heals(db, i, seen, result)
    ensures var e := Apply(db, i, seen, result);
      e.db == db && e.next.UndoingBusiness? && e.next.i == i
  {
    ReverseIsSafe(db, seen.org, i, ReversalReference(result.reference));
  }

  lemma NudgeStep(db: Database, deliveries: set<Delivery>, task: Task, i: nat)
    requires Sound(db) && TaskSound(db, deliveries, task) && !task.UndoingBusiness?
    requires i < |db.settlements| && Phase(db, i) == Restored && CanHeal(db, task, i)
    ensures var e := Act(db, task, Nudge(task, db.settlements[i]));
      i < |e.db.settlements| && SameBusiness(db, e.db) && CanHeal(e.db, e.next, i) && Distance(e.next) < Distance(task)
  {
    if Initiating(task) {
      InitiatingNudge(db, deliveries, task, i);
    } else if Reconciling(task) {
      ReconcilingNudge(db, deliveries, task, i);
    } else {
      ApplyingNudge(db, i, task.seen, task.result);
    }
  }

  lemma NudgeEvent(sys: System, t: nat, i: nat)
    requires Inv(sys) && Split(sys.db, i) && t < |sys.tasks| && CanHeal(sys.db, sys.tasks[t], i) && !sys.tasks[t].UndoingBusiness?
    ensures var sys' := Next(sys, Step(t, Nudge(sys.tasks[t], sys.db.settlements[i])));
      && Inv(sys') && Split(sys'.db, i) && t < |sys'.tasks| && CanHeal(sys'.db, sys'.tasks[t], i)
      && Distance(sys'.tasks[t]) < Distance(sys.tasks[t])
  {
    var response := Nudge(sys.tasks[t], sys.db.settlements[i]);
    assert TaskSound(sys.db, sys.deliveries, sys.tasks[t]);
    NudgeStep(sys.db, sys.deliveries, sys.tasks[t], i);
    NextIsStepped(sys, t, response);
    EventKeepsInv(sys, Step(t, response));
    PhaseOnward(sys, Step(t, response), i);
    assert Ages(sys.db.settlements[i], Next(sys, Step(t, response)).db.settlements[i]);
    RestoredRow(sys.db, i);
  }

  lemma AfterLast(sys: System, events: seq<Event>, event: Event)
    ensures After(sys, events + [event]) == Next(After(sys, events), event)
  {
    assert (events + [event])[..|events|] == events;
  }

  lemma {:induction false} AfterFirst(sys: System, first: Event, rest: seq<Event>)
    ensures After(sys, [first] + rest) == After(Next(sys, first), rest)
  {
    if rest == [] {
      AfterLast(sys, [], first);
      assert [first] + rest == [] + [first];
    } else {
      var init, last := rest[..|rest| - 1], rest[|rest| - 1];
      AfterFirst(sys, first, init);
      AfterLast(sys, [first] + init, last);
      AfterLast(Next(sys, first), init, last);
      assert rest == init + [last] && [first] + rest == [first] + init + [last];
    }
  }

  /** A worker that can heal does, when the provider repeats its news and the worker is let finish. */
  lemma {:induction false} HealingRun(sys: System, t: nat, i: nat) returns (events: seq<Event>)
    requires Inv(sys) && Split(sys.db, i) && t < |sys.tasks| && CanHeal(sys.db, sys.tasks[t], i)
    ensures !Split(After(sys, events).db, i)
    decreases Distance(sys.tasks[t])
  {
    if sys.tasks[t].UndoingBusiness? {
      events := [Step(t, Proceed)];
      AfterFirst(sys, Step(t, Proceed), []);
      UndoLeavesUnpaid(sys, Step(t, Proceed), i);
      PhaseOnward(sys, Step(t, Proceed), i);
    } else {
      var first := Step(t, Nudge(sys.tasks[t], sys.db.settlements[i]));
      NudgeEvent(sys, t, i);
      var rest := HealingRun(Next(sys, first), t, i);
      events := [first] + rest;
      AfterFirst(sys, first, rest);
    }
  }

  /** A split reversal is for good exactly when no worker under way owes its business half or may still be told of
      the reversal without having read it from the row. New workers never heal it: they read the reversal. */
  lemma SplitIsForeverExactlyWhen(sys: System, i: nat)
    requires Inv(sys) && Split(sys.db, i)
    ensures (forall events :: Split(After(sys, events).db, i)) <==> NobodyHeals(sys, i)
  {
    if NobodyHeals(sys, i) {
      forall events ensures Split(After(sys, events).db, i) { SplitReversalIsForever(sys, events, i); }
    } else {
      var t :| 0 <= t < |sys.tasks| && CanHeal(sys.db, sys.tasks[t], i);
      var events := HealingRun(sys, t, i);
    }
  }

  /** A crash of the only worker under way between the two transactions of a reversal makes it so. */
  lemma CrashAbandons(sys: System, t: nat, events: seq<Event>)
    requires Inv(sys) && t < |sys.tasks| && sys.tasks[t].UndoingBusiness? && Split(sys.db, sys.tasks[t].i)
    requires forall k :: 0 <= k < |sys.tasks| && k != t ==> sys.tasks[k].Finished?
    ensures Split(After(Next(sys, Crash(t)), events).db, sys.tasks[t].i) && sys.tasks[t].i in Next(sys, Crash(t)).splits
  {
    var sys' := Next(sys, Crash(t));
    assert forall k :: 0 <= k < |sys'.tasks| ==> sys'.tasks[k].Finished?;
    EventKeepsInv(sys, Crash(t));
    SplitReversalIsForever(sys', events, sys.tasks[t].i);
  }

  /** Without the crash the same worker makes the obligation unpaid again. */
  lemma SecondHalfHeals(sys: System, t: nat)
    requires Inv(sys) && t < |sys.tasks| && sys.tasks[t].UndoingBusiness?
    ensures var end := Next(sys, Step(t, Proceed)); Inv(end) && !Split(end.db, sys.tasks[t].i)
  {
    UndoLeavesUnpaid(sys, Step(t, Proceed), sys.tasks[t].i);
    PhaseOnward(sys, Step(t, Proceed), sys.tasks[t].i);
    EventKeepsInv(sys, Step(t, Proceed));
  }
}
