/** The unguarded status writes: exactly which steps take a debited settlement out of SUCCEEDED, and what that
    means for every run. */
module StaleWrites {
  import opened Prelude
  import opened Records
  import opened Settlements
  import opened SettlementInvariant
  import opened TransactionSafety
  import opened Protocol
  import opened ProtocolSafety
  import opened ProtocolRuns
  import opened Guarantees
  import opened Verdicts
  import opened SplitReversals

  /** A worker about to write a status for `i` without looking at the row: an ambiguous initiation or verification,
      an accepted or doubtful one-time password, or a non-conclusive result that fits what the worker once read. */
  predicate Overwrites(task: Task, i: nat) {
    !task.Finished? && task.i == i
    && (task.FlaggingUnknown? || task.AcceptingOtp? || task.DoubtingOtp?
        || (task.Applying? && task.result.state == NON_CONCLUSIVE && LetThrough(task.seen, task.result)))
  }

  predicate StaysConcluded(status: Status) {
    status == SUCCEEDED || status == REVERSED
  }

  lemma InitiatingKeepsSuccess(db: Database, task: Task, response: Response, i: nat)
    requires Initiating(task) && i < |db.settlements|
    ensures var d := ActInitiating(db, task, response).db; i < |d.settlements| && d.settlements[i].status == db.settlements[i].status
  {
  }

  lemma ReconcilingKeepsSuccess(db: Database, task: Task, response: Response, i: nat)
    requires Reconciling(task) && i < |db.settlements|
    ensures var d := ActReconciling(db, task, response).db; i < |d.settlements| && d.settlements[i].status == db.settlements[i].status
  {
  }

  lemma OverwriteWritesStatus(db: Database, j: nat, status: Option<Status>, providerStatus: Option<string>, code: Option<string>, i: nat)
    requires i < |db.settlements|
    ensures var d := Land(db, Overwrite(db, j, status, providerStatus, code));
      i < |d.settlements| && d.settlements[i].status == if j == i && status.Some? then status.value else db.settlements[i].status
  {
  }

  lemma OtpWritesStatus(db: Database, task: Task, response: Response, i: nat)
    requires Otp(task) && i < |db.settlements| && db.settlements[i].status == SUCCEEDED
    ensures var d := ActOtp(db, task, response).db;
      i < |d.settlements| && (!StaysConcluded(d.settlements[i].status) <==> Overwrites(task, i))
  {
    if task.AcceptingOtp? || task.DoubtingOtp? {
      var (status, providerStatus, code) := OtpWrite(task);
      OverwriteWritesStatus(db, task.i, status, providerStatus, code, i);
    } else if !task.AwaitingOtp? {
      var (status, providerStatus, code) := OtpWrite(task);
      OtpWrites(db, task, response);
      OverwriteWritesStatus(db, task.i, status, providerStatus, code, i);
    }
  }

  lemma SuccessSurvivesFinalize(db: Database, j: nat, result: TransferResult, i: nat)
    requires i < |db.settlements| && db.settlements[i].status == SUCCEEDED
    ensures var d := Land(db, FinalizeSuccess(db, j, result)); i < |d.settlements| && d.settlements[i].status == SUCCEEDED
  {
  }

  lemma SuccessSurvivesRelease(db: Database, j: nat, org: string, i: nat)
    requires i < |db.settlements| && db.settlements[i].status == SUCCEEDED
    ensures var d := Land(db, ReleaseReservation(db, org, j)); i < |d.settlements| && d.settlements[i].status == SUCCEEDED
  {
  }

  lemma SuccessSurvivesReversal(db: Database, j: nat, org: string, reference: string, i: nat)
    requires i < |db.settlements| && db.settlements[i].status == SUCCEEDED
    ensures var d := Land(db, ReverseSucceeded(db, org, j, reference)); i < |d.settlements| && StaysConcluded(d.settlements[i].status)
  {
  }

  lemma ApplyWritesStatus(db: Database, j: nat, seen: Settlement, result: TransferResult, channel: Channel, i: nat)
    requires j < |db.settlements| && i < |db.settlements| && db.settlements[i].status == SUCCEEDED
    ensures var d := Apply(db, j, seen, result).db;
      i < |d.settlements| && (!StaysConcluded(d.settlements[i].status) <==> Overwrites(Applying(j, seen, result, channel), i))
  {
    if LetThrough(seen, result) {
      match result.state {
        case SUCCESS => SuccessSurvivesFinalize(db, j, result, i);
        case FAILURE => SuccessSurvivesRelease(db, j, seen.org, i);
        case REVERSAL => SuccessSurvivesReversal(db, j, seen.org, ReversalReference(result.reference), i);
        case NON_CONCLUSIVE =>
      }
    }
  }

  lemma UndoKeepsStatus(db: Database, j: nat, providerStatus: string, i: nat)
    requires i < |db.settlements|
    ensures var d := Land(db, ReverseBusiness(db, j, providerStatus)); i < |d.settlements| && d.settlements[i].status == db.settlements[i].status
  {
  }

  lemma ConcludingWritesStatus(db: Database, deliveries: set<Delivery>, task: Task, i: nat)
    requires TaskSound(db, deliveries, task) && !Initiating(task) && !Reconciling(task) && !Otp(task)
    requires i < |db.settlements| && db.settlements[i].status == SUCCEEDED
    ensures var d := ActConcluding(db, task).db;
      i < |d.settlements| && (!StaysConcluded(d.settlements[i].status) <==> Overwrites(task, i))
  {
    match task {
      case Applying(j, seen, result, channel) => ApplyWritesStatus(db, j, seen, result, channel, i);
      case ReleasingAfterError(j) => SuccessSurvivesRelease(db, j, db.settlements[j].org, i);
      case UndoingBusiness(j, providerStatus) => UndoKeepsStatus(db, j, providerStatus, i);
      case _ =>
    }
  }

  /** A step takes a row that reads SUCCEEDED to anything but SUCCEEDED and REVERSED exactly when it is one of the
      four unguarded writes. */
  lemma SuccessIsOverwrittenExactlyBy(db: Database, deliveries: set<Delivery>, task: Task, response: Response, i: nat)
    requires TaskSound(db, deliveries, task) && i < |db.settlements| && db.settlements[i].status == SUCCEEDED
    ensures var d := Act(db, task, response).db;
      i < |d.settlements| && (!StaysConcluded(d.settlements[i].status) <==> Overwrites(task, i))
  {
    if Initiating(task) {
      InitiatingKeepsSuccess(db, task, response, i);
    } else if Reconciling(task) {
      ReconcilingKeepsSuccess(db, task, response, i);
    } else if Otp(task) {
      OtpWritesStatus(db, task, response, i);
    } else {
      ConcludingWritesStatus(db, deliveries, task, i);
    }
  }

  lemma OverwriteIsUnguarded(db: Database, task: Task, response: Response, i: nat)
    requires Overwrites(task, i) && i < |db.settlements|
    ensures exists status: Status, providerStatus: Option<string>, code: Option<string> ::
      && (status == PROVIDER_PROCESSING || status == UNKNOWN)
      && Act(db, task, response).db == Overwrite(db, i, Some(status), providerStatus, code).db
  {
    var d := Act(db, task, response).db;
    match task {
      case FlaggingUnknown(_) => assert d == Overwrite(db, i, Some(UNKNOWN), None, None).db;
      case AcceptingOtp(_, seen, result) => assert d == Overwrite(db, i, Some(PROVIDER_PROCESSING), Some(result.providerStatus), seen.transferCode).db;
      case DoubtingOtp(_) => assert d == Overwrite(db, i, Some(UNKNOWN), Some("unknown"), None).db;
      case Applying(_, _, result, _) => assert d == Overwrite(db, i, Some(PROVIDER_PROCESSING), Some(result.providerStatus), result.transferCode).db;
    }
  }

  /** The unguarded writes at work: each takes a debited settlement out of SUCCEEDED without touching its money. */
  lemma StaleNewsOverwritesSuccess(db: Database, task: Task, response: Response, i: nat)
    requires Sound(db) && i < |db.settlements| && db.settlements[i].status == SUCCEEDED && Overwrites(task, i)
    ensures var d := Act(db, task, response).db;
      && |d.settlements| == |db.settlements| && Phase(d, i) == Debited && d.wallets == db.wallets && d.ledger == db.ledger
      && (d.settlements[i].status == PROVIDER_PROCESSING || d.settlements[i].status == UNKNOWN)
  {
    SuccessIsDebited(db, i);
    OverwriteIsUnguarded(db, task, response, i);
    SamePhase(db, Act(db, task, response).db, i);
  }

  // ----- whole runs -----

  predicate SameStatus(db: Database, d: Database, i: nat)
    requires i < |db.settlements|
  {
    i < |d.settlements| && d.settlements[i].status == db.settlements[i].status
  }

  lemma SuccessIsDebited(db: Database, i: nat)
    requires Sound(db) && i < |db.settlements| && db.settlements[i].status == SUCCEEDED
    ensures Phase(db, i) == Debited
  {
    assert SettlementSound(db, i);
  }

  lemma PostingKeepsStatus(sys: System, event: Event, i: nat)
    requires (event.Prepare? || event.Outside?) && i < |sys.db.settlements|
    ensures SameStatus(sys.db, Next(sys, event).db, i)
  {
  }

  lemma ManualKeepsStatus(sys: System, event: Event, i: nat)
    requires Inv(sys) && event.Manual? && i < |sys.db.settlements| && sys.db.settlements[i].status == SUCCEEDED
    ensures SameStatus(sys.db, Next(sys, event).db, i)
  {
    SuccessIsDebited(sys.db, i);
    if SettlementSource(event.source.sourceType) && SameObligation(sys.db, event.source) {
      ManualIsSafe(sys.db, event.source, event.key, event.externalReference, event.internalReference);
    }
  }

  lemma InitiateKeepsStatus(sys: System, org: string, j: nat, i: nat)
    requires Inv(sys) && i < |sys.db.settlements| && sys.db.settlements[i].status == SUCCEEDED
    ensures SameStatus(sys.db, Next(sys, Initiate(org, j)).db, i)
  {
    SuccessIsDebited(sys.db, i);
    if ReserveAndClaim(sys.db, org, j).Committed? {
      if i == j { ClaimRefusesSettled(sys.db, org, i); } else { ClaimLeavesOthers(sys.db, org, j, i); }
    }
  }

  /** The event is an unguarded write to `i`. */
  predicate OverwritesNow(sys: System, event: Event, i: nat) {
    event.Step? && event.t < |sys.tasks| && Overwrites(sys.tasks[event.t], i)
  }

  /** In every reachable state: a row that reads SUCCEEDED stops doing so, other than by its reversal, exactly when
      the event is one of the unguarded writes to it. */
  lemma SuccessIsLostExactlyWhen(sys: System, event: Event, i: nat)
    requires Inv(sys) && i < |sys.db.settlements| && sys.db.settlements[i].status == SUCCEEDED
    ensures var d := Next(sys, event).db;
      i < |d.settlements| && (!StaysConcluded(d.settlements[i].status) <==> OverwritesNow(sys, event, i))
  {
    if event.Step? {
      if event.t < |sys.tasks| {
        assert TaskSound(sys.db, sys.deliveries, sys.tasks[event.t]);
        SuccessIsOverwrittenExactlyBy(sys.db, sys.deliveries, sys.tasks[event.t], event.response, i);
        NextIsStepped(sys, event.t, event.response);
      }
    } else if event.Prepare? || event.Outside? {
      PostingKeepsStatus(sys, event, i);
    } else if event.Manual? {
      ManualKeepsStatus(sys, event, i);
    } else if event.Initiate? {
      InitiateKeepsStatus(sys, event.org, event.i, i);
    }
  }

  /** The settlements that were overwritten while they read SUCCEEDED. */
  ghost function Overwritten(sys: System, events: seq<Event>): set<nat> {
    if events == [] then {}
    else
      var past, event := After(sys, events[..|events| - 1]), events[|events| - 1];
      Overwritten(sys, events[..|events| - 1])
        + if event.Step? && event.t < |past.tasks| && !past.tasks[event.t].Finished?
             && past.tasks[event.t].i < |past.db.settlements| && past.db.settlements[past.tasks[event.t].i].status == SUCCEEDED
             && Overwrites(past.tasks[event.t], past.tasks[event.t].i)
          then {past.tasks[event.t].i} else {}
  }

  lemma FinalizedReadsSucceeded(db: Database, i: nat, seen: Settlement, result: TransferResult)
    requires i < |db.settlements| && Accepted(db, i, seen, result) && result.state == SUCCESS
    ensures var d := Apply(db, i, seen, result).db; i < |d.settlements| && d.settlements[i].status == SUCCEEDED
  {
  }

  lemma DebitReadsSucceeded(sys: System, event: Event, i: nat)
    requires Inv(sys) && i < |sys.db.settlements| && i < |Next(sys, event).db.settlements|
    requires Next(sys, event).db.settlements[i].via == PROVIDER
    requires Phase(sys.db, i) != Debited && Phase(Next(sys, event).db, i) == Debited
    ensures Next(sys, event).db.settlements[i].status == SUCCEEDED
  {
    EventMoves(sys, event, i);
    NextIsStepped(sys, event.t, event.response);
    var task := sys.tasks[event.t];
    assert task.Applying? && task.i == i && Accepted(sys.db, i, task.seen, task.result) && task.result.state == SUCCESS;
    FinalizedReadsSucceeded(sys.db, i, task.seen, task.result);
  }

  lemma OverwrittenStaysDebited(sys: System, event: Event, i: nat)
    requires Inv(sys) && i < |sys.db.settlements| && Phase(sys.db, i) == Debited && sys.db.settlements[i].status != SUCCEEDED
    ensures var d := Next(sys, event).db; i < |d.settlements| && d.settlements[i].status != SUCCEEDED && Phase(d, i) == Debited
  {
    EventKeepsInv(sys, event);
    OverwrittenStays(sys.db, Next(sys, event).db, i);
  }

  lemma {:induction false} OverwrittenIsNotSucceeded(sys: System, events: seq<Event>, i: nat)
    requires Initial(sys) && i in Overwritten(sys, events)
    ensures var db := After(sys, events).db; i < |db.settlements| && Phase(db, i) == Debited && db.settlements[i].status != SUCCEEDED
  {
    var past, event := events[..|events| - 1], events[|events| - 1];
    var before := After(sys, past);
    InitialInv(sys);
    RunsKeepInv(sys, past);
    if i in Overwritten(sys, past) {
      OverwrittenIsNotSucceeded(sys, past, i);
      OverwrittenStaysDebited(before, event, i);
    } else {
      JustOverwritten(before, event, i);
    }
  }

  lemma JustOverwritten(sys: System, event: Event, i: nat)
    requires Inv(sys) && i < |sys.db.settlements| && sys.db.settlements[i].status == SUCCEEDED && OverwritesNow(sys, event, i)
    ensures var d := Next(sys, event).db; i < |d.settlements| && Phase(d, i) == Debited && d.settlements[i].status != SUCCEEDED
  {
    SuccessIsLostExactlyWhen(sys, event, i);
    SuccessIsDebited(sys.db, i);
    WorkerMoves(sys, event.t, event.response, i);
    EventKeepsInv(sys, event);
    assert SettlementSound(Next(sys, event).db, i);
  }

  /** In every run a provider settlement whose money stands debited reads SUCCEEDED exactly when no unguarded write
      ever hit it after its success. */
  lemma {:induction false} DebitedReadsSucceededExactlyWhen(sys: System, events: seq<Event>, i: nat)
    requires Initial(sys) && i < |After(sys, events).db.settlements| && After(sys, events).db.settlements[i].via == PROVIDER
    requires Phase(After(sys, events).db, i) == Debited
    ensures After(sys, events).db.settlements[i].status == SUCCEEDED <==> i !in Overwritten(sys, events)
  {
    InitialInv(sys);
    var past, event := events[..|events| - 1], events[|events| - 1];
    var before := After(sys, past);
    RunsKeepInv(sys, past);
    if i in Overwritten(sys, events) {
      OverwrittenIsNotSucceeded(sys, events, i);
    } else {
      StaysProvider(before, event, i);
      if Phase(before.db, i) == Debited {
        DebitedReadsSucceededExactlyWhen(sys, past, i);
        SuccessStays(before, event, i);
      } else {
        DebitReadsSucceeded(before, event, i);
      }
    }
  }

  lemma SuccessStays(sys: System, event: Event, i: nat)
    requires Inv(sys) && i < |sys.db.settlements| && sys.db.settlements[i].status == SUCCEEDED && !OverwritesNow(sys, event, i)
    requires i < |Next(sys, event).db.settlements| && Phase(Next(sys, event).db, i) == Debited
    ensures Next(sys, event).db.settlements[i].status == SUCCEEDED
  {
    SuccessIsLostExactlyWhen(sys, event, i);
    EventKeepsInv(sys, event);
    assert SettlementSound(Next(sys, event).db, i);
  }
}
