/** Which news decides a settlement. The first conclusive result that is accepted fixes where the money goes; after
    it only the reversal of a success is ever accepted, and everything else changes no money. */
module Verdicts {
  import opened Prelude
  import opened Records
  import opened Wallets
  import opened Settlements
  import opened Effects
  import opened SettlementInvariant
  import opened TransactionSafety
  import opened Protocol
  import opened ProtocolSafety
  import opened ProtocolRuns
  import opened Guarantees

  datatype Verdict = Success | Failure | Abandonment | Reversal

  predicate Acted(o: Outcome) {
    o.Committed? && o.acted
  }

  /** The handler lets a result through when it fits the row the worker read and that row was not terminal; a
      reversal is also let through after a success. */
  predicate LetThrough(seen: Settlement, result: TransferResult) {
    && Matches(seen, result)
    && (seen.status == SUCCEEDED || seen.status == FAILED || seen.status == REVERSED ==> seen.status == SUCCEEDED && result.state == REVERSAL)
  }

  /** A result is accepted when it is let through and its transaction commits something new. */
  predicate Accepted(db: Database, i: nat, seen: Settlement, result: TransferResult) {
    && LetThrough(seen, result)
    && match result.state
       case SUCCESS => Acted(FinalizeSuccess(db, i, result))
       case FAILURE => Acted(ReleaseReservation(db, seen.org, i))
       case REVERSAL => Acted(ReverseSucceeded(db, seen.org, i, ReversalReference(result.reference)))
       case NON_CONCLUSIVE => false
  }

  function StateVerdict(state: TransferState): Verdict {
    match state
    case SUCCESS => Success
    case REVERSAL => Reversal
    case _ => Failure
  }

  /** What the next step of a worker decides about settlement `i`. */
  function Decides(db: Database, task: Task, i: nat): Option<Verdict>
    requires i < |db.settlements|
  {
    match task
    case Applying(j, seen, result, _) => if j == i && Accepted(db, i, seen, result) then Some(StateVerdict(result.state)) else None
    case ReleasingAfterError(j) => if j == i && Acted(ReleaseReservation(db, db.settlements[i].org, i)) then Some(Abandonment) else None
    case _ => None
  }

  function VerdictOf(sys: System, event: Event, i: nat): Option<Verdict> {
    if event.Step? && event.t < |sys.tasks| && i < |sys.db.settlements| then Decides(sys.db, sys.tasks[event.t], i) else None
  }

  /** The verdicts on settlement `i` along a run. */
  ghost function Verdicts(sys: System, events: seq<Event>, i: nat): seq<Verdict> {
    if events == [] then []
    else
      var past := events[..|events| - 1];
      var v := VerdictOf(After(sys, past), events[|events| - 1], i);
      Verdicts(sys, past, i) + if v.Some? then [v.value] else []
  }

  // ----- when a result is accepted -----

  lemma HeldMoneyIsThere(db: Database, i: nat)
    requires Sound(db) && i < |db.settlements| && Phase(db, i) == Held
    ensures var s := db.settlements[i];
      && s.wallet < |db.wallets| && db.wallets[s.wallet].org == s.org
      && s.reservedAt && !s.releasedAt && Active(s.status) && 0 <= s.amount <= db.wallets[s.wallet].reserved <= db.wallets[s.wallet].balance
  {
    var s := db.settlements[i];
    assert SettlementSound(db, i) && WalletSound(db, s.wallet);
    forall k | 0 <= k < |db.settlements| ensures HeldOn(s.wallet)(db.settlements[k]) >= 0 { assert SettlementSound(db, k); }
    TallyCovers(db.settlements, i, HeldOn(s.wallet));
  }

  lemma NotHeldRefuses(db: Database, i: nat, result: TransferResult, org: string)
    requires Sound(db) && i < |db.settlements| && Phase(db, i) != Held
    ensures !Acted(FinalizeSuccess(db, i, result)) && !Acted(ReleaseReservation(db, org, i))
  {
    FinalizeIsSafe(db, i, result);
    ReleaseIsSafe(db, org, i);
  }

  /** The wallet of the settlement is stored in its currency. */
  predicate CurrencyHolds(db: Database, i: nat)
    requires i < |db.settlements| && db.settlements[i].wallet < |db.wallets|
  {
    Denominated(db.wallets[db.settlements[i].wallet], db.settlements[i].currency)
  }

  /** A failure, or the end of a failed initiation, is accepted exactly on a held settlement. */
  lemma ReleaseActsExactlyWhen(db: Database, i: nat)
    requires Sound(db) && i < |db.settlements| && db.settlements[i].wallet < |db.wallets|
    ensures Acted(ReleaseReservation(db, db.settlements[i].org, i)) <==> Phase(db, i) == Held && CurrencyHolds(db, i)
  {
    if Phase(db, i) == Held {
      HeldMoneyIsThere(db, i);
      ReleasingActsExactlyWhen(db, db.settlements[i].org, i);
    } else {
      ReleaseIsSafe(db, db.settlements[i].org, i);
    }
  }

  /** The unique keys of the debit row are free. */
  predicate DebitKeysFree(db: Database, i: nat)
    requires i < |db.settlements|
  {
    var s := db.settlements[i];
    LedgerFree(db, s.org, s.wallet, "PROVIDER_" + s.sourceType, s.sourceType, s.sourceId, s.internalReference, s.transferReference)
  }

  /** A success is accepted exactly on a held settlement that it names in reference, amount, currency and recipient,
      whose debit keys are free and whose obligation is still open. */
  lemma FinalizeActsExactlyWhen(db: Database, i: nat, result: TransferResult)
    requires Sound(db) && i < |db.settlements| && db.settlements[i].wallet < |db.wallets|
    ensures Acted(FinalizeSuccess(db, i, result)) <==>
      && Phase(db, i) == Held && SameTransfer(db.settlements[i], result) && CurrencyHolds(db, i)
      && DebitKeysFree(db, i) && Payable(db, db.settlements[i])
  {
    if Phase(db, i) == Held {
      HeldMoneyIsThere(db, i);
      FinalizingActsExactlyWhen(db, i, result);
    } else {
      FinalizeIsSafe(db, i, result);
    }
  }

  /** What the row, its wallet, the unique keys and the obligation must look like for a result to land. */
  predicate ReadyFor(db: Database, i: nat, result: TransferResult)
    requires i < |db.settlements| && db.settlements[i].wallet < |db.wallets|
  {
    var s := db.settlements[i];
    match result.state
    case SUCCESS => Phase(db, i) == Held && SameTransfer(s, result) && CurrencyHolds(db, i) && DebitKeysFree(db, i) && Payable(db, s)
    case FAILURE => Phase(db, i) == Held && CurrencyHolds(db, i)
    case REVERSAL => s.status == SUCCEEDED && CurrencyAgrees(s.currency, db.wallets[s.wallet].currency)
                     && ReversalKeysFree(db, i, ReversalReference(result.reference))
    case NON_CONCLUSIVE => false
  }

  /** Exactly when a conclusive result is accepted, by what can be read before its transaction. */
  lemma AcceptedExactlyWhen(db: Database, i: nat, seen: Settlement, result: TransferResult)
    requires Sound(db) && SeenRow(db, i, seen) && db.settlements[i].wallet < |db.wallets|
    ensures Accepted(db, i, seen, result) <==> LetThrough(seen, result) && ReadyFor(db, i, result)
  {
    match result.state {
      case SUCCESS => FinalizeActsExactlyWhen(db, i, result);
      case FAILURE => ReleaseActsExactlyWhen(db, i);
      case REVERSAL => ReversalCommits(db, i, ReversalReference(result.reference));
      case NON_CONCLUSIVE =>
    }
  }

  // ----- a step without a verdict moves no money -----

  predicate SameMoneyRow(s: Settlement, t: Settlement) {
    SameIdentity(s, t) && t.reservedAt == s.reservedAt && t.releasedAt == s.releasedAt
  }

  lemma SamePhase(db: Database, d: Database, i: nat)
    requires i < |db.settlements| && i < |d.settlements| && d.ledger == db.ledger && SameMoneyRow(db.settlements[i], d.settlements[i])
    ensures Phase(d, i) == Phase(db, i)
  {
  }

  /** What the handler does with a result that is not accepted: nothing, or the unguarded status write. */
  predicate NothingOrOverwritten(db: Database, d: Database, i: nat, result: TransferResult)
    requires i < |db.settlements|
  {
    d == db || (result.state == NON_CONCLUSIVE
                && d == Overwrite(db, i, Some(PROVIDER_PROCESSING), Some(result.providerStatus), result.transferCode).db)
  }

  lemma RefusedSuccess(db: Database, i: nat, result: TransferResult)
    requires Sound(db) && i < |db.settlements| && !Acted(FinalizeSuccess(db, i, result))
    ensures Land(db, FinalizeSuccess(db, i, result)) == db
  {
    FinalizeIsSafe(db, i, result);
  }

  lemma RefusedFailure(db: Database, i: nat, org: string)
    requires Sound(db) && i < |db.settlements| && !Acted(ReleaseReservation(db, org, i))
    ensures Land(db, ReleaseReservation(db, org, i)) == db
  {
    ReleaseIsSafe(db, org, i);
  }

  lemma RefusedReversal(db: Database, i: nat, org: string, reference: string)
    requires Sound(db) && i < |db.settlements| && db.settlements[i].via == PROVIDER && !Acted(ReverseSucceeded(db, org, i, reference))
    ensures Land(db, ReverseSucceeded(db, org, i, reference)) == db
  {
    ReverseIsSafe(db, org, i, reference);
  }

  lemma RefusedNews(db: Database, i: nat, seen: Settlement, result: TransferResult)
    requires Sound(db) && i < |db.settlements| && db.settlements[i].via == PROVIDER && !Accepted(db, i, seen, result)
    ensures NothingOrOverwritten(db, Apply(db, i, seen, result).db, i, result)
  {
    if LetThrough(seen, result) {
      match result.state {
        case SUCCESS => RefusedSuccess(db, i, result);
        case FAILURE => RefusedFailure(db, i, seen.org);
        case REVERSAL => RefusedReversal(db, i, seen.org, ReversalReference(result.reference));
        case NON_CONCLUSIVE =>
      }
    }
  }

  lemma OverwrittenMovesNothing(db: Database, d: Database, i: nat, result: TransferResult, k: nat)
    requires i < |db.settlements| && k < |db.settlements| && NothingOrOverwritten(db, d, i, result)
    ensures d.wallets == db.wallets && d.ledger == db.ledger && |d.settlements| == |db.settlements|
    ensures SameMoneyRow(db.settlements[k], d.settlements[k]) && Phase(d, k) == Phase(db, k)
  {
    SamePhase(db, d, k);
  }

  /** News that is not accepted changes no wallet and no ledger row, and no settlement changes its money columns. */
  lemma RefusedNewsMovesNothing(db: Database, i: nat, seen: Settlement, result: TransferResult, k: nat)
    requires Sound(db) && SeenRow(db, i, seen) && !Accepted(db, i, seen, result) && k < |db.settlements|
    ensures var d := Apply(db, i, seen, result).db;
      && d.wallets == db.wallets && d.ledger == db.ledger && |d.settlements| == |db.settlements|
      && SameMoneyRow(db.settlements[k], d.settlements[k]) && Phase(d, k) == Phase(db, k)
  {
    RefusedNews(db, i, seen, result);
    OverwrittenMovesNothing(db, Apply(db, i, seen, result).db, i, result, k);
  }

  /** After the money was debited, released or restored, no further success or failure is accepted; a reversal is
      accepted only while it stands debited. */
  lemma LaterNewsIsRefused(db: Database, i: nat, seen: Settlement, result: TransferResult)
    requires Sound(db) && SeenRow(db, i, seen)
    requires if result.state == REVERSAL then Phase(db, i) != Debited else Phase(db, i) != Held
    ensures !Accepted(db, i, seen, result)
    ensures Apply(db, i, seen, result).db.wallets == db.wallets && Apply(db, i, seen, result).db.ledger == db.ledger
    ensures |Apply(db, i, seen, result).db.settlements| == |db.settlements| && Phase(Apply(db, i, seen, result).db, i) == Phase(db, i)
  {
    NewsIsRefused(db, i, seen, result);
    RefusedNewsMovesNothing(db, i, seen, result, i);
  }

  lemma NewsIsRefused(db: Database, i: nat, seen: Settlement, result: TransferResult)
    requires Sound(db) && SeenRow(db, i, seen)
    requires if result.state == REVERSAL then Phase(db, i) != Debited else Phase(db, i) != Held
    ensures !Accepted(db, i, seen, result)
  {
    if result.state == REVERSAL {
      ReverseIsSafe(db, seen.org, i, ReversalReference(result.reference));
    } else {
      NotHeldRefuses(db, i, result, seen.org);
    }
  }

  predicate SameMoneyAt(db: Database, d: Database, i: nat)
    requires i < |db.settlements|
  {
    d.ledger == db.ledger && |d.settlements| == |db.settlements| && SameMoneyRow(db.settlements[i], d.settlements[i])
  }

  lemma InitiatingMovesNothing(db: Database, task: Task, response: Response, i: nat)
    requires Initiating(task) && i < |db.settlements|
    ensures SameMoneyAt(db, ActInitiating(db, task, response).db, i)
  {
  }

  lemma ReconcilingMovesNothing(db: Database, task: Task, response: Response, i: nat)
    requires Reconciling(task) && i < |db.settlements|
    ensures SameMoneyAt(db, ActReconciling(db, task, response).db, i)
  {
  }

  lemma OtpMovesNothing(db: Database, task: Task, response: Response, i: nat)
    requires Otp(task) && i < |db.settlements|
    ensures SameMoneyAt(db, ActOtp(db, task, response).db, i)
  {
    if !task.AwaitingOtp? {
      var (status, providerStatus, code) := OtpWrite(task);
      OtpWrites(db, task, response);
      OverwriteKeepsMoney(db, task.i, status, providerStatus, code, i);
    }
  }

  lemma OverwriteKeepsMoney(db: Database, j: nat, status: Option<Status>, providerStatus: Option<string>, code: Option<string>, i: nat)
    requires i < |db.settlements|
    ensures SameMoneyAt(db, Land(db, Overwrite(db, j, status, providerStatus, code)), i)
  {
  }

  /** A one-time-password step writes nothing or overwrites columns of one row. */
  lemma OtpWrites(db: Database, task: Task, response: Response)
    requires Otp(task) && !task.AwaitingOtp?
    ensures var e := ActOtp(db, task, response);
      var (status, providerStatus, code) := OtpWrite(task);
      && (e.db == db || e.db == Land(db, Overwrite(db, task.i, status, providerStatus, code)))
      && (e.next.Finished? || e.next.AwaitingOtp? || e.next.ResettingOtp?)
  {
  }

  lemma UndoingMovesNothing(db: Database, j: nat, providerStatus: string, i: nat)
    requires i < |db.settlements|
    ensures SameMoneyAt(db, Land(db, ReverseBusiness(db, j, providerStatus)), i)
  {
  }

  lemma ConcludingMovesNothing(db: Database, task: Task, i: nat)
    requires task.Finished? || task.FlaggingUnknown? || task.NotingFailure? || task.UndoingBusiness?
    requires i < |db.settlements|
    ensures SameMoneyAt(db, ActConcluding(db, task).db, i)
  {
    if task.UndoingBusiness? { UndoingMovesNothing(db, task.i, task.providerStatus, i); }
  }

  /** Every step other than handling news or ending a failed initiation leaves the money columns alone. */
  lemma PlainStepMovesNothing(db: Database, task: Task, response: Response, i: nat)
    requires !task.Applying? && !task.ReleasingAfterError? && i < |db.settlements|
    ensures SameMoneyAt(db, Act(db, task, response).db, i)
  {
    if Initiating(task) {
      InitiatingMovesNothing(db, task, response, i);
    } else if Reconciling(task) {
      ReconcilingMovesNothing(db, task, response, i);
    } else if Otp(task) {
      OtpMovesNothing(db, task, response, i);
    } else {
      ConcludingMovesNothing(db, task, i);
    }
  }

  predicate Moves(before: MoneyPhase, verdict: Option<Verdict>, after: MoneyPhase) {
    match verdict
    case None => after == before
    case Some(Success) => before == Held && after == Debited
    case Some(Reversal) => before == Debited && after == Restored
    case Some(_) => before == Held && after == Released
  }

  lemma AcceptedMoves(db: Database, j: nat, seen: Settlement, result: TransferResult)
    requires Sound(db) && SeenRow(db, j, seen) && Accepted(db, j, seen, result)
    ensures var d := Apply(db, j, seen, result).db;
      OnlyRow(db, d, j) && Moves(Phase(db, j), Some(StateVerdict(result.state)), Phase(d, j))
  {
    match result.state {
      case SUCCESS => FinalizeIsSafe(db, j, result);
      case FAILURE => ReleaseIsSafe(db, seen.org, j);
      case REVERSAL => ReverseIsSafe(db, seen.org, j, ReversalReference(result.reference));
    }
  }

  lemma ApplyMoves(db: Database, j: nat, seen: Settlement, result: TransferResult, channel: Channel, i: nat)
    requires Sound(db) && SeenRow(db, j, seen) && i < |db.settlements|
    ensures var d := Apply(db, j, seen, result).db;
      |d.settlements| == |db.settlements| && Moves(Phase(db, i), Decides(db, Applying(j, seen, result, channel), i), Phase(d, i))
  {
    if Accepted(db, j, seen, result) {
      AcceptedMoves(db, j, seen, result);
    } else {
      RefusedNewsMovesNothing(db, j, seen, result, i);
    }
  }

  predicate MovesTo(db: Database, d: Database, task: Task, i: nat)
    requires i < |db.settlements|
  {
    |d.settlements| == |db.settlements| && Moves(Phase(db, i), Decides(db, task, i), Phase(d, i))
  }

  lemma PlainStepMoves(db: Database, task: Task, response: Response, i: nat)
    requires !task.Applying? && !task.ReleasingAfterError? && i < |db.settlements|
    ensures MovesTo(db, Act(db, task, response).db, task, i)
  {
    PlainStepMovesNothing(db, task, response, i);
    SamePhase(db, Act(db, task, response).db, i);
  }

  lemma ApplyingStepMoves(db: Database, task: Task, response: Response, i: nat)
    requires Sound(db) && task.Applying? && SeenRow(db, task.i, task.seen) && i < |db.settlements|
    ensures MovesTo(db, Act(db, task, response).db, task, i)
  {
    ApplyMoves(db, task.i, task.seen, task.result, task.channel, i);
  }

  lemma ReleasingStepMoves(db: Database, task: Task, response: Response, i: nat)
    requires Sound(db) && task.ReleasingAfterError? && task.i < |db.settlements| && i < |db.settlements|
    ensures MovesTo(db, Act(db, task, response).db, task, i)
  {
    ReleaseMoves(db, task.i, i);
  }

  lemma StepMoves(db: Database, deliveries: set<Delivery>, task: Task, response: Response, i: nat)
    requires Sound(db) && TaskSound(db, deliveries, task) && i < |db.settlements|
    ensures MovesTo(db, Act(db, task, response).db, task, i)
  {
    if task.Applying? {
      ApplyingStepMoves(db, task, response, i);
    } else if task.ReleasingAfterError? {
      ReleasingStepMoves(db, task, response, i);
    } else {
      PlainStepMoves(db, task, response, i);
    }
  }

  lemma ReleaseMoves(db: Database, j: nat, i: nat)
    requires Sound(db) && j < |db.settlements| && i < |db.settlements|
    ensures var d := Land(db, ReleaseReservation(db, db.settlements[j].org, j));
      |d.settlements| == |db.settlements| && Moves(Phase(db, i), Decides(db, ReleasingAfterError(j), i), Phase(d, i))
  {
    ReleaseIsSafe(db, db.settlements[j].org, j);
  }

  lemma HeldOnlyFromUntouched(sys: System, event: Event, i: nat)
    requires Inv(sys) && i < |sys.db.settlements|
    ensures var sys' := Next(sys, event);
      i < |sys'.db.settlements| && (Phase(sys'.db, i) == Held ==> Phase(sys.db, i) == Held || Phase(sys.db, i) == Untouched)
  {
    EventKeepsInv(sys, event);
    assert Edge(sys.db.settlements[i], Phase(sys.db, i), Next(sys, event).db.settlements[i], Phase(Next(sys, event).db, i));
  }

  lemma BackgroundMoves(sys: System, event: Event, i: nat)
    requires Inv(sys) && i < |sys.db.settlements| && (event.Prepare? || event.Manual? || event.Outside?)
    ensures var d := Next(sys, event).db;
      i < |d.settlements| && (d.settlements[i].via == PROVIDER ==> Phase(d, i) == Phase(sys.db, i) || Phase(d, i) == Held)
  {
    match event {
      case Prepare(source, key, internalReference) =>
        if SettlementSource(source.sourceType) { PrepareBackground(sys.db, source, key, internalReference); }
      case Manual(source, key, externalReference, internalReference) =>
        if SettlementSource(source.sourceType) && SameObligation(sys.db, source) {
          ManualBackground(sys.db, source, key, externalReference, internalReference);
        }
      case Outside(x) =>
        if x.sourceType.Some? ==> !SettlementSource(x.sourceType.value) { OutsideBackground(sys.db, x); }
    }
  }

  lemma InitiateMoves(sys: System, org: string, j: nat, i: nat)
    requires Inv(sys) && i < |sys.db.settlements|
    ensures var d := Next(sys, Initiate(org, j)).db;
      i < |d.settlements| && (Phase(d, i) == Phase(sys.db, i) || Phase(d, i) == Held)
  {
    ReserveAndClaimIsSafe(sys.db, org, j);
    ClaimKeepsRow(sys.db, org, j);
  }

  lemma WorkerMoves(sys: System, t: nat, response: Response, i: nat)
    requires Inv(sys) && i < |sys.db.settlements| && t < |sys.tasks|
    ensures var d := Next(sys, Step(t, response)).db;
      i < |d.settlements| && Moves(Phase(sys.db, i), VerdictOf(sys, Step(t, response), i), Phase(d, i))
  {
    assert TaskSound(sys.db, sys.deliveries, sys.tasks[t]);
    StepMoves(sys.db, sys.deliveries, sys.tasks[t], response, i);
    NextIsStepped(sys, t, response);
  }

  /** An event moves the money of a provider settlement exactly as its verdict says; without one it can only be
      reserved. */
  lemma EventMoves(sys: System, event: Event, i: nat)
    requires Inv(sys) && i < |sys.db.settlements| && i < |Next(sys, event).db.settlements|
    requires Next(sys, event).db.settlements[i].via == PROVIDER
    ensures var before, after := Phase(sys.db, i), Phase(Next(sys, event).db, i);
      Moves(before, VerdictOf(sys, event, i), after) || (VerdictOf(sys, event, i).None? && before == Untouched && after == Held)
  {
    HeldOnlyFromUntouched(sys, event, i);
    if event.Prepare? || event.Manual? || event.Outside? {
      BackgroundMoves(sys, event, i);
    } else if event.Initiate? {
      InitiateMoves(sys, event.org, event.i, i);
    } else if event.Step? && event.t < |sys.tasks| {
      WorkerMoves(sys, event.t, event.response, i);
    }
  }

  // ----- whole runs -----

  /** Where the money is after the verdicts, if there was one. */
  function Decided(verdicts: seq<Verdict>): MoneyPhase {
    if verdicts == [Success] then Debited else if verdicts == [Success, Reversal] then Restored else Released
  }

  predicate OneConclusion(verdicts: seq<Verdict>) {
    verdicts <= [Success, Reversal] || verdicts <= [Failure] || verdicts <= [Abandonment]
  }

  lemma VerdictsGrow(verdicts: seq<Verdict>, before: MoneyPhase, v: Option<Verdict>, after: MoneyPhase)
    requires OneConclusion(verdicts) && (if verdicts == [] then before == Untouched || before == Held else before == Decided(verdicts))
    requires Moves(before, v, after) || (v.None? && before == Untouched && after == Held)
    ensures var all := verdicts + if v.Some? then [v.value] else [];
      OneConclusion(all) && if all == [] then after == Untouched || after == Held else after == Decided(all)
  {
    var all := verdicts + if v.Some? then [v.value] else [];
    if v.None? {
      assert all == verdicts;
    } else if verdicts == [] {
      assert all == [v.value];
    } else {
      assert v == Some(Reversal) && verdicts == [Success];
    }
  }

  lemma StaysProvider(sys: System, event: Event, i: nat)
    requires Inv(sys) && i < |Next(sys, event).db.settlements| && Next(sys, event).db.settlements[i].via == PROVIDER
    ensures i < |sys.db.settlements| ==> sys.db.settlements[i].via == PROVIDER
    ensures i >= |sys.db.settlements| ==> Phase(Next(sys, event).db, i) == Untouched
  {
    EventKeepsInv(sys, event);
    if i < |sys.db.settlements| {
      assert SettlementSound(sys.db, i);
      assert Ages(sys.db.settlements[i], Next(sys, event).db.settlements[i]);
    } else {
      assert Born(Next(sys, event).db.settlements[i], Phase(Next(sys, event).db, i));
    }
  }

  /** In every run, whatever is delivered, how often and in which order: a provider settlement is decided by the
      first conclusive result that is accepted. A success may be followed by one accepted reversal; nothing is
      accepted after a failure or an abandoned initiation. Its effect on the ledger is exactly that: minus its
      amount while the accepted success stands, and nothing otherwise. */
  lemma {:induction false} FirstConclusiveResultDecides(sys: System, events: seq<Event>, i: nat)
    requires Initial(sys) && i < |After(sys, events).db.settlements| && After(sys, events).db.settlements[i].via == PROVIDER
    ensures var db, verdicts := After(sys, events).db, Verdicts(sys, events, i);
      && OneConclusion(verdicts)
      && (if verdicts == [] then Phase(db, i) == Untouched || Phase(db, i) == Held else Phase(db, i) == Decided(verdicts))
      && NetEffect(db.ledger, db.settlements[i]) == if verdicts == [Success] then -db.settlements[i].amount else 0
  {
    InitialInv(sys);
    RunsKeepInv(sys, events);
    NetEffectIsThePhase(After(sys, events).db, i);
    VerdictsDecide(sys, events, i);
  }

  /** The money is where the verdicts say. */
  predicate DecidedBy(verdicts: seq<Verdict>, phase: MoneyPhase) {
    OneConclusion(verdicts) && if verdicts == [] then phase == Untouched || phase == Held else phase == Decided(verdicts)
  }

  lemma {:induction false} VerdictsDecide(sys: System, events: seq<Event>, i: nat)
    requires Initial(sys) && i < |After(sys, events).db.settlements| && After(sys, events).db.settlements[i].via == PROVIDER
    ensures DecidedBy(Verdicts(sys, events, i), Phase(After(sys, events).db, i))
  {
    InitialInv(sys);
    if events != [] {
      var past, event := events[..|events| - 1], events[|events| - 1];
      var before := After(sys, past);
      RunsKeepInv(sys, past);
      StaysProvider(before, event, i);
      if i < |before.db.settlements| {
        VerdictsDecide(sys, past, i);
        EventDecides(before, event, i, Verdicts(sys, past, i));
      } else {
        NoVerdictBeforeBirth(sys, past, i);
      }
    }
  }

  lemma EventDecides(sys: System, event: Event, i: nat, verdicts: seq<Verdict>)
    requires Inv(sys) && i < |sys.db.settlements| && i < |Next(sys, event).db.settlements|
    requires Next(sys, event).db.settlements[i].via == PROVIDER && DecidedBy(verdicts, Phase(sys.db, i))
    ensures var v := VerdictOf(sys, event, i);
      DecidedBy(verdicts + if v.Some? then [v.value] else [], Phase(Next(sys, event).db, i))
  {
    EventMoves(sys, event, i);
    VerdictsGrow(verdicts, Phase(sys.db, i), VerdictOf(sys, event, i), Phase(Next(sys, event).db, i));
  }

  lemma {:induction false} NoVerdictBeforeBirth(sys: System, events: seq<Event>, i: nat)
    requires Initial(sys) && i >= |After(sys, events).db.settlements|
    ensures Verdicts(sys, events, i) == []
  {
    if events != [] {
      InitialInv(sys);
      RunsKeepInv(sys, events[..|events| - 1]);
      EventKeepsInv(After(sys, events[..|events| - 1]), events[|events| - 1]);
      NoVerdictBeforeBirth(sys, events[..|events| - 1], i);
    }
  }
}
