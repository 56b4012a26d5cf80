/** What a worker does with each answer: which row it leaves when it works on undisturbed, and when it calls the
    provider. The steps themselves may be interleaved with anything; these are their effects spelled out. */
module WorkerEffects {
  import opened Prelude
  import opened Records
  import opened Settlements
  import opened Effects
  import opened SettlementInvariant
  import opened TransactionSafety
  import opened Protocol
  import opened Verdicts

  /** The worker's next step after the effect of its earlier ones, with all it sent and put on record. */
  function Then(e: Effect, response: Response): Effect {
    var f := Act(e.db, e.next, response);
    Effect(f.db, f.next, e.calls + f.calls, e.deliveries + f.deliveries)
  }

  /** A step that sends and records nothing adds nothing. */
  lemma ThenQuietly(e: Effect, response: Response)
    ensures var f := Act(e.db, e.next, response);
      && (f.calls == [] && f.deliveries == {} ==> Then(e, response) == Effect(f.db, f.next, e.calls, e.deliveries))
      && (e.calls == [] && e.deliveries == {} ==> Then(e, response) == f)
  {
    assert e.calls + [] == e.calls && e.deliveries + {} == e.deliveries;
  }

  /** The database with one settlement row replaced and nothing else changed. */
  function WithRow(db: Database, i: nat, s: Settlement): Database
    requires i < |db.settlements|
  {
    db.(settlements := db.settlements[i := s])
  }

  // ----- a definite error -----

  predicate MayFail(task: Task) {
    task.EnsuringRecipient? || task.SavingRecipient? || task.MarkingAttempt? || task.AwaitingTransfer?
  }

  /** A definite error at any stage of an initiation makes the release the worker's next step. */
  lemma DefiniteErrorReleasesNext(db: Database, task: Task)
    requires MayFail(task)
    ensures Act(db, task, Definite) == Effect(db, ReleasingAfterError(task.i), [], {InitiationFailed(task.i)})
  {
  }

  /** The reservation was given back: the row reads FAILED, the wallet holds the amount less in reserve, no money has
      left it, and nothing else changed. */
  ghost predicate GivenBack(db: Database, d: Database, i: nat)
    requires i < |db.settlements| && db.settlements[i].wallet < |db.wallets|
  {
    var s := db.settlements[i];
    && |d.settlements| == |db.settlements| && Phase(d, i) == Released
    && d == WithRow(db, i, s.(status := FAILED, releasedAt := true)).(
         wallets := db.wallets[s.wallet := db.wallets[s.wallet].(reserved := db.wallets[s.wallet].reserved - s.amount)])
  }

  lemma ReleaseGivesBack(db: Database, i: nat, response: Response)
    requires Sound(db) && i < |db.settlements| && Phase(db, i) == Held
    requires db.settlements[i].wallet < |db.wallets| && CurrencyHolds(db, i)
    ensures var e := Act(db, ReleasingAfterError(i), response);
      e.next == Finished && e.calls == [] && e.deliveries == {} && GivenBack(db, e.db, i)
  {
    ReleaseActsExactlyWhen(db, i);
    ReleaseIsSafe(db, db.settlements[i].org, i);
    ReleasingActsExactlyWhen(db, db.settlements[i].org, i);
  }

  /** A definite error at any stage of an initiation, while the money is held, ends with the reservation given back. */
  lemma DefiniteErrorGivesBack(db: Database, task: Task, response: Response)
    requires MayFail(task) && Sound(db) && task.i < |db.settlements| && Phase(db, task.i) == Held
    requires db.settlements[task.i].wallet < |db.wallets| && CurrencyHolds(db, task.i)
    ensures var e := Then(Act(db, task, Definite), response);
      e.next == Finished && e.calls == [] && GivenBack(db, e.db, task.i)
  {
    DefiniteErrorReleasesNext(db, task);
    ReleaseGivesBack(db, task.i, response);
    ThenQuietly(Effect(db, ReleasingAfterError(task.i), [], {InitiationFailed(task.i)}), response);
  }

  // ----- an unclear outcome -----

  /** The answers after which nobody knows whether the transfer exists. */
  predicate Unclear(task: Task, response: Response) {
    || ((task.EnsuringRecipient? || task.AwaitingTransfer? || task.Verifying?) && response == Ambiguous)
    || (task.Verifying? && response == Missing && (task.seen.initiationAttempted || task.seen.recipientReference in [None, Some("")]))
  }

  lemma UnclearFlagsNext(db: Database, task: Task, response: Response)
    requires Unclear(task, response)
    ensures Act(db, task, response) == Effect(db, FlaggingUnknown(task.i), [], {})
  {
  }

  lemma FlagWrites(db: Database, i: nat, response: Response)
    requires i < |db.settlements|
    ensures Act(db, FlaggingUnknown(i), response) == Effect(WithRow(db, i, db.settlements[i].(status := UNKNOWN)), Finished, [], {})
  {
  }

  /** An unclear outcome leaves the row UNKNOWN with its money where it was, and sends nothing. */
  lemma UnclearOutcomeIsUnknown(db: Database, task: Task, response: Response, next: Response)
    requires Unclear(task, response) && task.i < |db.settlements|
    ensures var d := WithRow(db, task.i, db.settlements[task.i].(status := UNKNOWN));
      Then(Act(db, task, response), next) == Effect(d, Finished, [], {}) && Phase(d, task.i) == Phase(db, task.i)
  {
    UnclearFlagsNext(db, task, response);
    FlagWrites(db, task.i, next);
    ThenQuietly(Act(db, task, response), next);
    SamePhase(db, WithRow(db, task.i, db.settlements[task.i].(status := UNKNOWN)), task.i);
  }

  // ----- a whole initiation -----

  /** What a provider says is passed on as it is, but a success of an initiation or of an OTP counts as pending. */
  lemma DowngradedExactly(said: TransferResult)
    ensures Downgrade(said) == TransferResult(
      said.reference, said.transferCode, said.recipientReference, said.providerStatus,
      match said.state case SUCCESS => NON_CONCLUSIVE case NON_CONCLUSIVE => NON_CONCLUSIVE case FAILURE => FAILURE case REVERSAL => REVERSAL,
      said.amountMinor, said.currency)
  {
  }

  lemma RecipientIsSaved(db: Database, i: nat, code: string, next: Response)
    requires i < |db.settlements| && next != Definite
    ensures var d := WithRow(db, i, db.settlements[i].(recipientReference := Some(code)));
      && Act(db, EnsuringRecipient(i), Recipient(code)) == Effect(db, SavingRecipient(i, code), [], {})
      && Act(db, SavingRecipient(i, code), next) == Effect(d, MarkingAttempt(i, d.settlements[i]), [], {})
  {
  }

  lemma AttemptIsMarkedAndSent(db: Database, i: nat, seen: Settlement, next: Response, last: Response)
    requires i < |db.settlements| && next != Definite
    ensures var d := WithRow(db, i, db.settlements[i].(initiationAttempted := true));
      && Act(db, MarkingAttempt(i, seen), next) == Effect(d, CallingTransfer(i, seen), [], {})
      && Act(d, CallingTransfer(i, seen), last)
         == Effect(d, AwaitingTransfer(i, seen), [Call(i, false, seen.transferReference, seen.amount, seen.currency)], {})
  {
  }

  /** An undisturbed initiation saves the recipient, marks the attempt before it calls, and calls exactly once, for the
      row's own reference, amount and currency; the answer then goes to the result handler. */
  lemma InitiationCallsOnce(db: Database, i: nat, code: string)
    requires i < |db.settlements|
    ensures var s := db.settlements[i].(recipientReference := Some(code));
      Then(Then(Then(Act(db, EnsuringRecipient(i), Recipient(code)), Proceed), Proceed), Proceed)
        == Effect(WithRow(db, i, s.(initiationAttempted := true)), AwaitingTransfer(i, s), [Call(i, false, s.transferReference, s.amount, s.currency)], {})
  {
    var s := db.settlements[i].(recipientReference := Some(code));
    var d := WithRow(db, i, s);
    RecipientIsSaved(db, i, code, Proceed);
    AttemptIsMarkedAndSent(d, i, s, Proceed, Proceed);
    assert WithRow(d, i, s.(initiationAttempted := true)) == WithRow(db, i, s.(initiationAttempted := true));
    ThenQuietly(Effect(db, SavingRecipient(i, code), [], {}), Proceed);
    ThenQuietly(Effect(d, MarkingAttempt(i, s), [], {}), Proceed);
    ThenQuietly(Effect(WithRow(d, i, s.(initiationAttempted := true)), CallingTransfer(i, s), [], {}), Proceed);
  }

  /** Every answer is put on record under its channel and handed on, downgraded unless it came from a verification. */
  lemma AnswersAreHandedOn(db: Database, i: nat, seen: Settlement, said: TransferResult)
    ensures Act(db, AwaitingTransfer(i, seen), Answer(said)) == Effect(db, Applying(i, seen, Downgrade(said), INITIATE), [], {Delivery(INITIATE, said)})
    ensures Act(db, Verifying(i, seen), Answer(said)) == Effect(db, Applying(i, seen, said, VERIFY), [], {Delivery(VERIFY, said)})
    ensures Act(db, AwaitingRetry(i, seen), Answer(said)) == Effect(db, Applying(i, seen, Downgrade(said), INITIATE), [], {Delivery(INITIATE, said)})
  {
  }

  /** News that does not fit the row the worker read, or comes after that row had ended, leaves no trace; only a
      reversal after a success goes on. */
  lemma UnfitNewsLeavesNoTrace(db: Database, i: nat, seen: Settlement, result: TransferResult, channel: Channel, response: Response)
    requires !SameTransfer(seen, result)
             || (seen.status in [SUCCEEDED, FAILED, REVERSED] && !(seen.status == SUCCEEDED && result.state == REVERSAL))
    ensures Act(db, Applying(i, seen, result, channel), response) == Effect(db, Finished, [], {})
  {
    MatchesExactlyWhen(seen, result);
  }

  // ----- a second call -----

  /** The reconciler may call again only when it read a recipient and no attempt, and still finds no attempt. */
  predicate MayRetry(db: Database, i: nat, seen: Settlement) {
    && !seen.initiationAttempted && seen.recipientReference != None && seen.recipientReference != Some("")
    && i < |db.settlements| && !db.settlements[i].initiationAttempted
  }

  lemma MissingIsRetried(db: Database, i: nat, seen: Settlement, b: Response, c: Response)
    requires MayRetry(db, i, seen)
    ensures Then(Then(Act(db, Verifying(i, seen), Missing), b), c)
      == Effect(WithRow(db, i, db.settlements[i].(initiationAttempted := true)), AwaitingRetry(i, seen),
                [Call(i, true, seen.transferReference, seen.amount, seen.currency)], {})
  {
    var d := WithRow(db, i, db.settlements[i].(initiationAttempted := true));
    assert Act(db, ClaimingRetry(i, seen), b) == Effect(d, CallingRetry(i, seen), [], {});
    ThenQuietly(Effect(db, ClaimingRetry(i, seen), [], {}), b);
    ThenQuietly(Effect(d, CallingRetry(i, seen), [], {}), c);
  }

  /** A verification ends in a second call exactly when the transfer is missing at the provider and was provably never
      attempted; the call repeats the row's reference, amount and currency, after the attempt is marked. */
  lemma SecondCallExactlyWhen(db: Database, i: nat, seen: Settlement, a: Response, b: Response, c: Response)
    requires a == Missing || a == Ambiguous || a == Definite || a.Answer?
    ensures Then(Then(Act(db, Verifying(i, seen), a), b), c).calls
      == if a == Missing && MayRetry(db, i, seen) then [Call(i, true, seen.transferReference, seen.amount, seen.currency)] else []
  {
    if a == Missing && MayRetry(db, i, seen) {
      MissingIsRetried(db, i, seen, b, c);
    } else {
      var e := Act(db, Verifying(i, seen), a);
      NoCallAfter(e.db, e.next, b);
      NoCallAfter(Then(e, b).db, Then(e, b).next, c);
    }
  }

  /** Workers past their answer call nobody, now or later. */
  lemma NoCallAfter(db: Database, task: Task, response: Response)
    requires task.Finished? || task.FlaggingUnknown? || task.Applying? || task.NotingFailure? || task.UndoingBusiness?
             || (task.ClaimingRetry? && (task.i >= |db.settlements| || db.settlements[task.i].initiationAttempted))
    ensures var e := Act(db, task, response);
      e.calls == [] && (e.next.Finished? || e.next.FlaggingUnknown? || e.next.Applying? || e.next.NotingFailure? || e.next.UndoingBusiness?)
  {
    if task.Applying? { ApplyCallsNobody(db, task.i, task.seen, task.result); }
  }

  lemma ApplyCallsNobody(db: Database, i: nat, seen: Settlement, result: TransferResult)
    ensures var e := Apply(db, i, seen, result);
      e.calls == [] && e.deliveries == {} && (e.next.Finished? || e.next.NotingFailure? || e.next.UndoingBusiness?)
  {
  }

  /** A definite error of a verification, an attempt somebody else marked first, and any error of the second call leave
      everything as it is: the row is looked at again later. */
  lemma ReconcilerStepsBack(db: Database, i: nat, seen: Settlement, response: Response)
    ensures Act(db, Verifying(i, seen), Definite) == Effect(db, Finished, [], {})
    ensures i < |db.settlements| && db.settlements[i].initiationAttempted ==> Act(db, ClaimingRetry(i, seen), response) == Effect(db, Finished, [], {})
    ensures response == Ambiguous || response == Definite ==> Act(db, AwaitingRetry(i, seen), response) == Effect(db, Finished, [], {})
  {
  }

  // ----- one-time passwords -----

  /** A submission goes out exactly for a processing row that waits for a one-time password and was not released
      meanwhile; the row is marked first, so a second submission finds it taken. */
  lemma OtpIsClaimedExactlyWhen(db: Database, i: nat, seen: Settlement, response: Response)
    ensures var waiting := i < |db.settlements| && db.settlements[i].status == PROVIDER_PROCESSING
                           && db.settlements[i].providerStatus == Some("otp") && !db.settlements[i].releasedAt;
      Act(db, ClaimingOtp(i, seen), response)
        == if waiting then Effect(WithRow(db, i, db.settlements[i].(providerStatus := Some("otp_finalizing"))), AwaitingOtp(i, seen), [], {})
           else Effect(db, Finished, [], {})
  {
  }

  /** The row as each answer to a submission leaves it, when nobody else touches it: an accepted password shows the
      provider's word, a refused or unfit one waits for another password, and an unclear one is unknown. */
  function AfterOtp(s: Settlement, seen: Settlement, response: Response): Settlement
    requires response.Answer? || response == Ambiguous || response == Definite
  {
    match response
    case Ambiguous => s.(status := UNKNOWN, providerStatus := Some("unknown"))
    case Answer(said) =>
      if SameTransfer(seen, said) && (said.state == NON_CONCLUSIVE || said.state == SUCCESS)
      then s.(status := PROVIDER_PROCESSING, providerStatus := Some(said.providerStatus),
              transferCode := if seen.transferCode == None then s.transferCode else seen.transferCode)
      else s.(providerStatus := Some("otp"))
    case _ => s.(providerStatus := Some("otp"))
  }

  function OtpNext(i: nat, seen: Settlement, response: Response): Task
    requires response.Answer? || response == Ambiguous || response == Definite
  {
    match response
    case Ambiguous => DoubtingOtp(i)
    case Answer(said) =>
      if !SameTransfer(seen, said) then ResettingOtp(i)
      else if said.state == FAILURE || said.state == REVERSAL then RefusingOtp(i)
      else AcceptingOtp(i, seen, Downgrade(said))
    case _ => ResettingOtp(i)
  }

  lemma OtpAnswerLeads(db: Database, i: nat, seen: Settlement, response: Response)
    requires response.Answer? || response == Ambiguous || response == Definite
    ensures Act(db, AwaitingOtp(i, seen), response)
      == Effect(db, OtpNext(i, seen, response), [], if response.Answer? then {Delivery(OTP, response.said)} else {})
  {
    if response.Answer? { MatchesExactlyWhen(seen, Downgrade(response.said)); }
  }

  lemma OtpEndingWrites(db: Database, i: nat, response: Response)
    requires i < |db.settlements| && db.settlements[i].providerStatus == Some("otp_finalizing")
    ensures var s := db.settlements[i];
      && Act(db, DoubtingOtp(i), response) == Effect(WithRow(db, i, s.(status := UNKNOWN, providerStatus := Some("unknown"))), Finished, [], {})
      && Act(db, ResettingOtp(i), response) == Effect(WithRow(db, i, s.(providerStatus := Some("otp"))), Finished, [], {})
      && Act(db, RefusingOtp(i), response) == Effect(WithRow(db, i, s.(providerStatus := Some("otp"))), ResettingOtp(i), [], {})
  {
  }

  lemma OtpAcceptanceWrites(db: Database, i: nat, seen: Settlement, result: TransferResult, response: Response)
    requires i < |db.settlements|
    ensures var s := db.settlements[i];
      Act(db, AcceptingOtp(i, seen, result), response) == Effect(WithRow(db, i, s.(status := PROVIDER_PROCESSING,
        providerStatus := Some(result.providerStatus), transferCode := if seen.transferCode == None then s.transferCode else seen.transferCode)), Finished, [], {})
  {
  }

  /** After a reset nothing is left to reset. */
  lemma ResetOnce(db: Database, i: nat, response: Response)
    requires i < |db.settlements| && db.settlements[i].providerStatus != Some("otp_finalizing")
    ensures Act(db, ResettingOtp(i), response) == Effect(db, Finished, [], {})
  {
  }

  /** Two further steps after the answer bring a submission to its end. */
  lemma OtpEnds(db: Database, i: nat, seen: Settlement, response: Response, b: Response, c: Response)
    requires i < |db.settlements| && db.settlements[i].providerStatus == Some("otp_finalizing")
    requires response.Answer? || response == Ambiguous || response == Definite
    ensures var e := Then(Then(Act(db, AwaitingOtp(i, seen), response), b), c);
      e.next == Finished && e.calls == [] && e.db == WithRow(db, i, AfterOtp(db.settlements[i], seen, response))
  {
    var e := Act(db, AwaitingOtp(i, seen), response);
    OtpAnswerLeads(db, i, seen, response);
    OtpSecondStep(db, i, seen, response, b);
    var f := Act(e.db, e.next, b);
    OtpSettles(db, i, f, c);
  }

  lemma OtpSecondStep(db: Database, i: nat, seen: Settlement, response: Response, b: Response)
    requires i < |db.settlements| && db.settlements[i].providerStatus == Some("otp_finalizing")
    requires response.Answer? || response == Ambiguous || response == Definite
    ensures var f := Act(db, OtpNext(i, seen, response), b);
      && f.calls == [] && f.db == WithRow(db, i, AfterOtp(db.settlements[i], seen, response))
      && (f.next == Finished || (f.next == ResettingOtp(i) && f.db.settlements[i].providerStatus == Some("otp")))
  {
    if OtpNext(i, seen, response).AcceptingOtp? {
      OtpAcceptanceWrites(db, i, seen, Downgrade(response.said), b);
    } else {
      OtpEndingWrites(db, i, b);
    }
  }

  lemma OtpSettles(db: Database, i: nat, f: Effect, c: Response)
    requires i < |db.settlements| && (f.next == Finished || f.next == ResettingOtp(i))
    requires f.next == ResettingOtp(i) ==> i < |f.db.settlements| && f.db.settlements[i].providerStatus != Some("otp_finalizing")
    ensures var g := Act(f.db, f.next, c); g.db == f.db && g.next == Finished && g.calls == [] && g.deliveries == {}
  {
    if f.next == ResettingOtp(i) { ResetOnce(f.db, i, c); }
  }

  // ----- who starts working -----

  /** A delivered event is put on record and handled on the row it names, unless it reverses a row that does not read
      successful or reversed: that one waits. */
  lemma DeliveryIsHandled(sys: System, said: TransferResult, i: nat)
    requires Sound(sys.db) && i < |sys.db.settlements| && sys.db.settlements[i].paystack
    requires sys.db.settlements[i].transferReference == Some(said.reference)
    ensures var s := sys.db.settlements[i];
      Next(sys, Deliver(said)) == sys.(
        deliveries := sys.deliveries + {Delivery(WEBHOOK, said)},
        tasks := sys.tasks + if said.state == REVERSAL && s.status !in [SUCCEEDED, REVERSED] then [] else [Applying(i, s, said, WEBHOOK)])
  {
    var k := FindTransfer(sys.db.settlements, said.reference).value;
    assert k != i ==> SettlementClash(sys.db.settlements[if k < i then k else i], sys.db.settlements[if k < i then i else k]);
    assert sys.tasks + [] == sys.tasks;
  }

  /** An initiator starts exactly on a row it may claim, with the claim committed. */
  lemma InitiatorStartsExactlyWhen(sys: System, org: string, i: nat)
    requires Sound(sys.db)
    ensures var after := Next(sys, Initiate(org, i));
      if CanBeClaimed(sys.db, org, i)
      then after.tasks == sys.tasks + [EnsuringRecipient(i)] && after.claims == sys.claims + [i] && after.db == ReserveAndClaim(sys.db, org, i).db
      else after.tasks == sys.tasks && after.claims == sys.claims
  {
    if i < |sys.db.settlements| { SameKeysFit(sys.db, i, sys.db.settlements[i]); }
    ClaimingActsExactlyWhen(sys.db, org, i);
  }

  /** A verification starts on any provider row that was given a reference, with the row as it reads now. */
  lemma VerificationStartsExactlyWhen(sys: System, i: nat)
    ensures var after := Next(sys, Verify(i));
      after.db == sys.db && after.tasks == sys.tasks +
        if i < |sys.db.settlements| && sys.db.settlements[i].paystack && sys.db.settlements[i].transferReference != None
        then [Verifying(i, sys.db.settlements[i])] else []
  {
    assert sys.tasks + [] == sys.tasks;
  }

  /** A one-time password is looked at exactly for a provider row of the tenant that waits for one, with its money held
      and its transfer known. */
  lemma OtpStartsExactlyWhen(sys: System, org: string, i: nat)
    ensures var after := Next(sys, SubmitOtp(org, i));
      after.db == sys.db && after.tasks == sys.tasks +
        if i < |sys.db.settlements| && AwaitsOtp(sys.db.settlements[i], org) then [ClaimingOtp(i, sys.db.settlements[i])] else []
  {
    assert sys.tasks + [] == sys.tasks;
  }

  predicate AwaitsOtp(s: Settlement, org: string) {
    && s.org == org && s.via == PROVIDER && s.paystack && s.status == PROVIDER_PROCESSING && s.providerStatus == Some("otp")
    && s.reservedAt && !s.releasedAt && s.transferCode != None && s.transferReference != None
  }
}
