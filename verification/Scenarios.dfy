/** Two runs from the beginning that reach the trouble the theorems describe: one funded wallet, one approved
    payment request, one settlement. They exist for every tenant, amount and reference. */
module Scenarios {
  import opened Prelude
  import opened Records
  import opened Wallets
  import opened Settlements
  import opened SettlementInvariant
  import opened Protocol
  import opened ProtocolSafety
  import opened ProtocolRuns
  import opened Guarantees
  import opened Obligations
  import opened SplitReversals

  datatype Setup = Setup(org: string, currency: string, request: string, key: string, reference: string, funding: string, amount: int)

  /** The currency is stored normalised, and the funding row uses no reference of the settlement. */
  predicate Usable(c: Setup) {
    && c.currency != "" && Normalize(c.currency) == c.currency && Upper(c.currency) == c.currency && c.amount >= 0
    && c.funding != c.reference && c.funding != ReversalReference(c.reference)
  }

  lemma UsableExists()
    ensures Usable(Setup("tenant", "NGN", "request", "key", "stl_1", "funding_1", 500_000))
  {
    assert Trim("NGN") == "NGN";
    assert "funding_1"[0] != "stl_1"[0] && "funding_1"[0] != ReversalReference("stl_1")[0] by {
      assert ReversalReference("stl_1")[0] == "paystack-reversal-"[0];
    }
  }

  // ----- the tables along the way -----

  function Fund(c: Setup): External {
    External(c.org, 0, "FUNDING", true, c.amount, c.currency, c.funding, None, None, None)
  }

  function Request(c: Setup): Source {
    Source(c.org, 0, PAYMENT_REQUEST, c.request, c.amount, c.currency)
  }

  function News(c: Setup, state: TransferState): TransferResult {
    TransferResult(c.reference, None, None, "said", state, c.amount, c.currency)
  }

  function Balance(c: Setup, balance: int, reserved: int): seq<Wallet> {
    [Wallet(c.org, c.currency, balance, reserved, false)]
  }

  function Requests(c: Setup, status: RequestStatus): map<string, PaymentRequest> {
    map[c.request := PaymentRequest(c.org, status)]
  }

  function Empty(c: Setup): Database {
    Database(Balance(c, 0, 0), [], [], map[], map[], Requests(c, APPROVED))
  }

  function Funding(c: Setup): Entry {
    Entry(0, c.org, 0, "FUNDING", CREDIT, c.amount, 0, c.amount, c.funding, None, None, None, 0, None)
  }

  function Funded(c: Setup): Database {
    Database(Balance(c, c.amount, 0), [Funding(c)], [], map[], map[], Requests(c, APPROVED))
  }

  function PreparedRow(c: Setup): Settlement {
    Prepared(Request(c), c.key, c.reference, c.currency)
  }

  function Waiting(c: Setup): Database {
    Funded(c).(settlements := [PreparedRow(c)])
  }

  function HeldRow(c: Setup): Settlement {
    PreparedRow(c).(status := PROVIDER_PROCESSING, reservedAt := true, transferReference := Some(c.reference), initiationClaimed := true)
  }

  function Holding(c: Setup): Database {
    Funded(c).(wallets := Balance(c, c.amount, c.amount), settlements := [HeldRow(c)])
  }

  function Debit(c: Setup): Entry {
    Entry(1, c.org, 0, ProviderKind(PAYMENT_REQUEST), DEBIT, c.amount, c.amount, 0, c.reference, Some(c.reference),
          Some(PAYMENT_REQUEST), Some(c.request), 1, None)
  }

  function PaidRow(c: Setup): Settlement {
    HeldRow(c).(status := SUCCEEDED, providerStatus := Some("said"), releasedAt := true)
  }

  function Paid(c: Setup): Database {
    Database(Balance(c, 0, 0), [Funding(c), Debit(c)], [PaidRow(c)], map[], map[], Requests(c, SETTLED))
  }

  lemma FundingLands(c: Setup)
    requires Usable(c)
    ensures PostExternal(Empty(c), Fund(c)) == Committed(Funded(c), true)
  {
  }

  lemma PreparationLands(c: Setup)
    requires Usable(c)
    ensures PrepareProvider(Funded(c), Request(c), c.key, c.reference) == Committed(Waiting(c), true)
  {
  }

  lemma ClaimLands(c: Setup)
    requires Usable(c)
    ensures ReserveAndClaim(Waiting(c), c.org, 0) == Committed(Holding(c), true)
  {
  }

  lemma SuccessLands(c: Setup)
    requires Usable(c)
    ensures FinalizeSuccess(Holding(c), 0, News(c, SUCCESS)) == Committed(Paid(c), true)
  {
  }

  lemma ReversalLands(c: Setup)
    requires Usable(c)
    ensures var o := ReverseSucceeded(Paid(c), c.org, 0, ReversalReference(c.reference));
      && o.Committed? && |o.db.settlements| == 1 && o.db.requests == Requests(c, SETTLED)
      && o.db.settlements[0] == PaidRow(c).(status := REVERSED, reversalReference := Some(ReversalReference(c.reference)), reversalLedger := Some(2))
  {
    var db := Paid(c);
    var reference := ReversalReference(c.reference);
    assert |reference| > |c.reference|;
    assert DebitOf(db.ledger[1], PaidRow(c)) && !DebitOf(db.ledger[0], PaidRow(c));
    var original := FirstDebit(db.ledger, PaidRow(c)).value;
    var credit := ReversalCredit(db, PaidRow(c), 0, reference, original);
    assert ReversalKind(PAYMENT_REQUEST)[0] == 'R' && ProviderKind(PAYMENT_REQUEST)[0] == 'P';
    assert EntryFits(db.ledger, credit);
  }

  // ----- the runs -----

  function Begin(c: Setup): System {
    System(Empty(c), [], [], [], {}, {})
  }

  lemma BeginIsInitial(c: Setup)
    ensures Initial(Begin(c))
  {
  }

  /** Funding, preparation and claim: the initiator is under way. */
  function Claimed(c: Setup): System {
    System(Holding(c), [EnsuringRecipient(0)], [], [0], {}, {})
  }

  lemma ReachClaimed(c: Setup) returns (events: seq<Event>)
    requires Usable(c)
    ensures After(Begin(c), events) == Claimed(c)
  {
    var funding, preparing, initiating := Outside(Fund(c)), Prepare(Request(c), c.key, c.reference), Initiate(c.org, 0);
    FundingLands(c);
    PreparationLands(c);
    ClaimLands(c);
    var funded := Begin(c).(db := Funded(c));
    var waiting := Begin(c).(db := Waiting(c));
    assert Next(Begin(c), funding) == funded;
    assert Next(funded, preparing) == waiting;
    assert Next(waiting, initiating) == Claimed(c) by { assert [] + [EnsuringRecipient(0)] == [EnsuringRecipient(0)] && [] + [0] == [0]; }
    AfterLast(Begin(c), [], funding);
    AfterLast(Begin(c), [] + [funding], preparing);
    AfterLast(Begin(c), [] + [funding] + [preparing], initiating);
    events := [] + [funding] + [preparing] + [initiating];
  }

  /** A verification has read the row and heard that the transfer is still pending. */
  function Verified(c: Setup): System {
    System(Holding(c), [EnsuringRecipient(0), Applying(0, HeldRow(c), News(c, NON_CONCLUSIVE), VERIFY)], [], [0],
           {Delivery(VERIFY, News(c, NON_CONCLUSIVE))}, {})
  }

  lemma ReachVerified(c: Setup) returns (events: seq<Event>)
    requires Usable(c)
    ensures After(Begin(c), events) == Verified(c)
  {
    events := ReachClaimed(c);
    var asking := Spawn(Claimed(c), Verifying(0, HeldRow(c)));
    AfterLast(Begin(c), events, Verify(0));
    assert Next(Claimed(c), Verify(0)) == asking;
    var hearing := Step(1, Answer(News(c, NON_CONCLUSIVE)));
    AfterLast(Begin(c), events + [Verify(0)], hearing);
    assert Next(asking, hearing) == Verified(c);
    events := events + [Verify(0)] + [hearing];
  }

  lemma WebhookFinds(c: Setup)
    ensures FindTransfer([HeldRow(c)], c.reference) == Some(0) && FindTransfer([PaidRow(c)], c.reference) == Some(0)
  {
  }

  /** A webhook announces the success and pays; only then the verification writes down what it heard. The
      settlement is debited, reads PROVIDER_PROCESSING, and does so or reads UNKNOWN for ever after. */
  lemma SuccessGetsOverwritten(c: Setup) returns (events: seq<Event>)
    requires Usable(c)
    ensures Initial(Begin(c))
    ensures var end := After(Begin(c), events);
      |end.db.settlements| == 1 && end.db.settlements[0].status == PROVIDER_PROCESSING && Phase(end.db, 0) == Debited
    ensures forall more :: var later := After(After(Begin(c), events), more);
      |later.db.settlements| > 0 && Phase(later.db, 0) == Debited && later.db.settlements[0].status != SUCCEEDED
  {
    events := ReachVerified(c);
    BeginIsInitial(c);
    InitialInv(Begin(c));
    AfterLast(Begin(c), events, Deliver(News(c, SUCCESS)));
    AfterLast(Begin(c), events + [Deliver(News(c, SUCCESS))], Step(2, Proceed));
    AfterLast(Begin(c), events + [Deliver(News(c, SUCCESS))] + [Step(2, Proceed)], Step(1, Proceed));
    TellWebhook(c);
    PayWebhook(c);
    WriteLate(c);
    events := events + [Deliver(News(c, SUCCESS))] + [Step(2, Proceed)] + [Step(1, Proceed)];
    var end := After(Begin(c), events);
    RunsKeepInv(Begin(c), events);
    forall more ensures var later := After(end, more);
      |later.db.settlements| > 0 && Phase(later.db, 0) == Debited && later.db.settlements[0].status != SUCCEEDED
    {
      OverwrittenSuccessIsForever(end, more, 0);
    }
  }

  function WebhookTold(c: Setup): System {
    Verified(c).(tasks := Verified(c).tasks + [Applying(0, HeldRow(c), News(c, SUCCESS), WEBHOOK)],
                 deliveries := Verified(c).deliveries + {Delivery(WEBHOOK, News(c, SUCCESS))})
  }

  function WebhookPaid(c: Setup): System {
    WebhookTold(c).(db := Paid(c), tasks := WebhookTold(c).tasks[2 := Finished])
  }

  lemma TellWebhook(c: Setup)
    requires Usable(c)
    ensures Next(Verified(c), Deliver(News(c, SUCCESS))) == WebhookTold(c)
  {
    WebhookFinds(c);
  }

  lemma PayWebhook(c: Setup)
    requires Usable(c)
    ensures Next(WebhookTold(c), Step(2, Proceed)) == WebhookPaid(c)
  {
    SuccessLands(c);
    NextIsStepped(WebhookTold(c), 2, Proceed);
    assert Apply(Holding(c), 0, HeldRow(c), News(c, SUCCESS)) == Stay(Paid(c), Finished);
  }

  lemma WriteLate(c: Setup)
    requires Usable(c)
    ensures var end := Next(WebhookPaid(c), Step(1, Proceed)).db;
      |end.settlements| == 1 && end.settlements[0].status == PROVIDER_PROCESSING && Phase(end, 0) == Debited
  {
    NextIsStepped(WebhookPaid(c), 1, Proceed);
    var end := Next(WebhookPaid(c), Step(1, Proceed)).db;
    assert end.settlements == [PaidRow(c).(status := PROVIDER_PROCESSING)];
    assert end.ledger == [Funding(c)] + [Debit(c)];
    var s := end.settlements[0];
    TallyAppend([Funding(c)], Debit(c), DebitsFor(s.wallet, s.sourceType, s.sourceId));
    TallyAppend([Funding(c)], Debit(c), CreditsFor(s.wallet, s.sourceType, s.sourceId));
    TallyAppend([], Funding(c), DebitsFor(s.wallet, s.sourceType, s.sourceId));
    TallyAppend([], Funding(c), CreditsFor(s.wallet, s.sourceType, s.sourceId));
    assert [] + [Funding(c)] == [Funding(c)];
  }

  // ----- a reversal cut in two -----

  function Alone(c: Setup): System {
    System(Holding(c), [Finished, Applying(0, HeldRow(c), News(c, SUCCESS), WEBHOOK)], [], [0], {Delivery(WEBHOOK, News(c, SUCCESS))}, {})
  }

  function Settled(c: Setup): System {
    System(Paid(c), [Finished, Finished], [], [0], {Delivery(WEBHOOK, News(c, SUCCESS))}, {})
  }

  function Reversing(c: Setup): System {
    Settled(c).(tasks := [Finished, Finished, Applying(0, PaidRow(c), News(c, REVERSAL), WEBHOOK)],
                deliveries := Settled(c).deliveries + {Delivery(WEBHOOK, News(c, REVERSAL))})
  }

  function HalfReversed(c: Setup): System
    requires Usable(c)
  {
    ReversalLands(c);
    Reversing(c).(db := ReverseSucceeded(Paid(c), c.org, 0, ReversalReference(c.reference)).db,
                  tasks := [Finished, Finished, UndoingBusiness(0, "said")])
  }

  lemma ReachAlone(c: Setup) returns (events: seq<Event>)
    requires Usable(c)
    ensures After(Begin(c), events) == Alone(c)
  {
    events := ReachClaimed(c);
    var quiet := Claimed(c).(tasks := [Finished]);
    AfterLast(Begin(c), events, Crash(0));
    assert Next(Claimed(c), Crash(0)) == quiet;
    WebhookFinds(c);
    AfterLast(Begin(c), events + [Crash(0)], Deliver(News(c, SUCCESS)));
    assert Next(quiet, Deliver(News(c, SUCCESS))) == Alone(c);
    events := events + [Crash(0)] + [Deliver(News(c, SUCCESS))];
  }

  lemma Settle(c: Setup)
    requires Usable(c)
    ensures Next(Alone(c), Step(1, Proceed)) == Settled(c)
  {
    SuccessLands(c);
    NextIsStepped(Alone(c), 1, Proceed);
    assert Apply(Holding(c), 0, HeldRow(c), News(c, SUCCESS)) == Stay(Paid(c), Finished);
  }

  lemma StartReversing(c: Setup)
    requires Usable(c)
    ensures Next(Settled(c), Deliver(News(c, REVERSAL))) == Reversing(c)
  {
    WebhookFinds(c);
  }

  lemma ReverseHalf(c: Setup)
    requires Usable(c)
    ensures Next(Reversing(c), Step(2, Proceed)) == HalfReversed(c)
  {
    ReversalLands(c);
    NextIsStepped(Reversing(c), 2, Proceed);
    assert Apply(Paid(c), 0, PaidRow(c), News(c, REVERSAL)) == Stay(HalfReversed(c).db, UndoingBusiness(0, "said"));
  }

  lemma ReachHalfReversed(c: Setup) returns (events: seq<Event>)
    requires Usable(c)
    ensures After(Begin(c), events) == HalfReversed(c)
  {
    events := ReachAlone(c);
    Settle(c);
    StartReversing(c);
    ReverseHalf(c);
    AfterLast(Begin(c), events, Step(1, Proceed));
    AfterLast(Begin(c), events + [Step(1, Proceed)], Deliver(News(c, REVERSAL)));
    AfterLast(Begin(c), events + [Step(1, Proceed)] + [Deliver(News(c, REVERSAL))], Step(2, Proceed));
    events := events + [Step(1, Proceed)] + [Deliver(News(c, REVERSAL))] + [Step(2, Proceed)];
  }

  /** A success and its reversal are announced and handled; the worker of the reversal crashes between its two
      transactions. The money is back, and the request reads as settled for ever after. */
  lemma ReversalGetsSplit(c: Setup) returns (events: seq<Event>)
    requires Usable(c)
    ensures Initial(Begin(c))
    ensures Split(After(Begin(c), events).db, 0)
    ensures forall more :: Split(After(After(Begin(c), events), more).db, 0)
  {
    events := ReachHalfReversed(c);
    BeginIsInitial(c);
    InitialInv(Begin(c));
    RunsKeepInv(Begin(c), events);
    HalfReversedIsSplit(c);
    AfterLast(Begin(c), events, Crash(2));
    events := events + [Crash(2)];
    forall more ensures Split(After(After(Begin(c), events), more).db, 0) { HalfStays(c, more); }
    HalfStays(c, []);
  }

  lemma HalfStays(c: Setup, more: seq<Event>)
    requires Usable(c) && Inv(HalfReversed(c)) && Split(HalfReversed(c).db, 0)
    ensures Split(After(Next(HalfReversed(c), Crash(2)), more).db, 0)
  {
    HalfReversedReadsPaid(c);
    LoneCrashSplits(HalfReversed(c), "said", more);
  }

  lemma LoneCrashSplits(sys: System, providerStatus: string, more: seq<Event>)
    requires Inv(sys) && sys.tasks == [Finished, Finished, UndoingBusiness(0, providerStatus)] && Split(sys.db, 0)
    ensures Split(After(Next(sys, Crash(2)), more).db, 0)
  {
    CrashAbandons(sys, 2, more);
  }

  /** A settlement whose business half is still owed was restored. */
  lemma OwedIsSplit(sys: System, t: nat)
    requires Inv(sys) && t < |sys.tasks| && sys.tasks[t].UndoingBusiness? && sys.tasks[t].i < |sys.db.settlements|
    requires ObligationPaid(sys.db, sys.db.settlements[sys.tasks[t].i])
    ensures Split(sys.db, sys.tasks[t].i)
  {
    assert TaskSound(sys.db, sys.deliveries, sys.tasks[t]);
  }

  lemma HalfReversedReadsPaid(c: Setup)
    requires Usable(c)
    ensures var half := HalfReversed(c);
      |half.db.settlements| == 1 && ObligationPaid(half.db, half.db.settlements[0]) && half.tasks == [Finished, Finished, UndoingBusiness(0, "said")]
  {
    ReversalLands(c);
  }

  lemma HalfReversedIsSplit(c: Setup)
    requires Usable(c) && Inv(HalfReversed(c))
    ensures Split(HalfReversed(c).db, 0)
  {
    HalfReversedReadsPaid(c);
    OwedIsSplit(HalfReversed(c), 2);
  }
}
