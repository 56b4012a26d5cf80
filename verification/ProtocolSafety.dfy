/** The invariant of the running protocol and its preservation by every step of every worker. */
module ProtocolSafety {
  import opened Prelude
  import opened Records
  import opened Settlements
  import opened SettlementInvariant
  import opened TransactionSafety
  import opened Obligations
  import opened Protocol

  // ----- counting -----

  function Handed(i: nat): nat -> int {
    (k: nat) => if k == i then 1 else 0
  }

  /** Initiators of `i` that have not yet called the provider. */
  function InitPending(i: nat): Task -> int {
    (t: Task) => if (t.EnsuringRecipient? || t.SavingRecipient? || t.MarkingAttempt? || t.CallingTransfer?) && t.i == i then 1 else 0
  }

  /** Reconcilers that own the retry of `i` and have not yet called the provider. */
  function RetryPending(i: nat): Task -> int {
    (t: Task) => if t.CallingRetry? && t.i == i then 1 else 0
  }

  /** Workers that reversed `i` and still owe the business half. */
  function Undoing(i: nat): Task -> int {
    (t: Task) => if t.UndoingBusiness? && t.i == i then 1 else 0
  }

  function Sent(i: nat, retry: bool): Call -> int {
    (c: Call) => if c.settlement == i && c.retry == retry then 1 else 0
  }

  function Flag(b: bool): int { if b then 1 else 0 }

  // ----- what each worker knows -----

  ghost predicate OnHeldRow(db: Database, i: nat) {
    i < |db.settlements| && db.settlements[i].reservedAt && db.settlements[i].via == PROVIDER
  }

  ghost predicate SeenRow(db: Database, i: nat, seen: Settlement) {
    && OnHeldRow(db, i) && SameIdentity(db.settlements[i], seen)
    && seen.transferReference == Some(db.settlements[i].internalReference)
  }

  /** Conclusive news is never invented: success comes from a webhook or a verification, and every other
      conclusive result was heard as it is. */
  ghost predicate Backed(deliveries: set<Delivery>, channel: Channel, result: TransferResult) {
    && (result.state == SUCCESS ==> (channel == WEBHOOK || channel == VERIFY) && Delivery(channel, result) in deliveries)
    && (result.state == REVERSAL || result.state == FAILURE ==> Delivery(channel, result) in deliveries)
  }

  ghost predicate TaskSound(db: Database, deliveries: set<Delivery>, task: Task) {
    match task
    case Finished => true
    case EnsuringRecipient(i) => OnHeldRow(db, i)
    case SavingRecipient(i, _) => OnHeldRow(db, i)
    case MarkingAttempt(i, seen) => SeenRow(db, i, seen)
    case CallingTransfer(i, seen) => SeenRow(db, i, seen)
    case AwaitingTransfer(i, seen) => SeenRow(db, i, seen)
    case FlaggingUnknown(i) => OnHeldRow(db, i)
    case ReleasingAfterError(i) => OnHeldRow(db, i) && InitiationFailed(i) in deliveries
    case Applying(i, seen, result, channel) => SeenRow(db, i, seen) && Backed(deliveries, channel, result)
    case NotingFailure(i, _) => OnHeldRow(db, i)
    case UndoingBusiness(i, _) => OnHeldRow(db, i) && Phase(db, i) == Restored
    case Verifying(i, seen) => SeenRow(db, i, seen)
    case ClaimingRetry(i, seen) => SeenRow(db, i, seen)
    case CallingRetry(i, seen) => SeenRow(db, i, seen)
    case AwaitingRetry(i, seen) => SeenRow(db, i, seen)
    case ClaimingOtp(i, seen) => SeenRow(db, i, seen)
    case AwaitingOtp(i, seen) => SeenRow(db, i, seen)
    case RefusingOtp(i) => OnHeldRow(db, i)
    case ResettingOtp(i) => OnHeldRow(db, i)
    case AcceptingOtp(i, seen, _) => SeenRow(db, i, seen)
    case DoubtingOtp(i) => OnHeldRow(db, i)
  }

  // ----- history -----

  ghost predicate CallSound(db: Database, c: Call) {
    && c.settlement < |db.settlements|
    && c.reference == Some(db.settlements[c.settlement].internalReference)
    && c.amountMinor == db.settlements[c.settlement].amount && c.currency == db.settlements[c.settlement].currency
  }

  /** A webhook or a verification has said that exactly this transfer succeeded. */
  ghost predicate SuccessHeard(deliveries: set<Delivery>, s: Settlement) {
    exists v :: v in deliveries && v.Delivery? && (v.channel == WEBHOOK || v.channel == VERIFY) && v.said.state == SUCCESS
      && v.said.reference == s.internalReference && v.said.amountMinor == s.amount && v.said.currency == s.currency
  }

  ghost predicate ReversalHeard(deliveries: set<Delivery>, s: Settlement) {
    exists v :: v in deliveries && v.Delivery? && v.said.state == REVERSAL
      && v.said.reference == s.internalReference && v.said.amountMinor == s.amount && v.said.currency == s.currency
  }

  ghost predicate FailureHeard(deliveries: set<Delivery>, s: Settlement) {
    exists v :: v in deliveries && v.Delivery? && v.said.state == FAILURE
      && v.said.reference == s.internalReference && v.said.amountMinor == s.amount && v.said.currency == s.currency
  }

  /** A reason to give a reservation back. */
  ghost predicate ReleaseBacked(deliveries: set<Delivery>, s: Settlement, i: nat) {
    FailureHeard(deliveries, s) || InitiationFailed(i) in deliveries
  }

  ghost predicate EvidenceSound(db: Database, deliveries: set<Delivery>) {
    forall i :: 0 <= i < |db.settlements| && db.settlements[i].via == PROVIDER ==>
      && (Phase(db, i) == Debited || Phase(db, i) == Restored ==> SuccessHeard(deliveries, db.settlements[i]))
      && (Phase(db, i) == Restored ==> ReversalHeard(deliveries, db.settlements[i]))
      && (Phase(db, i) == Released ==> ReleaseBacked(deliveries, db.settlements[i], i))
  }

  ghost predicate BudgetSound(sys: System, i: nat) {
    var claimed := i < |sys.db.settlements| && sys.db.settlements[i].initiationClaimed;
    var attempted := i < |sys.db.settlements| && sys.db.settlements[i].initiationAttempted;
    && Tally(sys.claims, Handed(i)) == Flag(claimed)
    && Tally(sys.tasks, InitPending(i)) + Tally(sys.calls, Sent(i, false)) <= Flag(claimed)
    && Tally(sys.tasks, RetryPending(i)) + Tally(sys.calls, Sent(i, true)) <= Flag(attempted)
  }

  /** A restored settlement whose obligation still reads as paid has its second half pending or lost to a crash. */
  ghost predicate SplitSound(sys: System, i: nat)
    requires i < |sys.db.settlements|
  {
    sys.db.settlements[i].via == PROVIDER && Phase(sys.db, i) == Restored && ObligationPaid(sys.db, sys.db.settlements[i]) ==>
      Tally(sys.tasks, Undoing(i)) > 0 || i in sys.splits
  }

  ghost predicate Inv(sys: System) {
    && Sound(sys.db) && Agreed(sys.db)
    && (forall t :: 0 <= t < |sys.tasks| ==> TaskSound(sys.db, sys.deliveries, sys.tasks[t]))
    && (forall c :: 0 <= c < |sys.calls| ==> CallSound(sys.db, sys.calls[c]))
    && EvidenceSound(sys.db, sys.deliveries)
    && (forall i: nat {:trigger BudgetSound(sys, i)} :: BudgetSound(sys, i))
    && (forall i :: 0 <= i < |sys.db.settlements| ==> SplitSound(sys, i))
  }

  // ----- the effect of one worker step -----

  ghost predicate Sends(db: Database, task: Task, e: Effect, j: nat)
    requires j < |db.settlements| && |e.db.settlements| == |db.settlements|
  {
    && e.db.settlements[j].initiationClaimed == db.settlements[j].initiationClaimed
    && InitPending(j)(e.next) + Tally(e.calls, Sent(j, false)) <= InitPending(j)(task)
    && RetryPending(j)(e.next) + Tally(e.calls, Sent(j, true)) + Flag(db.settlements[j].initiationAttempted)
         <= RetryPending(j)(task) + Flag(e.db.settlements[j].initiationAttempted)
  }

  ghost predicate Evidenced(db: Database, d: Database, deliveries: set<Delivery>, j: nat)
    requires j < |db.settlements| && |d.settlements| >= |db.settlements|
  {
    var t := d.settlements[j];
    t.via == PROVIDER ==>
      && (Phase(d, j) == Debited ==> Phase(db, j) == Debited || SuccessHeard(deliveries, t))
      && (Phase(d, j) == Restored ==> Phase(db, j) == Restored || (Phase(db, j) == Debited && ReversalHeard(deliveries, t)))
      && (Phase(d, j) == Released ==> Phase(db, j) == Released || ReleaseBacked(deliveries, t, j))
  }

  ghost predicate Owes(db: Database, task: Task, e: Effect, j: nat)
    requires j < |db.settlements| && |e.db.settlements| == |db.settlements|
  {
    e.db.settlements[j].via == PROVIDER && Phase(e.db, j) == Restored && ObligationPaid(e.db, e.db.settlements[j]) ==>
      || Undoing(j)(e.next) == 1
      || (Phase(db, j) == Restored && ObligationPaid(db, db.settlements[j]) && db.settlements[j].via == PROVIDER && Undoing(j)(task) == 0)
  }

  ghost predicate EffectSound(db: Database, deliveries: set<Delivery>, task: Task, e: Effect) {
    && Sound(e.db) && Agreed(e.db) && Evolves(db, e.db) && |e.db.settlements| == |db.settlements|
    && TaskSound(e.db, deliveries + e.deliveries, e.next)
    && (forall c :: 0 <= c < |e.calls| ==> CallSound(db, e.calls[c]))
    && (forall j :: 0 <= j < |db.settlements| ==> Sends(db, task, e, j))
    && (forall j :: 0 <= j < |db.settlements| ==> Evidenced(db, e.db, deliveries + e.deliveries, j))
    && (forall j :: 0 <= j < |db.settlements| ==> Owes(db, task, e, j))
  }

  // ----- frames -----

  lemma TaskStaysSound(db: Database, d: Database, deliveries: set<Delivery>, deliveries': set<Delivery>, task: Task)
    requires Evolves(db, d) && deliveries <= deliveries' && TaskSound(db, deliveries, task)
    ensures TaskSound(d, deliveries', task)
  {
    if !task.Finished? {
      assert Ages(db.settlements[task.i], d.settlements[task.i]);
      assert Edge(db.settlements[task.i], Phase(db, task.i), d.settlements[task.i], Phase(d, task.i));
    }
  }

  lemma CallStaysSound(db: Database, d: Database, c: Call)
    requires Evolves(db, d) && CallSound(db, c)
    ensures CallSound(d, c)
  {
    assert Ages(db.settlements[c.settlement], d.settlements[c.settlement]);
  }

  lemma EvidenceStaysSound(db: Database, d: Database, deliveries: set<Delivery>, deliveries': set<Delivery>)
    requires Evolves(db, d) && deliveries <= deliveries' && EvidenceSound(db, deliveries)
    requires forall j :: 0 <= j < |db.settlements| ==> Evidenced(db, d, deliveries', j) && (d.settlements[j].via == PROVIDER ==> db.settlements[j].via == PROVIDER)
    requires forall j :: |db.settlements| <= j < |d.settlements| && d.settlements[j].via == PROVIDER ==> Phase(d, j) == Untouched
    ensures EvidenceSound(d, deliveries')
  {
    forall i | 0 <= i < |d.settlements| && d.settlements[i].via == PROVIDER
      ensures Phase(d, i) == Debited || Phase(d, i) == Restored ==> SuccessHeard(deliveries', d.settlements[i])
      ensures Phase(d, i) == Restored ==> ReversalHeard(deliveries', d.settlements[i])
      ensures Phase(d, i) == Released ==> ReleaseBacked(deliveries', d.settlements[i], i)
    {
      if i < |db.settlements| {
        assert Ages(db.settlements[i], d.settlements[i]) && Evidenced(db, d, deliveries', i);
        if SuccessHeard(deliveries, db.settlements[i]) {
          assert SuccessHeard(deliveries', d.settlements[i]);
        }
        if ReversalHeard(deliveries, db.settlements[i]) {
          assert ReversalHeard(deliveries', d.settlements[i]);
        }
        if FailureHeard(deliveries, db.settlements[i]) {
          assert FailureHeard(deliveries', d.settlements[i]);
        }
      }
    }
  }

  lemma TallyConcat<T>(s: seq<T>, t: seq<T>, weight: T -> int)
    requires |t| <= 1
    ensures Tally(s + t, weight) == Tally(s, weight) + Tally(t, weight)
  {
    if t == [] {
      assert s + t == s;
    } else {
      assert s + t == s + [t[0]];
      TallyAppend(s, t[0], weight);
      assert Tally(t[..0], weight) == 0;
    }
  }

  /** The system after worker `t` took a step with effect `e`. */
  function Stepped(sys: System, t: nat, e: Effect): System
    requires t < |sys.tasks|
  {
    sys.(db := e.db, tasks := sys.tasks[t := e.next], calls := sys.calls + e.calls, deliveries := sys.deliveries + e.deliveries)
  }

  lemma StepKeepsKnowledge(sys: System, t: nat, e: Effect)
    requires t < |sys.tasks| && Evolves(sys.db, e.db)
    requires forall k :: 0 <= k < |sys.tasks| ==> TaskSound(sys.db, sys.deliveries, sys.tasks[k])
    requires forall c :: 0 <= c < |sys.calls| ==> CallSound(sys.db, sys.calls[c])
    requires TaskSound(e.db, sys.deliveries + e.deliveries, e.next)
    requires forall c :: 0 <= c < |e.calls| ==> CallSound(sys.db, e.calls[c])
    ensures var sys' := Stepped(sys, t, e);
      && (forall k :: 0 <= k < |sys'.tasks| ==> TaskSound(sys'.db, sys'.deliveries, sys'.tasks[k]))
      && (forall c :: 0 <= c < |sys'.calls| ==> CallSound(sys'.db, sys'.calls[c]))
  {
    var sys' := Stepped(sys, t, e);
    forall k | 0 <= k < |sys'.tasks| ensures TaskSound(sys'.db, sys'.deliveries, sys'.tasks[k]) {
      if k != t {
        TaskStaysSound(sys.db, e.db, sys.deliveries, sys'.deliveries, sys.tasks[k]);
      }
    }
    forall c | 0 <= c < |sys'.calls| ensures CallSound(sys'.db, sys'.calls[c]) {
      CallStaysSound(sys.db, e.db, sys'.calls[c]);
    }
  }

  lemma StepKeepsSplit(sys: System, t: nat, e: Effect, i: nat)
    requires t < |sys.tasks| && i < |sys.db.settlements| && |e.db.settlements| == |sys.db.settlements|
    requires SplitSound(sys, i) && Owes(sys.db, sys.tasks[t], e, i)
    ensures SplitSound(Stepped(sys, t, e), i)
  {
    TallyUpdate(sys.tasks, t, e.next, Undoing(i));
    TallyNonnegative(sys.tasks, Undoing(i));
    TallyCovers(sys.tasks, t, Undoing(i));
  }

  lemma StepKeepsEvidence(sys: System, e: Effect)
    requires Sound(sys.db) && EvidenceSound(sys.db, sys.deliveries)
    requires Evolves(sys.db, e.db) && |e.db.settlements| == |sys.db.settlements|
    requires forall j :: 0 <= j < |sys.db.settlements| ==> Evidenced(sys.db, e.db, sys.deliveries + e.deliveries, j)
    ensures EvidenceSound(e.db, sys.deliveries + e.deliveries)
  {
    forall j | 0 <= j < |sys.db.settlements| ensures e.db.settlements[j].via == PROVIDER ==> sys.db.settlements[j].via == PROVIDER {
      assert SettlementSound(sys.db, j) && Ages(sys.db.settlements[j], e.db.settlements[j]);
    }
    EvidenceStaysSound(sys.db, e.db, sys.deliveries, sys.deliveries + e.deliveries);
  }

  /** A worker step with a sound effect keeps the system invariant. */
  lemma StepKeepsInv(sys: System, t: nat, e: Effect)
    requires Inv(sys) && t < |sys.tasks| && |e.calls| <= 1
    requires EffectSound(sys.db, sys.deliveries, sys.tasks[t], e)
    ensures Inv(Stepped(sys, t, e))
  {
    StepKeepsKnowledge(sys, t, e);
    StepKeepsEvidence(sys, e);
    forall i: nat ensures BudgetSound(Stepped(sys, t, e), i) {
      assert BudgetSound(sys, i);
      if i < |sys.db.settlements| { assert Sends(sys.db, sys.tasks[t], e, i); }
      StepKeepsBudget(sys, t, e, i);
    }
    forall i | 0 <= i < |e.db.settlements| ensures SplitSound(Stepped(sys, t, e), i) {
      assert SplitSound(sys, i) && Owes(sys.db, sys.tasks[t], e, i);
      StepKeepsSplit(sys, t, e, i);
    }
  }

  lemma StepKeepsBudget(sys: System, t: nat, e: Effect, i: nat)
    requires t < |sys.tasks| && |e.calls| <= 1 && BudgetSound(sys, i)
    requires |e.db.settlements| == |sys.db.settlements|
    requires i < |sys.db.settlements| ==> Sends(sys.db, sys.tasks[t], e, i)
    requires i >= |sys.db.settlements| ==> InitPending(i)(e.next) == 0 && RetryPending(i)(e.next) == 0
    requires forall c :: 0 <= c < |e.calls| ==> CallSound(sys.db, e.calls[c])
    ensures BudgetSound(Stepped(sys, t, e), i)
  {
    TallyUpdate(sys.tasks, t, e.next, InitPending(i));
    TallyUpdate(sys.tasks, t, e.next, RetryPending(i));
    TallyConcat(sys.calls, e.calls, Sent(i, false));
    TallyConcat(sys.calls, e.calls, Sent(i, true));
    TallyNonnegative(sys.tasks, InitPending(i));
    TallyCovers(sys.tasks, t, InitPending(i));
    TallyCovers(sys.tasks, t, RetryPending(i));
    if i >= |sys.db.settlements| && |e.calls| == 1 {
      assert CallSound(sys.db, e.calls[0]);
      assert e.calls == [] + [e.calls[0]];
      TallyAppend([], e.calls[0], Sent(i, false));
      TallyAppend([], e.calls[0], Sent(i, true));
    }
  }

  // ----- steps that leave the money alone -----

  lemma QuietEffect(db: Database, deliveries: set<Delivery>, task: Task, e: Effect)
    requires Sound(db) && Agreed(db) && e.db == db
    requires TaskSound(db, deliveries + e.deliveries, e.next)
    requires forall c :: 0 <= c < |e.calls| ==> CallSound(db, e.calls[c])
    requires forall j :: 0 <= j < |db.settlements| ==> Sends(db, task, e, j) && Undoing(j)(task) == 0
    ensures EffectSound(db, deliveries, task, e)
  {
    EvolvesReflexive(db);
  }

  /** One row changed, its phase did not, and no business object was touched. */
  lemma TouchEffect(db: Database, deliveries: set<Delivery>, task: Task, e: Effect, i: nat)
    requires Agreed(db) && i < |db.settlements| && e.calls == []
    requires Sound(e.db) && Evolves(db, e.db) && OnlyRow(db, e.db, i) && Phase(e.db, i) == Phase(db, i)
    requires e.db.slips == db.slips && e.db.runs == db.runs && e.db.requests == db.requests
    requires db.settlements[i].via == e.db.settlements[i].via
    requires TaskSound(e.db, deliveries + e.deliveries, e.next) && !task.UndoingBusiness?
    requires forall j :: 0 <= j < |db.settlements| ==> Sends(db, task, e, j)
    ensures EffectSound(db, deliveries, task, e)
  {
    AgreedFrame(db, e.db);
    forall j | 0 <= j < |db.settlements| ensures Owes(db, task, e, j) && Evidenced(db, e.db, deliveries + e.deliveries, j) {
      assert Ages(db.settlements[j], e.db.settlements[j]);
    }
  }

  lemma OverwriteEffect(db: Database, deliveries: set<Delivery>, task: Task, next: Task,
                        i: nat, status: Option<Status>, providerStatus: Option<string>, code: Option<string>, d: Database)
    requires Sound(db) && Agreed(db) && OnHeldRow(db, i) && d == Overwrite(db, i, status, providerStatus, code).db
    requires status.Some? ==> status.value == PROVIDER_PROCESSING || status.value == UNKNOWN
    requires next.Finished? || (next.ResettingOtp? && next.i == i) || (next.AwaitingOtp? && next.i == i && SeenRow(db, i, next.seen))
    requires !task.UndoingBusiness?
    ensures EffectSound(db, deliveries, task, Stay(d, next))
  {
    OverwriteIsSafe(db, i, status, providerStatus, code);
    HeldRowTouched(db, deliveries, task, next, i, d);
  }

  lemma HeldRowTouched(db: Database, deliveries: set<Delivery>, task: Task, next: Task, i: nat, d: Database)
    requires Sound(db) && Agreed(db) && OnHeldRow(db, i) && !task.UndoingBusiness?
    requires Sound(d) && Evolves(db, d) && OnlyRow(db, d, i) && Phase(d, i) == Phase(db, i)
    requires d.slips == db.slips && d.runs == db.runs && d.requests == db.requests
    requires d.settlements[i].initiationClaimed == db.settlements[i].initiationClaimed
    requires d.settlements[i].initiationAttempted == db.settlements[i].initiationAttempted
    requires next.Finished? || (next.ResettingOtp? && next.i == i) || (next.AwaitingOtp? && next.i == i && SeenRow(db, i, next.seen))
    ensures EffectSound(db, deliveries, task, Stay(d, next))
  {
    assert Ages(db.settlements[i], d.settlements[i]);
    forall j | 0 <= j < |db.settlements| ensures Sends(db, task, Stay(d, next), j) {
      TouchSends(db, task, next, i, d, j);
    }
    TouchEffect(db, deliveries, task, Stay(d, next), i);
  }

  lemma TouchSends(db: Database, task: Task, next: Task, i: nat, d: Database, j: nat)
    requires OnlyRow(db, d, i) && i < |db.settlements| && j < |db.settlements|
    requires d.settlements[i].initiationClaimed == db.settlements[i].initiationClaimed
    requires d.settlements[i].initiationAttempted == db.settlements[i].initiationAttempted
    requires next.Finished? || next.ResettingOtp? || next.AwaitingOtp?
    ensures Sends(db, task, Stay(d, next), j)
  {
    assert j != i ==> d.settlements[j] == db.settlements[j];
  }

  lemma RecipientEffect(db: Database, deliveries: set<Delivery>, i: nat, code: string)
    requires Sound(db) && Agreed(db) && OnHeldRow(db, i)
    ensures var d := SetRecipient(db, i, code).db;
      EffectSound(db, deliveries, SavingRecipient(i, code), Stay(d, MarkingAttempt(i, d.settlements[i])))
  {
    var d := SetRecipient(db, i, code).db;
    SetRecipientIsSafe(db, i, code);
    assert Ages(db.settlements[i], d.settlements[i]);
    assert SettlementSound(d, i);
    TouchEffect(db, deliveries, SavingRecipient(i, code), Stay(d, MarkingAttempt(i, d.settlements[i])), i);
  }

  lemma AttemptEffect(db: Database, deliveries: set<Delivery>, i: nat, seen: Settlement, retry: bool)
    requires Sound(db) && Agreed(db) && SeenRow(db, i, seen) && (retry ==> !db.settlements[i].initiationAttempted)
    ensures EffectSound(db, deliveries, if retry then ClaimingRetry(i, seen) else MarkingAttempt(i, seen),
                        Stay(MarkAttempted(db, i).db, if retry then CallingRetry(i, seen) else CallingTransfer(i, seen)))
  {
    var d := MarkAttempted(db, i).db;
    MarkAttemptedIsSafe(db, i);
    assert Ages(db.settlements[i], d.settlements[i]);
    TouchEffect(db, deliveries, if retry then ClaimingRetry(i, seen) else MarkingAttempt(i, seen),
                Stay(d, if retry then CallingRetry(i, seen) else CallingTransfer(i, seen)), i);
  }

  lemma OneCallCounts(c: Call, j: nat, retry: bool)
    ensures Tally([c], Sent(j, retry)) == Sent(j, retry)(c)
  {
    assert [c] == [] + [c];
    TallyAppend([], c, Sent(j, retry));
  }

  lemma CallSends(db: Database, i: nat, seen: Settlement, retry: bool, j: nat)
    requires j < |db.settlements|
    ensures Sends(db, if retry then CallingRetry(i, seen) else CallingTransfer(i, seen), Calling(db, i, seen, retry), j)
  {
    var c := Call(i, retry, seen.transferReference, seen.amount, seen.currency);
    OneCallCounts(c, j, false);
    OneCallCounts(c, j, true);
  }

  /** The step that asks the provider to move the money. */
  function Calling(db: Database, i: nat, seen: Settlement, retry: bool): Effect {
    Effect(db, if retry then AwaitingRetry(i, seen) else AwaitingTransfer(i, seen),
           [Call(i, retry, seen.transferReference, seen.amount, seen.currency)], {})
  }

  lemma CallEffect(db: Database, deliveries: set<Delivery>, i: nat, seen: Settlement, retry: bool)
    requires Sound(db) && Agreed(db) && SeenRow(db, i, seen)
    ensures EffectSound(db, deliveries, if retry then CallingRetry(i, seen) else CallingTransfer(i, seen), Calling(db, i, seen, retry))
  {
    var task := if retry then CallingRetry(i, seen) else CallingTransfer(i, seen);
    var e := Calling(db, i, seen, retry);
    forall j | 0 <= j < |db.settlements| ensures Sends(db, task, e, j) { CallSends(db, i, seen, retry, j); }
    QuietEffect(db, deliveries, task, e);
  }

  // ----- steps that move money -----

  /** The shared part: one row moved, its new phase is evidenced, and the business objects of all the
      other settlements read as before. */
  lemma MoneyEffect(db: Database, deliveries: set<Delivery>, task: Task, e: Effect, i: nat)
    requires i < |db.settlements| && e.calls == [] && e.deliveries == {}
    requires Sound(e.db) && Agreed(e.db) && Evolves(db, e.db) && OnlyRow(db, e.db, i)
    requires TaskSound(e.db, deliveries, e.next)
    requires e.db.settlements[i].initiationClaimed == db.settlements[i].initiationClaimed
    requires e.db.settlements[i].initiationAttempted == db.settlements[i].initiationAttempted
    requires task.Applying? || task.ReleasingAfterError? || (task.UndoingBusiness? && task.i == i)
    requires e.next.Finished? || e.next.NotingFailure? || (e.next.UndoingBusiness? && e.next.i == i)
    requires Evidenced(db, e.db, deliveries, i) && Owes(db, task, e, i)
    requires forall j :: 0 <= j < |db.settlements| && j != i ==>
      ObligationPaid(e.db, db.settlements[j]) == ObligationPaid(db, db.settlements[j])
    ensures EffectSound(db, deliveries, task, e)
  {
    assert deliveries + {} == deliveries;
    forall j | 0 <= j < |db.settlements|
      ensures Sends(db, task, e, j) && Owes(db, task, e, j) && Evidenced(db, e.db, deliveries, j)
    {
      if j != i {
        OtherRowEffect(db, deliveries, task, e, i, j);
      }
    }
  }

  lemma OtherRowEffect(db: Database, deliveries: set<Delivery>, task: Task, e: Effect, i: nat, j: nat)
    requires OnlyRow(db, e.db, i) && i < |db.settlements| && j < |db.settlements| && j != i && e.calls == []
    requires task.Applying? || task.ReleasingAfterError? || (task.UndoingBusiness? && task.i == i)
    requires e.next.Finished? || e.next.NotingFailure? || (e.next.UndoingBusiness? && e.next.i == i)
    requires ObligationPaid(e.db, db.settlements[j]) == ObligationPaid(db, db.settlements[j])
    ensures Sends(db, task, e, j) && Owes(db, task, e, j) && Evidenced(db, e.db, deliveries, j)
  {
    assert e.db.settlements[j] == db.settlements[j] && Phase(e.db, j) == Phase(db, j);
  }

  lemma ReleaseEffect(db: Database, deliveries: set<Delivery>, task: Task, next: Task, org: string, i: nat, d: Database)
    requires Sound(db) && Agreed(db) && OnHeldRow(db, i) && (task.Applying? || task.ReleasingAfterError?)
    requires next.Finished? || (next.NotingFailure? && next.i == i)
    requires ReleaseReservation(db, org, i).Committed? && ReleaseReservation(db, org, i).db == d
    requires ReleaseBacked(deliveries, db.settlements[i], i)
    ensures EffectSound(db, deliveries, task, Stay(d, next))
  {
    ReleaseIsSafe(db, org, i);
    ReleaseStaysBacked(db, d, deliveries, i);
    ReleaseKeepsBusiness(db, org, i);
    PlainMoneyEffect(db, deliveries, task, Stay(d, next), i);
  }

  lemma ReleaseStaysBacked(db: Database, d: Database, deliveries: set<Delivery>, i: nat)
    requires i < |db.settlements| && Evolves(db, d) && ReleaseBacked(deliveries, db.settlements[i], i)
    ensures ReleaseBacked(deliveries, d.settlements[i], i)
  {
    assert Ages(db.settlements[i], d.settlements[i]);
    if FailureHeard(deliveries, db.settlements[i]) { assert FailureHeard(deliveries, d.settlements[i]); }
  }

  lemma ReleaseKeepsBusiness(db: Database, org: string, i: nat)
    requires ReleaseReservation(db, org, i).Committed?
    ensures var d := ReleaseReservation(db, org, i).db; d.slips == db.slips && d.runs == db.runs && d.requests == db.requests
  {
  }

  /** A money step that touches no business object and debits nothing. */
  lemma PlainMoneyEffect(db: Database, deliveries: set<Delivery>, task: Task, e: Effect, i: nat)
    requires Sound(db) && Agreed(db) && OnHeldRow(db, i) && e.calls == [] && e.deliveries == {}
    requires Sound(e.db) && Evolves(db, e.db) && OnlyRow(db, e.db, i)
    requires e.db.slips == db.slips && e.db.runs == db.runs && e.db.requests == db.requests
    requires e.db.settlements[i].initiationClaimed == db.settlements[i].initiationClaimed
    requires e.db.settlements[i].initiationAttempted == db.settlements[i].initiationAttempted
    requires task.Applying? || task.ReleasingAfterError?
    requires e.next.Finished? || (e.next.NotingFailure? && e.next.i == i) || (e.next.UndoingBusiness? && e.next.i == i)
    requires Evidenced(db, e.db, deliveries, i)
    requires if e.next.UndoingBusiness? then Phase(e.db, i) == Restored
             else Phase(e.db, i) == Phase(db, i) || Phase(e.db, i) == Released
    ensures EffectSound(db, deliveries, task, e)
  {
    assert Ages(db.settlements[i], e.db.settlements[i]) && Edge(db.settlements[i], Phase(db, i), e.db.settlements[i], Phase(e.db, i));
    AgreedFrame(db, e.db);
    MoneyEffect(db, deliveries, task, e, i);
  }

  lemma SuccessEffect(db: Database, deliveries: set<Delivery>, i: nat, seen: Settlement, result: TransferResult, channel: Channel, d: Database)
    requires Sound(db) && Agreed(db) && SeenRow(db, i, seen) && result.state == SUCCESS && Backed(deliveries, channel, result)
    requires FinalizeSuccess(db, i, result).Committed? && FinalizeSuccess(db, i, result).db == d
    ensures EffectSound(db, deliveries, Applying(i, seen, result, channel), Stay(d, Finished))
  {
    FinalizeIsSafe(db, i, result);
    FinalizeAgrees(db, i, result);
    var t := d.settlements[i];
    assert Ages(db.settlements[i], t);
    assert Phase(d, i) == Phase(db, i) || SuccessHeard(deliveries, t) by {
      if Phase(d, i) != Phase(db, i) {
        assert SettlementSound(db, i) && Matches(db.settlements[i], result);
        assert Delivery(channel, result).said.reference == t.internalReference;
      }
    }
    MoneyEffect(db, deliveries, Applying(i, seen, result, channel), Stay(d, Finished), i);
  }

  lemma ReversalEffect(db: Database, deliveries: set<Delivery>, i: nat, seen: Settlement, result: TransferResult, channel: Channel, d: Database)
    requires Sound(db) && Agreed(db) && SeenRow(db, i, seen) && result.state == REVERSAL && Backed(deliveries, channel, result)
    requires Matches(seen, result)
    requires ReverseSucceeded(db, seen.org, i, ReversalReference(result.reference)).Committed?
    requires ReverseSucceeded(db, seen.org, i, ReversalReference(result.reference)).db == d
    ensures EffectSound(db, deliveries, Applying(i, seen, result, channel), Stay(d, UndoingBusiness(i, result.providerStatus)))
  {
    ReverseIsSafe(db, seen.org, i, ReversalReference(result.reference));
    var t := d.settlements[i];
    assert Ages(db.settlements[i], t);
    assert ReversalHeard(deliveries, t) by {
      assert Delivery(channel, result).said.reference == t.internalReference;
    }
    PlainMoneyEffect(db, deliveries, Applying(i, seen, result, channel), Stay(d, UndoingBusiness(i, result.providerStatus)), i);
  }

  lemma UndoEffect(db: Database, deliveries: set<Delivery>, i: nat, providerStatus: string)
    requires Sound(db) && Agreed(db) && OnHeldRow(db, i) && Phase(db, i) == Restored
    ensures EffectSound(db, deliveries, UndoingBusiness(i, providerStatus), Stay(Land(db, ReverseBusiness(db, i, providerStatus)), Finished))
  {
    UndoNeverFails(db, i, providerStatus);
    var d := ReverseBusiness(db, i, providerStatus).db;
    ReverseBusinessIsSafe(db, i, providerStatus);
    ReverseBusinessAgrees(db, i, providerStatus);
    assert ObligationPaid(d, d.settlements[i]) == ObligationPaid(d, db.settlements[i]);
    MoneyEffect(db, deliveries, UndoingBusiness(i, providerStatus), Stay(d, Finished), i);
  }

  lemma UndoNeverFails(db: Database, i: nat, providerStatus: string)
    requires i < |db.settlements|
    ensures ReverseBusiness(db, i, providerStatus).Committed?
  {
  }

  lemma ApplyEffect(db: Database, deliveries: set<Delivery>, i: nat, seen: Settlement, result: TransferResult, channel: Channel)
    requires Sound(db) && Agreed(db) && SeenRow(db, i, seen) && Backed(deliveries, channel, result)
    ensures EffectSound(db, deliveries, Applying(i, seen, result, channel), Apply(db, i, seen, result))
  {
    var task := Applying(i, seen, result, channel);
    var e := Apply(db, i, seen, result);
    if e == Stay(db, Finished) {
      QuietEffect(db, deliveries, task, e);
    } else {
      match result.state {
        case SUCCESS => SuccessEffect(db, deliveries, i, seen, result, channel, e.db);
        case FAILURE =>
          assert Delivery(channel, result).said.reference == db.settlements[i].internalReference;
          ReleaseEffect(db, deliveries, task, NotingFailure(i, result), seen.org, i, e.db);
        case REVERSAL => ReversalEffect(db, deliveries, i, seen, result, channel, e.db);
        case NON_CONCLUSIVE =>
          OverwriteEffect(db, deliveries, task, Finished, i, Some(PROVIDER_PROCESSING), Some(result.providerStatus), result.transferCode, e.db);
      }
    }
  }

  /** A step that only decides what to do next. */
  lemma DecidingEffect(db: Database, deliveries: set<Delivery>, task: Task, e: Effect)
    requires Sound(db) && Agreed(db) && e.db == db && e.calls == [] && TaskSound(db, deliveries + e.deliveries, e.next) && !task.UndoingBusiness?
    requires e.next.SavingRecipient? ==> task.EnsuringRecipient? && task.i == e.next.i
    requires e.next == task || !(e.next.EnsuringRecipient? || e.next.MarkingAttempt? || e.next.CallingTransfer? || e.next.CallingRetry?)
    ensures EffectSound(db, deliveries, task, e)
  {
    QuietEffect(db, deliveries, task, e);
  }

  // ----- initiation -----

  lemma SavingEffect(db: Database, deliveries: set<Delivery>, i: nat, code: string, response: Response)
    requires Sound(db) && Agreed(db) && OnHeldRow(db, i)
    ensures EffectSound(db, deliveries, SavingRecipient(i, code), ActInitiating(db, SavingRecipient(i, code), response))
  {
    if response == Definite {
      DecidingEffect(db, deliveries, SavingRecipient(i, code), GiveUp(db, i));
    } else {
      RecipientEffect(db, deliveries, i, code);
    }
  }

  lemma MarkingEffect(db: Database, deliveries: set<Delivery>, i: nat, seen: Settlement, response: Response)
    requires Sound(db) && Agreed(db) && SeenRow(db, i, seen)
    ensures EffectSound(db, deliveries, MarkingAttempt(i, seen), ActInitiating(db, MarkingAttempt(i, seen), response))
  {
    if response == Definite {
      DecidingEffect(db, deliveries, MarkingAttempt(i, seen), GiveUp(db, i));
    } else {
      AttemptEffect(db, deliveries, i, seen, false);
    }
  }

  lemma EnsuringEffect(db: Database, deliveries: set<Delivery>, i: nat, response: Response)
    requires Sound(db) && Agreed(db) && OnHeldRow(db, i)
    ensures EffectSound(db, deliveries, EnsuringRecipient(i), ActInitiating(db, EnsuringRecipient(i), response))
  {
    DecidingEffect(db, deliveries, EnsuringRecipient(i), ActInitiating(db, EnsuringRecipient(i), response));
  }

  lemma AwaitingEffect(db: Database, deliveries: set<Delivery>, i: nat, seen: Settlement, response: Response)
    requires Sound(db) && Agreed(db) && SeenRow(db, i, seen)
    ensures EffectSound(db, deliveries, AwaitingTransfer(i, seen), ActInitiating(db, AwaitingTransfer(i, seen), response))
  {
    DecidingEffect(db, deliveries, AwaitingTransfer(i, seen), ActInitiating(db, AwaitingTransfer(i, seen), response));
  }

  lemma InitiatingEffect(db: Database, deliveries: set<Delivery>, task: Task, response: Response)
    requires Sound(db) && Agreed(db) && TaskSound(db, deliveries, task) && Initiating(task)
    ensures EffectSound(db, deliveries, task, Act(db, task, response))
  {
    match task {
      case EnsuringRecipient(i) => EnsuringEffect(db, deliveries, i, response);
      case SavingRecipient(i, code) => SavingEffect(db, deliveries, i, code, response);
      case MarkingAttempt(i, seen) => MarkingEffect(db, deliveries, i, seen, response);
      case CallingTransfer(i, seen) => CallEffect(db, deliveries, i, seen, false);
      case AwaitingTransfer(i, seen) => AwaitingEffect(db, deliveries, i, seen, response);
    }
  }

  // ----- reconciliation -----

  lemma VerifyingEffect(db: Database, deliveries: set<Delivery>, i: nat, seen: Settlement, response: Response)
    requires Sound(db) && Agreed(db) && SeenRow(db, i, seen)
    ensures EffectSound(db, deliveries, Verifying(i, seen), ActReconciling(db, Verifying(i, seen), response))
  {
    DecidingEffect(db, deliveries, Verifying(i, seen), ActReconciling(db, Verifying(i, seen), response));
  }

  lemma RetryEffect(db: Database, deliveries: set<Delivery>, i: nat, seen: Settlement, response: Response)
    requires Sound(db) && Agreed(db) && SeenRow(db, i, seen)
    ensures EffectSound(db, deliveries, ClaimingRetry(i, seen), ActReconciling(db, ClaimingRetry(i, seen), response))
  {
    if db.settlements[i].initiationAttempted {
      DecidingEffect(db, deliveries, ClaimingRetry(i, seen), Stay(db, Finished));
    } else {
      AttemptEffect(db, deliveries, i, seen, true);
    }
  }

  lemma RetriedEffect(db: Database, deliveries: set<Delivery>, i: nat, seen: Settlement, response: Response)
    requires Sound(db) && Agreed(db) && SeenRow(db, i, seen)
    ensures EffectSound(db, deliveries, AwaitingRetry(i, seen), ActReconciling(db, AwaitingRetry(i, seen), response))
  {
    DecidingEffect(db, deliveries, AwaitingRetry(i, seen), ActReconciling(db, AwaitingRetry(i, seen), response));
  }

  lemma ReconcilingEffect(db: Database, deliveries: set<Delivery>, task: Task, response: Response)
    requires Sound(db) && Agreed(db) && TaskSound(db, deliveries, task) && Reconciling(task)
    ensures EffectSound(db, deliveries, task, Act(db, task, response))
  {
    match task {
      case Verifying(i, seen) => VerifyingEffect(db, deliveries, i, seen, response);
      case ClaimingRetry(i, seen) => RetryEffect(db, deliveries, i, seen, response);
      case CallingRetry(i, seen) => CallEffect(db, deliveries, i, seen, true);
      case AwaitingRetry(i, seen) => RetriedEffect(db, deliveries, i, seen, response);
    }
  }

  // ----- one-time passwords -----

  /** An OTP step hears an answer, writes nothing, or overwrites columns of the held row it was started for. */
  lemma OtpStep(db: Database, deliveries: set<Delivery>, task: Task, response: Response)
    requires TaskSound(db, deliveries, task) && Otp(task) && !task.AwaitingOtp? && ActOtp(db, task, response) != Stay(db, Finished)
    ensures var e := ActOtp(db, task, response);
      var (status, providerStatus, code) := OtpWrite(task);
      && OnHeldRow(db, task.i) && e == Stay(Overwrite(db, task.i, status, providerStatus, code).db, e.next)
      && (e.next.Finished? || (e.next.ResettingOtp? && e.next.i == task.i)
          || (e.next.AwaitingOtp? && e.next.i == task.i && SeenRow(db, task.i, e.next.seen)))
  {
  }

  /** The columns an OTP step writes. */
  function OtpWrite(task: Task): (Option<Status>, Option<string>, Option<string>)
    requires Otp(task) && !task.AwaitingOtp?
  {
    match task
    case ClaimingOtp(_, _) => (None, Some("otp_finalizing"), None)
    case RefusingOtp(_) => (None, Some("otp"), None)
    case ResettingOtp(_) => (None, Some("otp"), None)
    case AcceptingOtp(_, seen, result) => (Some(PROVIDER_PROCESSING), Some(result.providerStatus), seen.transferCode)
    case DoubtingOtp(_) => (Some(UNKNOWN), Some("unknown"), None)
  }

  lemma AwaitingOtpEffect(db: Database, deliveries: set<Delivery>, i: nat, seen: Settlement, response: Response)
    requires Sound(db) && Agreed(db) && SeenRow(db, i, seen)
    ensures EffectSound(db, deliveries, AwaitingOtp(i, seen), ActOtp(db, AwaitingOtp(i, seen), response))
  {
    DecidingEffect(db, deliveries, AwaitingOtp(i, seen), ActOtp(db, AwaitingOtp(i, seen), response));
  }

  lemma OtpWriteEffect(db: Database, deliveries: set<Delivery>, task: Task, e: Effect)
    requires Sound(db) && Agreed(db) && Otp(task) && !task.AwaitingOtp? && OnHeldRow(db, task.i)
    requires var (status, providerStatus, code) := OtpWrite(task); e == Stay(Overwrite(db, task.i, status, providerStatus, code).db, e.next)
    requires e.next.Finished? || (e.next.ResettingOtp? && e.next.i == task.i)
          || (e.next.AwaitingOtp? && e.next.i == task.i && SeenRow(db, task.i, e.next.seen))
    ensures EffectSound(db, deliveries, task, e)
  {
    var (status, providerStatus, code) := OtpWrite(task);
    OverwriteEffect(db, deliveries, task, e.next, task.i, status, providerStatus, code, e.db);
  }

  lemma OtpStepEffect(db: Database, deliveries: set<Delivery>, task: Task, response: Response)
    requires Sound(db) && Agreed(db) && TaskSound(db, deliveries, task) && Otp(task)
    ensures EffectSound(db, deliveries, task, ActOtp(db, task, response))
  {
    if task.AwaitingOtp? {
      AwaitingOtpEffect(db, deliveries, task.i, task.seen, response);
    } else if ActOtp(db, task, response) == Stay(db, Finished) {
      DecidingEffect(db, deliveries, task, Stay(db, Finished));
    } else {
      OtpStep(db, deliveries, task, response);
      OtpWriteEffect(db, deliveries, task, ActOtp(db, task, response));
    }
  }

  lemma OtpEffect(db: Database, deliveries: set<Delivery>, task: Task, response: Response)
    requires Sound(db) && Agreed(db) && TaskSound(db, deliveries, task) && Otp(task)
    ensures EffectSound(db, deliveries, task, Act(db, task, response))
  {
    OtpStepEffect(db, deliveries, task, response);
  }

  // ----- conclusions -----

  lemma ReleasingEffect(db: Database, deliveries: set<Delivery>, i: nat)
    requires Sound(db) && Agreed(db) && OnHeldRow(db, i) && InitiationFailed(i) in deliveries
    ensures EffectSound(db, deliveries, ReleasingAfterError(i), ActConcluding(db, ReleasingAfterError(i)))
  {
    var e := ActConcluding(db, ReleasingAfterError(i));
    if e.db == db {
      DecidingEffect(db, deliveries, ReleasingAfterError(i), e);
    } else {
      ReleaseEffect(db, deliveries, ReleasingAfterError(i), Finished, db.settlements[i].org, i, e.db);
    }
  }

  lemma ConcludingEffect(db: Database, deliveries: set<Delivery>, task: Task, response: Response)
    requires Sound(db) && Agreed(db) && TaskSound(db, deliveries, task) && !Initiating(task) && !Reconciling(task) && !Otp(task)
    ensures EffectSound(db, deliveries, task, Act(db, task, response))
  {
    match task {
      case Finished => DecidingEffect(db, deliveries, task, Stay(db, task));
      case FlaggingUnknown(i) =>
        OverwriteEffect(db, deliveries, task, Finished, i, Some(UNKNOWN), None, None, ActConcluding(db, task).db);
      case NotingFailure(i, result) =>
        OverwriteEffect(db, deliveries, task, Finished, i, None, Some(result.providerStatus), result.transferCode, ActConcluding(db, task).db);
      case ReleasingAfterError(i) => ReleasingEffect(db, deliveries, i);
      case Applying(i, seen, result, channel) => ApplyEffect(db, deliveries, i, seen, result, channel);
      case UndoingBusiness(i, providerStatus) => UndoEffect(db, deliveries, i, providerStatus);
    }
  }

  /** Every step of every worker has a sound effect. */
  lemma ActEffect(db: Database, deliveries: set<Delivery>, task: Task, response: Response)
    requires Sound(db) && Agreed(db) && TaskSound(db, deliveries, task)
    ensures EffectSound(db, deliveries, task, Act(db, task, response))
  {
    if Initiating(task) {
      InitiatingEffect(db, deliveries, task, response);
    } else if Reconciling(task) {
      ReconcilingEffect(db, deliveries, task, response);
    } else if Otp(task) {
      OtpEffect(db, deliveries, task, response);
    } else {
      ConcludingEffect(db, deliveries, task, response);
    }
  }
}
