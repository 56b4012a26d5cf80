/** Whole runs of the settlement protocol: the invariant along every run, and what follows from it. */
module ProtocolRuns {
  import opened Prelude
  import opened Records
  import opened Settlements
  import opened SettlementInvariant
  import opened TransactionSafety
  import opened Obligations
  import opened Protocol
  import opened ProtocolSafety

  /** Empty wallets, nothing settled, nothing paid. */
  ghost predicate Initial(sys: System) {
    && sys.tasks == [] && sys.calls == [] && sys.claims == [] && sys.deliveries == {} && sys.splits == {}
    && sys.db.ledger == [] && sys.db.settlements == []
    && (forall w :: 0 <= w < |sys.db.wallets| ==> sys.db.wallets[w].balance == 0 && sys.db.wallets[w].reserved == 0)
    && SlipsPlaced(sys.db) && RunsAgree(sys.db)
    && (forall p :: p in sys.db.slips ==> sys.db.slips[p].status != PAID)
    && (forall q :: q in sys.db.requests ==> sys.db.requests[q].status != SETTLED)
  }

  lemma InitialInv(sys: System)
    requires Initial(sys)
    ensures Inv(sys)
  {
    forall i: nat ensures BudgetSound(sys, i) {
    }
  }

  // ----- events other than worker steps -----

  ghost predicate BackgroundRow(db: Database, d: Database, j: nat)
    requires j < |db.settlements| <= |d.settlements|
  {
    && db.settlements[j].via == PROVIDER
    && (Phase(d, j) == Phase(db, j) || Phase(d, j) == Held)
    && ObligationPaid(d, d.settlements[j]) == ObligationPaid(db, db.settlements[j])
  }

  /** The database moved on without any worker: what the other parts of the invariant need to know. */
  ghost predicate Background(db: Database, d: Database) {
    && Sound(d) && Agreed(d) && Evolves(db, d)
    && (forall j :: 0 <= j < |db.settlements| ==>
          && d.settlements[j].initiationClaimed == db.settlements[j].initiationClaimed
          && d.settlements[j].initiationAttempted == db.settlements[j].initiationAttempted
          && (d.settlements[j].via == PROVIDER ==> BackgroundRow(db, d, j)))
    && (forall j :: |db.settlements| <= j < |d.settlements| ==>
          !d.settlements[j].initiationClaimed && !d.settlements[j].initiationAttempted
          && (d.settlements[j].via == PROVIDER ==> Phase(d, j) == Untouched))
  }

  lemma BackgroundKeepsInv(sys: System, d: Database)
    requires Inv(sys) && Background(sys.db, d)
    ensures Inv(sys.(db := d))
  {
    var sys' := sys.(db := d);
    forall t | 0 <= t < |sys.tasks| ensures TaskSound(d, sys.deliveries, sys.tasks[t]) {
      TaskStaysSound(sys.db, d, sys.deliveries, sys.deliveries, sys.tasks[t]);
    }
    forall c | 0 <= c < |sys.calls| ensures CallSound(d, sys.calls[c]) {
      CallStaysSound(sys.db, d, sys.calls[c]);
    }
    EvidenceStaysSound(sys.db, d, sys.deliveries, sys.deliveries);
    forall i: nat ensures BudgetSound(sys', i) {
      assert BudgetSound(sys, i);
    }
    forall i | 0 <= i < |d.settlements| ensures SplitSound(sys', i) {
      if i < |sys.db.settlements| { assert SplitSound(sys, i); }
    }
  }

  lemma BackgroundReflexive(db: Database)
    requires Sound(db) && Agreed(db)
    ensures Background(db, db)
  {
    EvolvesReflexive(db);
  }

  lemma PrepareBackground(db: Database, source: Source, key: string, internalReference: string)
    requires Sound(db) && Agreed(db) && SettlementSource(source.sourceType)
    ensures Background(db, Land(db, PrepareProvider(db, source, key, internalReference)))
  {
    var o := PrepareProvider(db, source, key, internalReference);
    PrepareIsSafe(db, source, key, internalReference);
    if o.Committed? && o.acted {
      NewRowIsBackground(db, o.db);
    } else {
      BackgroundReflexive(db);
    }
  }

  /** A prepared row joined the table. */
  lemma NewRowIsBackground(db: Database, d: Database)
    requires Sound(db) && Agreed(db) && Sound(d) && Evolves(db, d) && d.ledger == db.ledger
    requires d.slips == db.slips && d.runs == db.runs && d.requests == db.requests
    requires |d.settlements| == |db.settlements| + 1 && d.settlements[..|db.settlements|] == db.settlements
    requires var s := d.settlements[|db.settlements|];
      && Phase(d, |db.settlements|) == Untouched && !s.initiationClaimed && !s.initiationAttempted
      && FindSource(db.settlements, s.org, s.sourceType, s.sourceId).None? && SettlementSource(s.sourceType)
    ensures Background(db, d)
  {
    OldRowsStay(db, d);
    NewIsUnpaid(db, d.settlements[|db.settlements|]);
    NewRowAgrees(db, d);
    JoinedIsBackground(db, d);
  }

  lemma OldRowsStay(db: Database, d: Database)
    requires |d.settlements| == |db.settlements| + 1 && d.settlements[..|db.settlements|] == db.settlements && d.ledger == db.ledger
    ensures forall j :: 0 <= j < |db.settlements| ==> d.settlements[j] == db.settlements[j] && Phase(d, j) == Phase(db, j)
  {
    forall j | 0 <= j < |db.settlements| ensures d.settlements[j] == db.settlements[j] && Phase(d, j) == Phase(db, j) {
      assert d.settlements[..|db.settlements|][j] == db.settlements[j];
    }
  }

  lemma NewRowAgrees(db: Database, d: Database)
    requires Agreed(db) && Evolves(db, d) && |d.settlements| == |db.settlements| + 1
    requires d.slips == db.slips && d.runs == db.runs && d.requests == db.requests
    requires forall j :: 0 <= j < |db.settlements| ==> d.settlements[j] == db.settlements[j] && Phase(d, j) == Phase(db, j)
    requires Phase(d, |db.settlements|) == Untouched && !ObligationPaid(db, d.settlements[|db.settlements|])
    ensures Agreed(d)
  {
    AgreedFrame(db, d);
  }

  lemma JoinedIsBackground(db: Database, d: Database)
    requires Sound(d) && Agreed(d) && Evolves(db, d) && |d.settlements| == |db.settlements| + 1
    requires d.slips == db.slips && d.requests == db.requests
    requires forall j :: 0 <= j < |db.settlements| ==> d.settlements[j] == db.settlements[j] && Phase(d, j) == Phase(db, j)
    requires var s := d.settlements[|db.settlements|];
      Phase(d, |db.settlements|) == Untouched && !s.initiationClaimed && !s.initiationAttempted
    ensures Background(db, d)
  {
  }

  lemma ManualBackground(db: Database, source: Source, key: string, externalReference: string, internalReference: string)
    requires Sound(db) && Agreed(db) && SettlementSource(source.sourceType) && SameObligation(db, source)
    ensures Background(db, Land(db, CompleteManual(db, source, key, externalReference, internalReference)))
  {
    var o := CompleteManual(db, source, key, externalReference, internalReference);
    ManualIsSafe(db, source, key, externalReference, internalReference);
    if o.Committed? && o.acted {
      ManualNotAttempted(db, source, key, externalReference, internalReference);
      ManualRowBackground(db, o.db, ManualTarget(db, source, key, externalReference, internalReference).value.0);
    } else {
      BackgroundReflexive(db);
    }
  }

  lemma ManualRowBackground(db: Database, d: Database, i: nat)
    requires Sound(db) && Agreed(db) && ManualSafe(db, d, i)
    requires d.slips == db.slips && d.runs == db.runs && d.requests == db.requests
    requires i >= |db.settlements| ==> !d.settlements[i].initiationAttempted
    ensures Background(db, d)
  {
    if i < |db.settlements| { assert SettlementSound(db, i); }
    AgreedFrame(db, d);
  }

  lemma ManualNotAttempted(db: Database, source: Source, key: string, externalReference: string, internalReference: string)
    requires CompleteManual(db, source, key, externalReference, internalReference).Committed?
    requires CompleteManual(db, source, key, externalReference, internalReference).acted
    ensures var i := ManualTarget(db, source, key, externalReference, internalReference).value.0;
      var d := CompleteManual(db, source, key, externalReference, internalReference).db;
      i == |db.settlements| ==> !d.settlements[i].initiationAttempted
  {
  }

  lemma OutsideBackground(db: Database, x: External)
    requires Sound(db) && Agreed(db) && (x.sourceType.Some? ==> !SettlementSource(x.sourceType.value))
    ensures Background(db, Land(db, PostExternal(db, x)))
  {
    ExternalIsSafe(db, x);
    if PostExternal(db, x).Committed? {
      AgreedFrame(db, PostExternal(db, x).db);
    } else {
      BackgroundReflexive(db);
    }
  }

  /** A new worker that owes nothing yet. */
  lemma SpawnKeepsInv(sys: System, task: Task)
    requires Inv(sys) && TaskSound(sys.db, sys.deliveries, task)
    requires forall i: nat :: InitPending(i)(task) == 0 && RetryPending(i)(task) == 0
    ensures Inv(Spawn(sys, task))
  {
    var sys' := Spawn(sys, task);
    forall i: nat ensures BudgetSound(sys', i) {
      assert BudgetSound(sys, i);
      TallyAppend(sys.tasks, task, InitPending(i));
      TallyAppend(sys.tasks, task, RetryPending(i));
    }
    forall i | 0 <= i < |sys.db.settlements| ensures SplitSound(sys', i) {
      assert SplitSound(sys, i);
      TallyAppend(sys.tasks, task, Undoing(i));
    }
  }

  lemma HearingKeepsInv(sys: System, deliveries: set<Delivery>)
    requires Inv(sys)
    ensures Inv(sys.(deliveries := sys.deliveries + deliveries))
  {
    var sys' := sys.(deliveries := sys.deliveries + deliveries);
    EvolvesReflexive(sys.db);
    forall t | 0 <= t < |sys.tasks| ensures TaskSound(sys.db, sys'.deliveries, sys.tasks[t]) {
      TaskStaysSound(sys.db, sys.db, sys.deliveries, sys'.deliveries, sys.tasks[t]);
    }
    EvidenceStaysSound(sys.db, sys.db, sys.deliveries, sys'.deliveries);
    forall i: nat ensures BudgetSound(sys', i) {
      assert BudgetSound(sys, i);
    }
    forall i | 0 <= i < |sys.db.settlements| ensures SplitSound(sys', i) {
      assert SplitSound(sys, i);
    }
  }

  lemma DeliverKeepsInv(sys: System, said: TransferResult)
    requires Inv(sys)
    ensures Inv(Hear(sys, said)) && Hear(sys, said).db == sys.db
  {
    HearingKeepsInv(sys, {Delivery(WEBHOOK, said)});
    var heard := sys.(deliveries := sys.deliveries + {Delivery(WEBHOOK, said)});
    if Hear(sys, said) != heard {
      var i := FindTransfer(sys.db.settlements, said.reference).value;
      ReferencedRowIsHeld(sys.db, i);
      SpawnKeepsInv(heard, Applying(i, sys.db.settlements[i], said, WEBHOOK));
    }
  }

  /** A row with a transfer reference holds, or once held, a provider reservation. */
  lemma ReferencedRowIsHeld(db: Database, i: nat)
    requires Sound(db) && i < |db.settlements| && db.settlements[i].transferReference.Some?
    ensures SeenRow(db, i, db.settlements[i])
  {
    assert SettlementSound(db, i);
  }

  lemma InitiateKeepsInv(sys: System, org: string, i: nat)
    requires Inv(sys)
    ensures Inv(Next(sys, Initiate(org, i))) && Evolves(sys.db, Next(sys, Initiate(org, i)).db)
  {
    EvolvesReflexive(sys.db);
    ReserveAndClaimIsSafe(sys.db, org, i);
    match ReserveAndClaim(sys.db, org, i) {
      case RolledBack(_) =>
      case Committed(d, shouldInitiate) =>
        ClaimKeepsBusiness(sys.db, org, i);
        ClaimKeepsRow(sys.db, org, i);
        if shouldInitiate {
          ClaimKeepsInv(sys, i, d);
        } else {
          IdleClaimKeepsInv(sys, i, d);
        }
    }
  }

  lemma IdleClaimKeepsInv(sys: System, i: nat, d: Database)
    requires Inv(sys) && Sound(d) && Evolves(sys.db, d) && OnlyRow(sys.db, d, i) && i < |sys.db.settlements|
    requires d.slips == sys.db.slips && d.runs == sys.db.runs && d.requests == sys.db.requests
    requires d.settlements[i].via == sys.db.settlements[i].via && (Phase(d, i) == Phase(sys.db, i) || Phase(d, i) == Held)
    requires d.settlements[i].initiationClaimed == sys.db.settlements[i].initiationClaimed
    requires d.settlements[i].initiationAttempted == sys.db.settlements[i].initiationAttempted
    ensures Inv(sys.(db := d))
  {
    IdleClaimIsBackground(sys.db, i, d);
    BackgroundKeepsInv(sys, d);
  }

  lemma IdleClaimIsBackground(db: Database, i: nat, d: Database)
    requires Agreed(db) && Sound(d) && Evolves(db, d) && OnlyRow(db, d, i) && i < |db.settlements|
    requires d.slips == db.slips && d.runs == db.runs && d.requests == db.requests
    requires d.settlements[i].via == db.settlements[i].via && (Phase(d, i) == Phase(db, i) || Phase(d, i) == Held)
    requires d.settlements[i].initiationClaimed == db.settlements[i].initiationClaimed
    requires d.settlements[i].initiationAttempted == db.settlements[i].initiationAttempted
    ensures Background(db, d)
  {
    IdleClaimAgrees(db, i, d);
    forall j | 0 <= j < |db.settlements| && d.settlements[j].via == PROVIDER ensures BackgroundRow(db, d, j) {
      IdleRow(db, i, d, j);
    }
  }

  lemma IdleRow(db: Database, i: nat, d: Database, j: nat)
    requires Evolves(db, d) && OnlyRow(db, d, i) && i < |db.settlements| && j < |db.settlements| && d.settlements[j].via == PROVIDER
    requires d.slips == db.slips && d.requests == db.requests
    requires d.settlements[i].via == db.settlements[i].via && (Phase(d, i) == Phase(db, i) || Phase(d, i) == Held)
    ensures BackgroundRow(db, d, j)
  {
    assert Ages(db.settlements[j], d.settlements[j]);
  }

  lemma IdleClaimAgrees(db: Database, i: nat, d: Database)
    requires Agreed(db) && Evolves(db, d) && OnlyRow(db, d, i) && i < |db.settlements|
    requires d.slips == db.slips && d.runs == db.runs && d.requests == db.requests
    requires d.settlements[i].via == db.settlements[i].via && (Phase(d, i) == Phase(db, i) || Phase(d, i) == Held)
    ensures Agreed(d)
  {
    AgreedFrame(db, d);
  }

  lemma ClaimKeepsBusiness(db: Database, org: string, i: nat)
    ensures var o := ReserveAndClaim(db, org, i);
      o.Committed? ==> o.db.slips == db.slips && o.db.runs == db.runs && o.db.requests == db.requests
  {
    if i < |db.settlements| && db.settlements[i].status != PREPARED { InitiationKeepsBusiness(db, i); }
  }

  lemma InitiationKeepsBusiness(db: Database, i: nat)
    requires i < |db.settlements|
    ensures var o := ClaimInitiation(db, i);
      o.Committed? ==> o.db.slips == db.slips && o.db.runs == db.runs && o.db.requests == db.requests
  {
  }

  lemma ClaimKeepsRow(db: Database, org: string, i: nat)
    requires Sound(db)
    ensures var o := ReserveAndClaim(db, org, i);
      o.Committed? ==>
        && i < |db.settlements| && |o.db.settlements| == |db.settlements|
        && o.db.settlements[i].via == db.settlements[i].via
        && (Phase(o.db, i) == Phase(db, i) || Phase(o.db, i) == Held)
  {
    ReserveAndClaimIsSafe(db, org, i);
  }

  lemma ClaimKeepsInv(sys: System, i: nat, d: Database)
    requires Inv(sys) && Sound(d) && Evolves(sys.db, d) && OnlyRow(sys.db, d, i) && i < |sys.db.settlements|
    requires d.slips == sys.db.slips && d.runs == sys.db.runs && d.requests == sys.db.requests
    requires !sys.db.settlements[i].initiationClaimed && d.settlements[i].initiationClaimed && Phase(d, i) == Held
    requires d.settlements[i].via == PROVIDER && sys.db.settlements[i].via == PROVIDER
    requires d.settlements[i].initiationAttempted == sys.db.settlements[i].initiationAttempted
    ensures Inv(Spawn(sys.(db := d, claims := sys.claims + [i]), EnsuringRecipient(i)))
  {
    var sys' := Spawn(sys.(db := d, claims := sys.claims + [i]), EnsuringRecipient(i));
    AgreedFrame(sys.db, d);
    ClaimKeepsTasks(sys, i, d);
    forall c | 0 <= c < |sys.calls| ensures CallSound(d, sys.calls[c]) {
      CallStaysSound(sys.db, d, sys.calls[c]);
    }
    EvidenceStaysSound(sys.db, d, sys.deliveries, sys.deliveries);
    forall j: nat ensures BudgetSound(sys', j) {
      assert BudgetSound(sys, j);
      ClaimKeepsBudget(sys, i, d, j);
    }
    forall j | 0 <= j < |d.settlements| ensures SplitSound(sys', j) {
      assert SplitSound(sys, j);
      assert Ages(sys.db.settlements[j], d.settlements[j]);
      TallyAppend(sys.tasks, EnsuringRecipient(i), Undoing(j));
    }
  }

  lemma ClaimKeepsBudget(sys: System, i: nat, d: Database, j: nat)
    requires BudgetSound(sys, j) && OnlyRow(sys.db, d, i) && i < |sys.db.settlements|
    requires !sys.db.settlements[i].initiationClaimed && d.settlements[i].initiationClaimed
    requires d.settlements[i].initiationAttempted == sys.db.settlements[i].initiationAttempted
    ensures BudgetSound(Spawn(sys.(db := d, claims := sys.claims + [i]), EnsuringRecipient(i)), j)
  {
    TallyAppend(sys.tasks, EnsuringRecipient(i), InitPending(j));
    TallyAppend(sys.tasks, EnsuringRecipient(i), RetryPending(j));
    TallyAppend(sys.claims, i, Handed(j));
  }

  lemma ClaimKeepsTasks(sys: System, i: nat, d: Database)
    requires Inv(sys) && Sound(d) && Evolves(sys.db, d) && i < |sys.db.settlements| && Phase(d, i) == Held
    ensures var tasks := sys.tasks + [EnsuringRecipient(i)];
      forall t :: 0 <= t < |tasks| ==> TaskSound(d, sys.deliveries, tasks[t])
  {
    assert SettlementSound(d, i);
    forall t | 0 <= t < |sys.tasks| ensures TaskSound(d, sys.deliveries, sys.tasks[t]) {
      TaskStaysSound(sys.db, d, sys.deliveries, sys.deliveries, sys.tasks[t]);
    }
  }

  lemma CrashKeepsInv(sys: System, t: nat)
    requires Inv(sys) && t < |sys.tasks|
    ensures Inv(Next(sys, Crash(t)))
  {
    var sys' := Next(sys, Crash(t));
    forall i: nat ensures BudgetSound(sys', i) {
      assert BudgetSound(sys, i);
      CrashKeepsBudget(sys, t, i);
    }
    forall i | 0 <= i < |sys.db.settlements| ensures SplitSound(sys', i) {
      CrashKeepsSplit(sys, t, i);
    }
  }

  lemma CrashKeepsBudget(sys: System, t: nat, i: nat)
    requires t < |sys.tasks| && BudgetSound(sys, i)
    ensures BudgetSound(Next(sys, Crash(t)), i)
  {
    TallyUpdate(sys.tasks, t, Finished, InitPending(i));
    TallyUpdate(sys.tasks, t, Finished, RetryPending(i));
  }

  lemma CrashKeepsSplit(sys: System, t: nat, i: nat)
    requires t < |sys.tasks| && i < |sys.db.settlements| && SplitSound(sys, i)
    ensures SplitSound(Next(sys, Crash(t)), i)
  {
    TallyUpdate(sys.tasks, t, Finished, Undoing(i));
  }

  lemma SubmitOtpKeepsInv(sys: System, org: string, i: nat)
    requires Inv(sys)
    ensures Inv(Next(sys, SubmitOtp(org, i))) && Next(sys, SubmitOtp(org, i)).db == sys.db
  {
    if Next(sys, SubmitOtp(org, i)) != sys {
      ReferencedRowIsHeld(sys.db, i);
      SpawnKeepsInv(sys, ClaimingOtp(i, sys.db.settlements[i]));
    }
  }

  lemma VerifyKeepsInv(sys: System, i: nat)
    requires Inv(sys)
    ensures Inv(Next(sys, Verify(i))) && Next(sys, Verify(i)).db == sys.db
  {
    if Next(sys, Verify(i)) != sys {
      ReferencedRowIsHeld(sys.db, i);
      SpawnKeepsInv(sys, Verifying(i, sys.db.settlements[i]));
    }
  }

  lemma StepIsSound(sys: System, t: nat, response: Response)
    requires Inv(sys) && t < |sys.tasks|
    ensures Inv(Next(sys, Step(t, response))) && Evolves(sys.db, Next(sys, Step(t, response)).db)
  {
    var e := Act(sys.db, sys.tasks[t], response);
    ActEffect(sys.db, sys.deliveries, sys.tasks[t], response);
    OneCallAtMost(sys.db, sys.tasks[t], response);
    StepKeepsInv(sys, t, e);
    NextIsStepped(sys, t, response);
  }

  lemma OneCallAtMost(db: Database, task: Task, response: Response)
    ensures |Act(db, task, response).calls| <= 1
  {
  }

  lemma NextIsStepped(sys: System, t: nat, response: Response)
    requires t < |sys.tasks|
    ensures Next(sys, Step(t, response)) == Stepped(sys, t, Act(sys.db, sys.tasks[t], response))
  {
  }

  /** Every event, whatever the workers hold, keeps the invariant and moves each settlement along one edge at most. */
  lemma EventKeepsInv(sys: System, event: Event)
    requires Inv(sys)
    ensures Inv(Next(sys, event)) && Evolves(sys.db, Next(sys, event).db)
  {
    EvolvesReflexive(sys.db);
    match event {
      case Prepare(source, key, internalReference) =>
        if SettlementSource(source.sourceType) {
          PrepareBackground(sys.db, source, key, internalReference);
          BackgroundKeepsInv(sys, Next(sys, event).db);
        }
      case Manual(source, key, externalReference, internalReference) =>
        if SettlementSource(source.sourceType) && SameObligation(sys.db, source) {
          ManualBackground(sys.db, source, key, externalReference, internalReference);
          BackgroundKeepsInv(sys, Next(sys, event).db);
        }
      case Outside(x) =>
        if x.sourceType.Some? ==> !SettlementSource(x.sourceType.value) {
          OutsideBackground(sys.db, x);
          BackgroundKeepsInv(sys, Next(sys, event).db);
        }
      case Initiate(org, i) => InitiateKeepsInv(sys, org, i);
      case Verify(i) => VerifyKeepsInv(sys, i);
      case Deliver(said) => DeliverKeepsInv(sys, said);
      case SubmitOtp(org, i) => SubmitOtpKeepsInv(sys, org, i);
      case Step(t, response) => if t < |sys.tasks| { StepIsSound(sys, t, response); }
      case Crash(t) => if t < |sys.tasks| { CrashKeepsInv(sys, t); }
    }
  }

  /** Every reachable state satisfies the invariant. */
  lemma {:induction false} RunsKeepInv(sys: System, events: seq<Event>)
    requires Inv(sys)
    ensures Inv(After(sys, events))
  {
    if events != [] {
      RunsKeepInv(sys, events[..|events| - 1]);
      EventKeepsInv(After(sys, events[..|events| - 1]), events[|events| - 1]);
    }
  }
}
