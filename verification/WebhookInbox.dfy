/** paystack-transfer-webhook.ts: one stored webhook event and the workers that handle it. A worker is either a
    delivery, which reads the attempt count and then claims, or a recovery pass, which claims with the moment it
    started and then reads the count. Workers crash at any point, and any number of them run at once. */
module WebhookInbox {
  import opened Prelude
  import opened Backoff

  /** What the stored payload says: it cannot be read, its status is not one the provider documents, it is a
      reversal, or it is anything else. */
  datatype News = MALFORMED | UNSUPPORTED | REVERSING | OTHER

  datatype InboxStatus = RECEIVED | FAILED | PROCESSING | PROCESSED | IGNORED | DEAD_LETTER

  datatype Row = Row(
    news: News, status: InboxStatus, attempts: int, deferred: int, nextAttemptAt: Option<int>,
    token: Option<nat>, leaseUntil: Option<int>)

  datatype Limits = Limits(maxAttempts: nat, leaseMs: nat)

  /** Who holds a claim: the delivery itself, or a recovery pass that claimed on its behalf. */
  datatype Path = DELIVERY | RECOVERY

  datatype Outcome = DEAD | IGNORE | DEFER | DONE | FAULT(initial: int)

  datatype Worker =
    | Gone
    | Started(initial: int)
    | Claimed(token: nat)
    | Holding(token: nat, path: Path, initial: int)
    | Writing(token: nat, path: Path, outcome: Outcome)

  /** What handling finds outside the inbox: no settlement, one that does not yet look successful, one that does,
      and whether applying the result succeeds. */
  datatype Finding = NoSettlement | Settlement(successful: bool, applied: bool)

  datatype Event =
    | Tick(ms: nat)
    | Begin
    | Claim(w: nat)
    | Sweep(now: int)
    | ReadCount(w: nat)
    | Handle(w: nat, finding: Finding)
    | Write(w: nat)
    | Crash(w: nat)

  /** `issued` counts the claims made so far; the next claim carries it as its token. */
  datatype System = System(row: Row, clock: int, workers: seq<Worker>, issued: nat)

  // ----- the row -----

  predicate Eligible(row: Row, now: int, c: Limits) {
    || (row.status == RECEIVED && row.attempts < c.maxAttempts)
    || (row.status == FAILED && row.attempts < c.maxAttempts && (row.nextAttemptAt.None? || row.nextAttemptAt.value <= now))
    || (row.status == PROCESSING && row.leaseUntil.Some? && row.leaseUntil.value <= now)
  }

  function TakeRow(row: Row, token: nat, now: int, c: Limits): Row {
    Row(row.news, PROCESSING, row.attempts + 1, row.deferred, None, Some(token), Some(now + c.leaseMs))
  }

  /** The conditional update that ends a claim; it touches nothing unless the row still carries the token. */
  function WriteRow(row: Row, token: nat, outcome: Outcome, clock: int, c: Limits): Row {
    if row.token != Some(token) then row
    else
      var free := row.(token := None, leaseUntil := None);
      match outcome
      case DEAD => free.(status := DEAD_LETTER)
      case IGNORE => free.(status := IGNORED)
      case DEFER => free.(status := FAILED, attempts := row.attempts - 1, deferred := row.deferred + 1, nextAttemptAt := Some(clock + 60_000))
      case DONE => free.(status := PROCESSED, nextAttemptAt := None)
      case FAULT(initial) =>
        if initial + 1 >= c.maxAttempts then free.(status := DEAD_LETTER, nextAttemptAt := None)
        else free.(status := FAILED, nextAttemptAt := Some(clock + RetryDelay(initial + 1)))
  }

  /** What a worker that still holds its lease decides; an undocumented status throws and ends the worker. */
  function Decide(news: News, finding: Finding, initial: int): Option<Outcome> {
    match news
    case MALFORMED => Some(DEAD)
    case _ =>
      if finding.NoSettlement? then Some(IGNORE)
      else if news == UNSUPPORTED then None
      else if news == REVERSING && !finding.successful then Some(DEFER)
      else Some(if finding.applied then DONE else FAULT(initial))
  }

  // ----- the system -----

  function Next(sys: System, event: Event, c: Limits): System {
    match event
    case Tick(ms) => sys.(clock := sys.clock + ms)
    case Begin => sys.(workers := sys.workers + [Started(sys.row.attempts)])
    case Claim(w) =>
      if w >= |sys.workers| || !sys.workers[w].Started? then sys
      else if !Eligible(sys.row, sys.clock, c) then sys.(workers := sys.workers[w := Gone])
      else System(TakeRow(sys.row, sys.issued, sys.clock, c), sys.clock,
                  sys.workers[w := Holding(sys.issued, DELIVERY, sys.workers[w].initial)], sys.issued + 1)
    case Sweep(now) =>
      if now > sys.clock || !Eligible(sys.row, now, c) then sys
      else System(TakeRow(sys.row, sys.issued, now, c), sys.clock, sys.workers + [Claimed(sys.issued)], sys.issued + 1)
    case ReadCount(w) =>
      if w >= |sys.workers| || !sys.workers[w].Claimed? then sys
      else sys.(workers := sys.workers[w := Holding(sys.workers[w].token, RECOVERY, sys.row.attempts)])
    case Handle(w, finding) =>
      if w >= |sys.workers| || !sys.workers[w].Holding? then sys
      else
        var worker := sys.workers[w];
        var held := sys.row.token == Some(worker.token) && sys.row.leaseUntil.Some? && sys.row.leaseUntil.value > sys.clock;
        var outcome := Decide(sys.row.news, finding, worker.initial);
        sys.(workers := sys.workers[w := if held && outcome.Some? then Writing(worker.token, worker.path, outcome.value) else Gone])
    case Write(w) =>
      if w >= |sys.workers| || !sys.workers[w].Writing? then sys
      else sys.(row := WriteRow(sys.row, sys.workers[w].token, sys.workers[w].outcome, sys.clock, c), workers := sys.workers[w := Gone])
    case Crash(w) =>
      if w >= |sys.workers| then sys else sys.(workers := sys.workers[w := Gone])
  }

  function After(sys: System, events: seq<Event>, c: Limits): System {
    if events == [] then sys else Next(After(sys, events[..|events| - 1], c), events[|events| - 1], c)
  }

  predicate Initial(sys: System) {
    && sys.row == Row(sys.row.news, RECEIVED, 0, 0, None, None, None)
    && sys.workers == [] && sys.issued == 0
  }

  // ----- the invariant -----

  function TokenOf(worker: Worker): Option<nat> {
    match worker
    case Claimed(token) => Some(token)
    case Holding(token, _, _) => Some(token)
    case Writing(token, _, _) => Some(token)
    case _ => None
  }

  predicate RowSound(row: Row, issued: nat) {
    && (row.status == PROCESSING <==> row.token.Some?)
    && (row.token.Some? <==> row.leaseUntil.Some?)
    && (row.token.Some? ==> row.token.value < issued && row.attempts >= 1)
    && row.attempts >= 0 && row.deferred >= 0
    && issued == row.attempts + row.deferred
    && (row.status == PROCESSED || row.status == IGNORED || row.status == DEAD_LETTER || row.status == FAILED ==> issued > 0)
  }

  /** A recovery worker that still owns the row read the current count; only a fit payload reaches an outcome. */
  predicate WorkerSound(row: Row, issued: nat, worker: Worker) {
    && (TokenOf(worker).Some? ==> TokenOf(worker).value < issued)
    && (worker.Holding? && worker.path == RECOVERY && row.token == Some(worker.token) ==> worker.initial == row.attempts)
    && (worker.Writing? && worker.path == RECOVERY && worker.outcome.FAULT? && row.token == Some(worker.token)
        ==> worker.outcome.initial == row.attempts)
    && (worker.Writing? && row.news == UNSUPPORTED ==> worker.outcome == IGNORE)
    && (worker.Writing? && row.news == MALFORMED ==> worker.outcome == DEAD)
  }

  predicate TokensDiffer(workers: seq<Worker>) {
    forall i, j :: 0 <= i < j < |workers| && TokenOf(workers[i]).Some? ==> TokenOf(workers[i]) != TokenOf(workers[j])
  }

  predicate Inv(sys: System) {
    && RowSound(sys.row, sys.issued)
    && TokensDiffer(sys.workers)
    && forall w :: 0 <= w < |sys.workers| ==> WorkerSound(sys.row, sys.issued, sys.workers[w])
  }

  lemma TakeKeepsSound(row: Row, issued: nat, now: int, c: Limits)
    requires RowSound(row, issued)
    ensures RowSound(TakeRow(row, issued, now, c), issued + 1)
    ensures forall worker :: WorkerSound(row, issued, worker) ==> WorkerSound(TakeRow(row, issued, now, c), issued + 1, worker)
  {
  }

  lemma WriteKeepsSound(row: Row, issued: nat, token: nat, outcome: Outcome, clock: int, c: Limits)
    requires RowSound(row, issued)
    ensures RowSound(WriteRow(row, token, outcome, clock, c), issued)
    ensures forall worker :: WorkerSound(row, issued, worker) ==> WorkerSound(WriteRow(row, token, outcome, clock, c), issued, worker)
  {
  }

  /** Replacing one worker keeps tokens apart when its token stays or goes, or is new. */
  lemma ReplaceKeepsApart(workers: seq<Worker>, w: nat, worker: Worker, issued: nat)
    requires w < |workers| && TokensDiffer(workers)
    requires forall k :: 0 <= k < |workers| && TokenOf(workers[k]).Some? ==> TokenOf(workers[k]).value < issued
    requires TokenOf(worker).None? || TokenOf(worker) == TokenOf(workers[w]) || TokenOf(worker) == Some(issued)
    ensures TokensDiffer(workers[w := worker])
  {
  }

  lemma WorkersKeepInv(sys: System, w: nat, worker: Worker)
    requires Inv(sys) && w < |sys.workers|
    requires TokenOf(worker).None? || TokenOf(worker) == TokenOf(sys.workers[w])
    requires WorkerSound(sys.row, sys.issued, worker)
    ensures Inv(sys.(workers := sys.workers[w := worker]))
  {
    ReplaceKeepsApart(sys.workers, w, worker, sys.issued);
  }

  lemma ClaimKeepsInv(sys: System, w: nat, now: int, worker: Worker, c: Limits)
    requires Inv(sys) && w < |sys.workers|
    requires TokenOf(worker) == Some(sys.issued) && (worker.Holding? ==> worker.path == DELIVERY) && !worker.Writing?
    ensures Inv(System(TakeRow(sys.row, sys.issued, now, c), sys.clock, sys.workers[w := worker], sys.issued + 1))
  {
    TakeKeepsSound(sys.row, sys.issued, now, c);
    ReplaceKeepsApart(sys.workers, w, worker, sys.issued);
  }

  lemma SweepKeepsInv(sys: System, now: int, c: Limits)
    requires Inv(sys)
    ensures Inv(Next(sys, Sweep(now), c))
  {
    TakeKeepsSound(sys.row, sys.issued, now, c);
  }

  lemma WriteKeepsInv(sys: System, w: nat, c: Limits)
    requires Inv(sys)
    ensures Inv(Next(sys, Write(w), c))
  {
    if w < |sys.workers| && sys.workers[w].Writing? {
      WriteKeepsSound(sys.row, sys.issued, sys.workers[w].token, sys.workers[w].outcome, sys.clock, c);
      WorkersKeepInv(sys.(row := WriteRow(sys.row, sys.workers[w].token, sys.workers[w].outcome, sys.clock, c)), w, Gone);
    }
  }

  lemma DeliveryClaimKeepsInv(sys: System, w: nat, c: Limits)
    requires Inv(sys)
    ensures Inv(Next(sys, Claim(w), c))
  {
    if w < |sys.workers| && sys.workers[w].Started? {
      ClaimKeepsInv(sys, w, sys.clock, Holding(sys.issued, DELIVERY, sys.workers[w].initial), c);
      WorkersKeepInv(sys, w, Gone);
    }
  }

  lemma WorkerEventKeepsInv(sys: System, event: Event, c: Limits)
    requires Inv(sys) && (event.ReadCount? || event.Handle? || event.Crash?)
    ensures Inv(Next(sys, event, c))
  {
    if event.w < |sys.workers| { WorkersKeepInv(sys, event.w, Next(sys, event, c).workers[event.w]); }
  }

  lemma NextKeepsInv(sys: System, event: Event, c: Limits)
    requires Inv(sys)
    ensures Inv(Next(sys, event, c))
  {
    match event {
      case Tick(_) =>
      case Begin =>
      case Claim(w) => DeliveryClaimKeepsInv(sys, w, c);
      case Sweep(now) => SweepKeepsInv(sys, now, c);
      case Write(w) => WriteKeepsInv(sys, w, c);
      case _ => WorkerEventKeepsInv(sys, event, c);
    }
  }

  lemma {:induction false} RunsKeepInv(sys: System, events: seq<Event>, c: Limits)
    requires Initial(sys)
    ensures Inv(After(sys, events, c)) && After(sys, events, c).row.news == sys.row.news
  {
    if events != [] {
      RunsKeepInv(sys, events[..|events| - 1], c);
      NextKeepsInv(After(sys, events[..|events| - 1], c), events[|events| - 1], c);
    }
  }

  // ----- what every run keeps -----

  /** Every claim is accounted for, in every run: counted as an attempt or given back by a deferral. The row is
      being processed exactly while a claim is on it. */
  lemma EveryClaimIsCounted(sys: System, events: seq<Event>, c: Limits)
    requires Initial(sys)
    ensures var end := After(sys, events, c);
      && end.issued == end.row.attempts + end.row.deferred && end.row.attempts >= 0 && end.row.deferred >= 0
      && (end.row.status == PROCESSING <==> end.row.token.Some?)
      && (end.row.token.Some? <==> end.row.leaseUntil.Some?)
  {
    RunsKeepInv(sys, events, c);
  }

  /** A row nobody will ever touch again: it has its final answer, or its failures used up the limit. */
  predicate Settled(row: Row, c: Limits) {
    || row.status == PROCESSED || row.status == IGNORED || row.status == DEAD_LETTER
    || (row.status == FAILED && row.attempts >= c.maxAttempts)
  }

  lemma {:induction false} SettledIsForever(sys: System, events: seq<Event>, c: Limits)
    requires Inv(sys) && Settled(sys.row, c)
    ensures After(sys, events, c).row == sys.row && Inv(After(sys, events, c))
  {
    if events != [] {
      SettledIsForever(sys, events[..|events| - 1], c);
      NextKeepsInv(After(sys, events[..|events| - 1], c), events[|events| - 1], c);
    }
  }

  /** A failed row rests until its next attempt is due. */
  lemma {:induction false} FailedRowRests(sys: System, events: seq<Event>, due: int, c: Limits)
    requires Inv(sys) && sys.row.status == FAILED && sys.row.nextAttemptAt == Some(due)
    requires After(sys, events, c).clock < due
    ensures After(sys, events, c).row == sys.row && Inv(After(sys, events, c))
  {
    if events != [] {
      FailedRowRests(sys, events[..|events| - 1], due, c);
      NextKeepsInv(After(sys, events[..|events| - 1], c), events[|events| - 1], c);
    }
  }

  /** While a claim's lease runs, nobody but its holder changes the row: whatever the other workers do, the row
      is as the holder left it for as long as the holder is still at work. */
  lemma {:induction false} LeaseExcludesOthers(sys: System, events: seq<Event>, w: nat, c: Limits)
    requires Inv(sys) && w < |sys.workers| && TokenOf(sys.workers[w]).Some? && sys.row.token == TokenOf(sys.workers[w])
    requires After(sys, events, c).clock < sys.row.leaseUntil.value
    ensures var end := After(sys, events, c);
      && Inv(end) && w < |end.workers|
      && (end.workers[w].Gone? || (end.row == sys.row && TokenOf(end.workers[w]) == TokenOf(sys.workers[w])))
  {
    if events != [] {
      var before, e := After(sys, events[..|events| - 1], c), events[|events| - 1];
      LeaseExcludesOthers(sys, events[..|events| - 1], w, c);
      NextKeepsInv(before, e, c);
      if e.Write? && e.w < |before.workers| && e.w != w && before.workers[e.w].Writing? && !before.workers[w].Gone? {
        assert TokenOf(before.workers[e.w]) != TokenOf(before.workers[w]);
      }
    }
  }

  /** A claim that lost the row never gets it back, so its worker's outcome is never written. */
  lemma {:induction false} LostClaimsStayLost(sys: System, events: seq<Event>, token: nat, c: Limits)
    requires Inv(sys) && token < sys.issued && sys.row.token != Some(token)
    ensures var end := After(sys, events, c);
      && Inv(end) && token < end.issued && end.row.token != Some(token)
      && forall w :: 0 <= w < |end.workers| && TokenOf(end.workers[w]) == Some(token) ==> Next(end, Write(w), c).row == end.row
  {
    if events != [] {
      LostClaimsStayLost(sys, events[..|events| - 1], token, c);
      NextKeepsInv(After(sys, events[..|events| - 1], c), events[|events| - 1], c);
    }
  }

  // ----- one claim, one answer -----

  /** A stored event is claimed while attempts are left, at once when it is new and exactly from its due time after a
      failure; a claim that is not given up is taken over exactly from the end of its lease. */
  lemma ClaimableExactlyWhen(row: Row, now: int, c: Limits)
    ensures Eligible(row, now, c) <==> match row.status
      case RECEIVED => row.attempts < c.maxAttempts
      case FAILED => row.attempts < c.maxAttempts && (row.nextAttemptAt == None || now >= row.nextAttemptAt.value)
      case PROCESSING => row.leaseUntil != None && now >= row.leaseUntil.value
      case _ => false
  {
  }

  /** The row after a claim was handled and answered within its lease. */
  function Answered(row: Row, initial: int, finding: Finding, clock: int, c: Limits): Row {
    var free := row.(token := None, leaseUntil := None);
    if row.news == MALFORMED then free.(status := DEAD_LETTER)
    else match finding
      case NoSettlement => free.(status := IGNORED)
      case Settlement(successful, applied) =>
        if row.news == UNSUPPORTED then row
        else if row.news == REVERSING && !successful
        then free.(status := FAILED, attempts := row.attempts - 1, deferred := row.deferred + 1, nextAttemptAt := Some(clock + 60_000))
        else if applied then free.(status := PROCESSED, nextAttemptAt := None)
        else if initial + 1 >= c.maxAttempts then free.(status := DEAD_LETTER, nextAttemptAt := None)
        else free.(status := FAILED, nextAttemptAt := Some(clock + RetryDelay(initial + 1)))
  }

  /** A worker that still holds the row when it handles the event leaves exactly the answer of its finding; one whose
      claim or lease is gone leaves the row alone. */
  lemma ClaimIsAnswered(sys: System, w: nat, finding: Finding, c: Limits)
    requires w < |sys.workers| && sys.workers[w].Holding?
    ensures var worker := sys.workers[w];
      var held := sys.row.token == Some(worker.token) && sys.row.leaseUntil.Some? && sys.clock < sys.row.leaseUntil.value;
      Next(Next(sys, Handle(w, finding), c), Write(w), c).row
        == if held then Answered(sys.row, worker.initial, finding, sys.clock, c) else sys.row
  {
  }

  // ----- the attempt limit -----

  /** The worker at `w` still owns the row and is about to report that handling failed. */
  predicate Reporting(sys: System, w: nat) {
    w < |sys.workers| && sys.workers[w].Writing? && sys.workers[w].outcome.FAULT? && sys.row.token == Some(sys.workers[w].token)
  }

  /** On the recovery path the limit bites one attempt early, in every run: the count was read after the claim
      had already raised it. */
  lemma RecoveryGivesUpOneEarly(sys: System, events: seq<Event>, w: nat, c: Limits)
    requires Initial(sys) && Reporting(After(sys, events, c), w) && After(sys, events, c).workers[w].path == RECOVERY
    ensures var end := After(sys, events, c);
      Next(end, Write(w), c).row.status == if end.row.attempts + 1 >= c.maxAttempts then DEAD_LETTER else FAILED
  {
    RunsKeepInv(sys, events, c);
    var end := After(sys, events, c);
    assert WorkerSound(end.row, end.issued, end.workers[w]);
  }

  /** So with a limit of two, one failed recovery is final. */
  lemma OneFailedRecoveryIsFinal()
    ensures var row := After(System(Row(OTHER, RECEIVED, 0, 0, None, None, None), 0, [], 0),
              [Sweep(0), ReadCount(0), Handle(0, Settlement(false, false)), Write(0)], Limits(2, 30_000)).row;
            row.status == DEAD_LETTER && row.attempts == 1
  {
    var c := Limits(2, 30_000);
    var s0 := System(Row(OTHER, RECEIVED, 0, 0, None, None, None), 0, [], 0);
    var s1 := Next(s0, Sweep(0), c);
    var s2 := Next(s1, ReadCount(0), c);
    var s3 := Next(s2, Handle(0, Settlement(false, false)), c);
    assert s3.workers == [Writing(0, RECOVERY, FAULT(1))];
    FourSteps(s0, Sweep(0), ReadCount(0), Handle(0, Settlement(false, false)), Write(0), c);
  }

  lemma FourSteps(sys: System, a: Event, b: Event, d: Event, e: Event, c: Limits)
    ensures After(sys, [a, b, d, e], c) == Next(Next(Next(Next(sys, a, c), b, c), d, c), e, c)
  {
    assert [a, b, d, e][..3] == [a, b, d] && [a, b, d][..2] == [a, b] && [a, b][..1] == [a] && [a][..0] == [];
    assert After(sys, [a], c) == Next(sys, a, c);
    assert After(sys, [a, b], c) == Next(Next(sys, a, c), b, c);
    assert After(sys, [a, b, d], c) == Next(Next(Next(sys, a, c), b, c), d, c);
  }

  /** The two ways the attempt count can run away from its limit: a delivery that claims with an outdated count,
      and a takeover of a row that already used up its attempts. */
  predicate Careful(sys: System, event: Event, c: Limits) {
    match event
    case Claim(w) =>
      w < |sys.workers| && sys.workers[w].Started? && Eligible(sys.row, sys.clock, c) ==>
        sys.workers[w].initial == sys.row.attempts && sys.row.attempts < c.maxAttempts
    case Sweep(now) => now <= sys.clock && Eligible(sys.row, now, c) ==> sys.row.attempts < c.maxAttempts
    case _ => true
  }

  predicate EveryStepCareful(sys: System, events: seq<Event>, c: Limits) {
    events != [] ==>
      EveryStepCareful(sys, events[..|events| - 1], c) && Careful(After(sys, events[..|events| - 1], c), events[|events| - 1], c)
  }

  predicate CountCurrent(row: Row, worker: Worker) {
    && (worker.Holding? && worker.path == DELIVERY && row.token == Some(worker.token) ==> worker.initial + 1 == row.attempts)
    && (worker.Writing? && worker.path == DELIVERY && worker.outcome.FAULT? && row.token == Some(worker.token)
        ==> worker.outcome.initial + 1 == row.attempts)
  }

  predicate WithinLimit(sys: System, c: Limits) {
    && (sys.row.status == PROCESSING ==> sys.row.attempts <= c.maxAttempts)
    && (sys.row.status == FAILED ==> sys.row.attempts < c.maxAttempts)
    && forall w :: 0 <= w < |sys.workers| ==> CountCurrent(sys.row, sys.workers[w])
  }

  lemma CarefulStepKeepsLimit(sys: System, event: Event, c: Limits)
    requires Inv(sys) && WithinLimit(sys, c) && Careful(sys, event, c)
    ensures WithinLimit(Next(sys, event, c), c)
  {
    if event.Write? && event.w < |sys.workers| {
      assert WorkerSound(sys.row, sys.issued, sys.workers[event.w]) && CountCurrent(sys.row, sys.workers[event.w]);
    }
    if event.Claim? || event.Sweep? {
      assert forall w :: 0 <= w < |sys.workers| ==> WorkerSound(sys.row, sys.issued, sys.workers[w]);
    }
  }

  /** In every run of careful steps a failed row can still be claimed, and a delivery's failure is final exactly
      when the last allowed attempt is used. */
  lemma {:induction false} FailedStaysBelowLimit(sys: System, events: seq<Event>, c: Limits)
    requires Initial(sys) && EveryStepCareful(sys, events, c)
    ensures var end := After(sys, events, c);
      && WithinLimit(end, c)
      && forall w: nat :: Reporting(end, w) && end.workers[w].path == DELIVERY ==>
           Next(end, Write(w), c).row.status == if end.row.attempts >= c.maxAttempts then DEAD_LETTER else FAILED
  {
    if events != [] {
      var before := After(sys, events[..|events| - 1], c);
      FailedStaysBelowLimit(sys, events[..|events| - 1], c);
      RunsKeepInv(sys, events[..|events| - 1], c);
      CarefulStepKeepsLimit(before, events[|events| - 1], c);
    }
    var end := After(sys, events, c);
    forall w: nat | Reporting(end, w) && end.workers[w].path == DELIVERY
      ensures Next(end, Write(w), c).row.status == if end.row.attempts >= c.maxAttempts then DEAD_LETTER else FAILED
    {
      assert CountCurrent(end.row, end.workers[w]);
    }
  }

  /** Exactly which outcomes strand a row as failed with no attempt left: a reversal put back after a takeover
      past the limit, or a failure judged by a count that was below the limit when the real one was not. */
  lemma StrandedExactlyWhen(sys: System, w: nat, c: Limits)
    requires Inv(sys) && w < |sys.workers| && sys.workers[w].Writing? && sys.row.token == Some(sys.workers[w].token)
    ensures var row, outcome := Next(sys, Write(w), c).row, sys.workers[w].outcome;
      row.status == FAILED && row.attempts >= c.maxAttempts <==>
        || (outcome.DEFER? && sys.row.attempts > c.maxAttempts)
        || (outcome.FAULT? && outcome.initial + 1 < c.maxAttempts <= sys.row.attempts)
  {
  }

  /** A delivery that read the count before others used up all attempts but one, claims the last one and fails:
      the row is left failed, beyond claiming, and never dead-lettered. */
  lemma OutdatedCountStrands(sys: System, w: nat, c: Limits)
    requires Inv(sys) && w < |sys.workers| && sys.workers[w].Started? && sys.row.news == OTHER && c.leaseMs > 0
    requires Eligible(sys.row, sys.clock, c) && sys.workers[w].initial + 1 < c.maxAttempts == sys.row.attempts + 1
    ensures var end := Next(Next(Next(sys, Claim(w), c), Handle(w, Settlement(false, false)), c), Write(w), c);
      end.row.status == FAILED && end.row.attempts == c.maxAttempts && Settled(end.row, c)
  {
    var initial := sys.workers[w].initial;
    var a := Next(sys, Claim(w), c);
    assert a.workers[w] == Holding(sys.issued, DELIVERY, initial) && a.row == TakeRow(sys.row, sys.issued, sys.clock, c);
    var b := Next(a, Handle(w, Settlement(false, false)), c);
    assert b.workers[w] == Writing(sys.issued, DELIVERY, FAULT(initial)) && b.row == a.row;
  }

  /** Two deliveries of one event and a limit of two are enough to get there. */
  lemma OutdatedCountHappens(start: System)
    requires start == System(Row(OTHER, RECEIVED, 0, 0, None, None, None), 0, [], 0)
    ensures var c := Limits(2, 30_000);
      var s := Next(Next(start, Begin, c), Begin, c);
      Next(Next(Next(Next(s, Claim(1), c), Handle(1, Settlement(false, false)), c), Write(1), c), Tick(30_000), c)
        == System(Row(OTHER, FAILED, 1, 0, Some(30_000), None, None), 30_000, [Started(0), Gone], 1)
  {
    var c := Limits(2, 30_000);
    var s := Next(Next(start, Begin, c), Begin, c);
    assert s.workers == [Started(0), Started(0)];
    var a := Next(s, Claim(1), c);
    assert a == System(Row(OTHER, PROCESSING, 1, 0, None, Some(0), Some(30_000)), 0, [Started(0), Holding(0, DELIVERY, 0)], 1);
    var b := Next(a, Handle(1, Settlement(false, false)), c);
    assert b == a.(workers := [Started(0), Writing(0, DELIVERY, FAULT(0))]);
    assert RetryDelay(1) == 30_000;
  }

  // ----- an undocumented status -----

  /** Handling once found no settlement for the event. */
  predicate Missed(events: seq<Event>) {
    exists k :: 0 <= k < |events| && events[k].Handle? && events[k].finding.NoSettlement?
  }

  predicate Unanswered(row: Row, missed: bool) {
    (row.status == RECEIVED || row.status == PROCESSING || (row.status == IGNORED && missed)) && row.deferred == 0
  }

  /** Without a missing settlement no worker ever gets as far as an outcome. */
  predicate NothingDecided(sys: System, missed: bool) {
    Unanswered(sys.row, missed) && forall w :: 0 <= w < |sys.workers| && sys.workers[w].Writing? ==> missed
  }

  lemma ClaimDecidesNothing(sys: System, w: nat, missed: bool, c: Limits)
    requires NothingDecided(sys, missed)
    ensures NothingDecided(Next(sys, Claim(w), c), missed)
  {
  }

  lemma SweepDecidesNothing(sys: System, now: int, missed: bool, c: Limits)
    requires NothingDecided(sys, missed)
    ensures NothingDecided(Next(sys, Sweep(now), c), missed)
  {
  }

  lemma HandleDecidesNothing(sys: System, w: nat, finding: Finding, missed: bool, c: Limits)
    requires sys.row.news == UNSUPPORTED && NothingDecided(sys, missed)
    ensures NothingDecided(Next(sys, Handle(w, finding), c), missed || finding.NoSettlement?)
  {
  }

  lemma WriteDecidesNothing(sys: System, w: nat, missed: bool, c: Limits)
    requires Inv(sys) && sys.row.news == UNSUPPORTED && NothingDecided(sys, missed)
    ensures NothingDecided(Next(sys, Write(w), c), missed)
  {
    if w < |sys.workers| { assert WorkerSound(sys.row, sys.issued, sys.workers[w]); }
  }

  lemma OtherDecidesNothing(sys: System, event: Event, missed: bool, c: Limits)
    requires (event.Tick? || event.Begin? || event.ReadCount? || event.Crash?) && NothingDecided(sys, missed)
    ensures NothingDecided(Next(sys, event, c), missed)
  {
  }

  lemma UnsupportedStep(sys: System, event: Event, missed: bool, c: Limits)
    requires Inv(sys) && sys.row.news == UNSUPPORTED && NothingDecided(sys, missed)
    ensures NothingDecided(Next(sys, event, c), missed || (event.Handle? && event.finding.NoSettlement?))
  {
    match event {
      case Claim(w) => ClaimDecidesNothing(sys, w, missed, c);
      case Sweep(now) => SweepDecidesNothing(sys, now, missed, c);
      case Handle(w, finding) => HandleDecidesNothing(sys, w, finding, missed, c);
      case Write(w) => WriteDecidesNothing(sys, w, missed, c);
      case _ => OtherDecidesNothing(sys, event, missed, c);
    }
  }

  lemma MissedSnoc(events: seq<Event>)
    requires events != []
    ensures var e := events[|events| - 1];
      Missed(events) <==> Missed(events[..|events| - 1]) || (e.Handle? && e.finding.NoSettlement?)
  {
    var n := |events| - 1;
    if Missed(events[..n]) {
      var k :| 0 <= k < n && events[..n][k].Handle? && events[..n][k].finding.NoSettlement?;
      assert events[k] == events[..n][k];
    }
    if Missed(events) {
      var k :| 0 <= k < |events| && events[k].Handle? && events[k].finding.NoSettlement?;
      if k < n { assert events[..n][k] == events[k]; }
    }
  }

  lemma {:induction false} UnsupportedRun(sys: System, events: seq<Event>, c: Limits)
    requires Initial(sys) && sys.row.news == UNSUPPORTED
    ensures NothingDecided(After(sys, events, c), Missed(events))
  {
    if events != [] {
      var past := events[..|events| - 1];
      UnsupportedRun(sys, past, c);
      RunsKeepInv(sys, past, c);
      UnsupportedStep(After(sys, past, c), events[|events| - 1], Missed(past), c);
      MissedSnoc(events);
    }
  }

  /** An event whose status the provider does not document is ignored only after handling found no settlement for it;
      otherwise it never gets an answer: the error escapes before the claim is given up, so the row stays claimed
      and every expired lease hands it to the next worker, however many attempts were used. */
  lemma UnsupportedStatusNeverEnds(sys: System, events: seq<Event>, c: Limits)
    requires Initial(sys) && sys.row.news == UNSUPPORTED
    ensures var row := After(sys, events, c).row;
      && (row.status == RECEIVED || row.status == PROCESSING || (row.status == IGNORED && Missed(events))) && row.deferred == 0
      && (row.status == PROCESSING ==> row.leaseUntil.Some? && Eligible(row, row.leaseUntil.value, c))
  {
    UnsupportedRun(sys, events, c);
    RunsKeepInv(sys, events, c);
  }
}
