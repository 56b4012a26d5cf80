/** private-file-migration.ts: moving one file from a public store to a private one. Every await is one step; it
    may succeed, throw (before or after taking effect), or never return because the process died. One worker
    handles a migration at a time, and writing an object replaces what its key held. */
module FileMigration {

  /** What the owning record points to; ELSEWHERE is a file someone put there meanwhile. */
  datatype Reference = SOURCE | DESTINATION | ELSEWHERE

  datatype Status = PENDING | PROCESSING | COMPLETED | CLEANUP_REQUIRED | FAILED

  /** The await a worker is at: the try block, its handler, and the cleanup pass. */
  datatype Point =
    | Idle
    | Reading | Writing | Recording | Rereading | Switching | Deleting | Completing | Flagging
    | Catching | Undoing | Forgetting | Failing
    | Cleaning | Closing

  /** `recorded` says the row names its destination; `source` and `destination` say which objects exist. */
  datatype File = File(
    owner: Reference, status: Status, recorded: bool, source: bool, destination: bool,
    attempts: nat, uploads: nat, at: Point)

  datatype Response = Done | Threw(applied: bool) | Crashed

  datatype Event = Claim | Respond(r: Response) | Recover | CleanUp | Replace

  function Step(f: File, r: Response): File {
    if r.Crashed? then f.(at := Idle)
    else
      var took := r.Done? || r.applied;
      match f.at
      case Idle => f
      case Reading => f.(at := if r.Done? && f.source then Writing else Catching)
      case Writing => f.(destination := f.destination || took, uploads := f.uploads + 1, at := if r.Done? then Recording else Catching)
      case Recording => f.(recorded := f.recorded || took, at := if r.Done? then Rereading else Catching)
      case Rereading => f.(at := if r.Done? then Switching else Catching)
      case Switching =>
        f.(owner := if took && f.owner != ELSEWHERE then DESTINATION else f.owner,
           at := if r.Done? && f.owner != ELSEWHERE then Deleting else Catching)
      case Deleting => f.(source := f.source && !took, at := if r.Done? then Completing else Flagging)
      case Completing => f.(status := if took then COMPLETED else f.status, at := if r.Done? then Idle else Catching)
      case Flagging => f.(status := if took then CLEANUP_REQUIRED else f.status, at := if r.Done? then Idle else Catching)
      case Catching => f.(at := if r.Threw? then Idle else if f.recorded then Undoing else Failing)
      case Undoing => f.(destination := f.destination && !took, at := Forgetting)
      case Forgetting => f.(recorded := f.recorded && !took, at := if r.Done? then Failing else Idle)
      case Failing => f.(status := if took then FAILED else f.status, at := Idle)
      case Cleaning => f.(source := f.source && !took, at := if r.Done? then Closing else Idle)
      case Closing => f.(status := if took then COMPLETED else f.status, at := Idle)
  }

  predicate Claimable(f: File) {
    f.at == Idle && (f.status == PENDING || f.status == FAILED)
  }

  function ClaimFile(f: File): File {
    f.(status := PROCESSING, attempts := f.attempts + 1, at := if f.recorded then Rereading else Reading)
  }

  function Next(f: File, event: Event): File {
    match event
    case Claim => if Claimable(f) then ClaimFile(f) else f
    case Respond(r) => Step(f, r)
    case Recover => if f.at == Idle && f.status == PROCESSING then f.(status := PENDING) else f
    case CleanUp => if f.at == Idle && f.status == CLEANUP_REQUIRED then f.(at := Cleaning) else f
    case Replace => f.(owner := ELSEWHERE)
  }

  function After(f: File, events: seq<Event>): File {
    if events == [] then f else Next(After(f, events[..|events| - 1]), events[|events| - 1])
  }

  predicate Initial(f: File) {
    f.owner == SOURCE && f.status == PENDING && !f.recorded && f.source && f.at == Idle
  }

  /** A claim takes exactly an idle row that is pending or failed, counts the attempt and goes straight to the recorded
      destination when there is one; the sweep puts a row back that a dead worker left processing; the cleanup pass takes
      exactly the rows whose source is left to delete. */
  lemma EventsActExactlyWhen(f: File)
    ensures Next(f, Claim) == if f.at == Idle && f.status in [PENDING, FAILED]
                              then f.(status := PROCESSING, attempts := f.attempts + 1, at := if f.recorded then Rereading else Reading) else f
    ensures Next(f, Recover) == if f.at == Idle && f.status == PROCESSING then f.(status := PENDING) else f
    ensures Next(f, CleanUp) == if f.at == Idle && f.status == CLEANUP_REQUIRED then f.(at := Cleaning) else f
  {
  }

  // ----- safety -----

  /** The owning record names an object that exists. */
  predicate Safe(f: File) {
    (f.owner == SOURCE ==> f.source) && (f.owner == DESTINATION ==> f.destination)
  }

  predicate InHandler(at: Point) {
    at == Catching || at == Undoing || at == Forgetting || at == Failing
  }

  /** The awaits whose error the handler catches. */
  predicate Guarded(at: Point) {
    at == Reading || at == Writing || at == Recording || at == Rereading || at == Switching || at == Completing || at == Flagging
  }

  predicate Good(f: File) {
    && Safe(f)
    && (f.owner == DESTINATION ==> f.recorded && !InHandler(f.at))
    && (f.recorded ==> f.destination || f.at == Forgetting)
    && (f.at == Reading || f.at == Writing || f.at == Recording || f.at == Failing ==> !f.recorded)
    && (f.at == Rereading || f.at == Switching || f.at == Undoing ==> f.recorded)
    && (f.at == Recording ==> f.destination)
    && (f.at == Deleting || f.at == Completing || f.at == Flagging ==> f.recorded && f.owner != SOURCE)
    && (f.at == Cleaning || f.at == Closing || f.status == CLEANUP_REQUIRED ==> f.owner != SOURCE)
  }

  /** The two kinds of fault the code does not survive: an error caught while the owner already names the
      destination, and a handler cut short between deleting the destination and forgetting it. */
  predicate Harmful(f: File, r: Response) {
    || (r.Threw? && Guarded(f.at) && Step(f, r).owner == DESTINATION)
    || (f.at == Forgetting && !f.destination && Step(f, r).recorded)
  }

  predicate Survivable(f: File, event: Event) {
    event.Respond? ==> !Harmful(f, event.r)
  }

  lemma NextKeepsGood(f: File, event: Event)
    requires Good(f) && Survivable(f, event)
    ensures Good(Next(f, event))
  {
  }

  predicate EveryFaultSurvivable(f: File, events: seq<Event>) {
    events != [] ==>
      EveryFaultSurvivable(f, events[..|events| - 1]) && Survivable(After(f, events[..|events| - 1]), events[|events| - 1])
  }

  /** Through any number of attempts, crashes, errors, failed deletions, cleanup passes and replacements, as long
      as neither harmful fault strikes, the owner always names an object that exists. */
  lemma {:induction false} OwnerNamesALiveObject(f: File, events: seq<Event>)
    requires Initial(f) && EveryFaultSurvivable(f, events)
    ensures Good(After(f, events)) && Safe(After(f, events))
  {
    if events != [] {
      OwnerNamesALiveObject(f, events[..|events| - 1]);
      NextKeepsGood(After(f, events[..|events| - 1]), events[|events| - 1]);
    }
  }

  /** A process that may die between any two awaits of the try block or of the cleanup pass, and a source deletion
      that may fail; nothing else goes wrong. */
  predicate CrashOnly(f: File, event: Event) {
    event.Respond? ==>
      event.r.Done? || (event.r.Crashed? && !InHandler(f.at)) || (event.r.Threw? && (f.at == Deleting || f.at == Cleaning))
  }

  predicate EveryStepCrashOnly(f: File, events: seq<Event>) {
    events != [] ==>
      EveryStepCrashOnly(f, events[..|events| - 1]) && CrashOnly(After(f, events[..|events| - 1]), events[|events| - 1])
  }

  /** Crashes alone never lose a file. */
  lemma {:induction false} CrashesLoseNothing(f: File, events: seq<Event>)
    requires Initial(f) && EveryStepCrashOnly(f, events)
    ensures EveryFaultSurvivable(f, events) && Good(After(f, events)) && Safe(After(f, events))
  {
    if events != [] {
      CrashesLoseNothing(f, events[..|events| - 1]);
      assert Survivable(After(f, events[..|events| - 1]), events[|events| - 1]);
      NextKeepsGood(After(f, events[..|events| - 1]), events[|events| - 1]);
    }
  }

  /** The destination is recorded, the handler is not running and the owner still is this file's. */
  predicate Uploaded(f: File) {
    Good(f) && f.recorded && !InHandler(f.at) && f.owner != ELSEWHERE
  }

  lemma StepStaysUploaded(f: File, event: Event)
    requires Uploaded(f) && CrashOnly(f, event) && event != Replace
    ensures Uploaded(Next(f, event)) && Next(f, event).uploads == f.uploads
  {
    NextKeepsGood(f, event);
  }

  /** Once the destination is recorded, no rerun uploads again while the owner still is this file's. */
  lemma {:induction false} RecordedIsNeverUploadedAgain(f: File, events: seq<Event>)
    requires Uploaded(f) && EveryStepCrashOnly(f, events) && forall k :: 0 <= k < |events| ==> events[k] != Replace
    ensures Uploaded(After(f, events)) && After(f, events).uploads == f.uploads
  {
    if events != [] {
      RecordedIsNeverUploadedAgain(f, events[..|events| - 1]);
      assert events[|events| - 1] != Replace;
      StepStaysUploaded(After(f, events[..|events| - 1]), events[|events| - 1]);
    }
  }

  // ----- completion -----

  function Rank(at: Point): nat {
    match at
    case Idle => 0
    case Failing => 1
    case Closing => 1
    case Forgetting => 2
    case Cleaning => 2
    case Undoing => 3
    case Catching => 4
    case Flagging => 5
    case Completing => 6
    case Deleting => 7
    case Switching => 8
    case Rereading => 9
    case Recording => 10
    case Writing => 11
    case Reading => 12
  }

  /** The attempt under way, carried on without a fault. */
  function Settle(f: File): File
    decreases Rank(f.at)
  {
    if f.at == Idle then f else Settle(Step(f, Done))
  }

  /** An attempt that meets no fault completes the migration, wherever earlier attempts stopped; if the owner was
      changed meanwhile, it gives up, leaves the owner alone and takes its copy away. */
  lemma FaultFreeAttemptFinishes(f: File)
    requires Good(f) && Claimable(f)
    ensures var end := Settle(ClaimFile(f));
      && Good(end) && end.at == Idle && end.attempts == f.attempts + 1
      && (f.owner != ELSEWHERE ==>
            end.status == COMPLETED && end.owner == DESTINATION && end.destination && !end.source
            && end.uploads == f.uploads + if f.recorded then 0 else 1)
      && (f.owner == ELSEWHERE ==> end.status == FAILED && end.owner == ELSEWHERE && !end.recorded && end.source == f.source)
  {
    var r := ClaimFile(f);
    if f.recorded {
      FromRereading(r);
    } else if f.source {
      var recorded := Step(Step(Step(r, Done), Done), Done);
      assert recorded == r.(destination := true, uploads := r.uploads + 1, recorded := true, at := Rereading);
      FromRereading(recorded);
      assert Settle(r) == Settle(recorded) by {
        assert Settle(r) == Settle(Step(r, Done));
        assert Settle(Step(r, Done)) == Settle(Step(Step(r, Done), Done));
      }
    } else {
      assert f.owner == ELSEWHERE;
      var c := Step(r, Done);
      assert c.at == Catching && Settle(r) == Settle(c);
      FromCatching(c);
    }
  }

  lemma FromRereading(f: File)
    requires f.at == Rereading && f.recorded
    ensures f.owner != ELSEWHERE ==> Settle(f) == f.(owner := DESTINATION, source := false, status := COMPLETED, at := Idle)
    ensures f.owner == ELSEWHERE ==> Settle(f) == f.(destination := false, recorded := false, status := FAILED, at := Idle)
  {
    var b := Step(f, Done);
    var c := Step(b, Done);
    assert Settle(f) == Settle(b) && Settle(b) == Settle(c);
    if f.owner == ELSEWHERE {
      FromCatching(c);
    } else {
      var d := Step(c, Done);
      var e := Step(d, Done);
      assert Settle(c) == Settle(d) && Settle(d) == Settle(e) && e.at == Idle;
    }
  }

  /** The handler, uninterrupted: it deletes the recorded destination, forgets it and marks the row failed. */
  lemma FromCatching(f: File)
    requires f.at == Catching
    ensures Settle(f) == f.(destination := f.destination && !f.recorded, recorded := false, status := FAILED, at := Idle)
  {
    var b := Step(f, Done);
    var c := Step(b, Done);
    assert Settle(f) == Settle(b) && Settle(b) == Settle(c);
    if f.recorded {
      var d := Step(c, Done);
      var e := Step(d, Done);
      assert Settle(c) == Settle(d) && Settle(d) == Settle(e) && e.at == Idle;
    }
  }

  /** A cleanup pass that meets no fault completes a migration whose source could not be deleted before. */
  lemma FaultFreeCleanupFinishes(f: File)
    requires Good(f) && f.at == Idle && f.status == CLEANUP_REQUIRED
    ensures var end := Settle(Next(f, CleanUp));
      Good(end) && end == f.(source := false, status := COMPLETED)
  {
    var a := Next(f, CleanUp);
    var b := Step(a, Done);
    assert Settle(a) == Settle(b) && Settle(b) == Settle(Step(b, Done));
  }

  /** Whatever goes wrong in a run, a row that reads COMPLETED has lost its source and is not owned by it, so nothing is
      called done that the cleanup did not finish. */
  lemma {:induction false} CompletedMeansMoved(f: File, events: seq<Event>)
    requires Initial(f)
    ensures Finishing(After(f, events))
    ensures After(f, events).status == COMPLETED ==> !After(f, events).source && After(f, events).owner != SOURCE
  {
    if events != [] {
      CompletedMeansMoved(f, events[..|events| - 1]);
      NextKeepsFinishing(After(f, events[..|events| - 1]), events[|events| - 1]);
    }
  }

  /** The await stands behind the switch of the owner. */
  predicate Switched(at: Point) {
    at == Deleting || at == Completing || at == Flagging || at == Cleaning || at == Closing
  }

  predicate Finishing(f: File) {
    && (f.status == COMPLETED || f.at == Completing || f.at == Closing ==> !f.source)
    && (f.status == COMPLETED || f.status == CLEANUP_REQUIRED || Switched(f.at) ==> f.owner != SOURCE)
  }

  lemma NextKeepsFinishing(f: File, event: Event)
    requires Finishing(f)
    ensures Finishing(Next(f, event))
  {
  }

  /** A source that could not be deleted leaves the row for the cleanup pass, with the owner already on its new file. */
  lemma FailedDeletionIsFlagged(f: File, applied: bool)
    requires f.at == Deleting
    ensures Settle(Step(f, Threw(applied))) == f.(source := f.source && !applied, status := CLEANUP_REQUIRED, at := Idle)
  {
    var b := Step(f, Threw(applied));
    assert Settle(b) == Settle(Step(b, Done));
  }

  /** An error at any other await of the try block ends with the row FAILED and no destination recorded: a recorded copy
      is deleted, one that was written but not yet recorded is left behind, and the source is untouched. */
  lemma CaughtErrorEnds(f: File, applied: bool)
    requires Good(f) && Guarded(f.at)
    ensures Settle(Step(f, Threw(applied))) == f.(
      status := FAILED, recorded := false, at := Idle,
      uploads := if f.at == Writing then f.uploads + 1 else f.uploads,
      owner := if f.at == Switching && applied && f.owner != ELSEWHERE then DESTINATION else f.owner,
      destination := match f.at
        case Reading => f.destination
        case Writing => f.destination || applied
        case Recording => !applied
        case _ => false)
  {
    FromCatching(Step(f, Threw(applied)));
  }

  // ----- exactly when the handler is unsafe -----

  /** When an error is caught and the handler runs to its end, the owner keeps a live object exactly when it does
      not name the destination by then. */
  lemma HandlerIsSafeExactlyWhen(f: File, applied: bool)
    requires Good(f) && Guarded(f.at)
    ensures var caught := Step(f, Threw(applied));
      && caught.at == Catching
      && (Safe(Settle(caught)) <==> caught.owner != DESTINATION)
  {
    FromCatching(Step(f, Threw(applied)));
  }

  /** So an error in the very last update loses the file: the source is gone and the handler deletes the copy. */
  lemma LateErrorLosesTheFile(f: File)
    requires Initial(f)
    ensures var late := Next(f, Claim);
      var ready := Step(Step(Step(Step(Step(Step(late, Done), Done), Done), Done), Done), Done);
      && ready.at == Completing && Good(ready)
      && forall applied :: var end := Settle(Step(ready, Threw(applied)));
           end.owner == DESTINATION && !end.destination && !end.source && end.status == FAILED
  {
    var a := Next(f, Claim);
    var b := Step(Step(Step(a, Done), Done), Done);
    assert b == f.(status := PROCESSING, attempts := f.attempts + 1, uploads := f.uploads + 1, recorded := true, destination := true, at := Rereading);
    var ready := Step(Step(Step(b, Done), Done), Done);
    assert ready == b.(owner := DESTINATION, source := false, at := Completing);
    forall applied ensures var end := Settle(Step(ready, Threw(applied)));
      end.owner == DESTINATION && !end.destination && !end.source && end.status == FAILED
    {
      FromCatching(Step(ready, Threw(applied)));
    }
  }

  /** A handler cut short after deleting the destination leaves a row that still names it. The next attempt, even
      without a fault, then keeps the owner safe exactly when the owner was changed meanwhile. */
  lemma CutShortHandlerIsSafeExactlyWhen(f: File)
    requires Good(f) && f.at == Forgetting && f.recorded && !f.destination
    ensures var again := Next(Next(Step(f, Crashed), Recover), Claim);
      f.status == PROCESSING ==> (Safe(Settle(again)) <==> f.owner == ELSEWHERE)
  {
    if f.status == PROCESSING {
      var again := Next(Next(Step(f, Crashed), Recover), Claim);
      assert again == f.(attempts := f.attempts + 1, at := Rereading);
      FromRereading(again);
    }
  }

  // ----- the batch -----

  /** How one attempt ended for the caller: an error inside the handler, like a crash, ends the whole batch. */
  datatype Ending = Finished | Unfinished | Broken

  /** What the caller counts when an attempt stops at this await. */
  function EndingAt(at: Point, r: Response): Ending {
    if r.Done? && at == Completing then Finished
    else if r.Done? && (at == Flagging || at == Failing) then Unfinished
    else Broken
  }

  /** An attempt under a script of responses; a script that runs out is a crash. */
  function Attempt(f: File, script: seq<Response>): (File, Ending)
    requires f.at != Idle
    decreases |script|
  {
    if script == [] then (f.(at := Idle), Broken)
    else
      var g := Step(f, script[0]);
      if g.at != Idle then Attempt(g, script[1..])
      else (g, EndingAt(f.at, script[0]))
  }

  /** An attempt is a run of the step machine. */
  lemma {:induction false} AttemptIsARun(f: File, script: seq<Response>) returns (events: seq<Event>)
    requires f.at != Idle
    ensures After(f, events) == Attempt(f, script).0
    ensures forall k :: 0 <= k < |events| ==> events[k].Respond?
    decreases |script|
  {
    if script == [] {
      events := [Respond(Crashed)];
      assert After(f, events[..0]) == f;
    } else {
      var g := Step(f, script[0]);
      if g.at != Idle {
        var rest := AttemptIsARun(g, script[1..]);
        events := [Respond(script[0])] + rest;
        RunFrom(f, Respond(script[0]), rest);
      } else {
        events := [Respond(script[0])];
        assert After(f, events[..0]) == f;
      }
    }
  }

  lemma {:induction false} RunFrom(f: File, first: Event, rest: seq<Event>)
    ensures After(f, [first] + rest) == After(Next(f, first), rest)
  {
    if rest == [] {
      assert ([first] + rest)[..0] == [];
    } else {
      assert ([first] + rest)[..|rest|] == [first] + rest[..|rest| - 1];
      RunFrom(f, first, rest[..|rest| - 1]);
    }
  }

  /** What the endings mean for the row. */
  lemma {:induction false} EndingTells(f: File, script: seq<Response>)
    requires f.at != Idle && f.at != Cleaning && f.at != Closing
    ensures var (g, ending) := Attempt(f, script);
      && g.at == Idle
      && (ending == Finished ==> g.status == COMPLETED)
      && (ending == Unfinished ==> g.status == CLEANUP_REQUIRED || g.status == FAILED)
    decreases |script|
  {
    if script != [] && Step(f, script[0]).at != Idle { EndingTells(Step(f, script[0]), script[1..]); }
  }

  class Migrator {
    var owner: Reference
    var status: Status
    var recorded: bool
    var source: bool
    var destination: bool
    var attempts: nat
    var uploads: nat

    function View(at: Point): File
      reads this
    {
      File(owner, status, recorded, source, destination, attempts, uploads, at)
    }

    constructor ()
      ensures Initial(View(Idle)) && attempts == 0 && uploads == 0 && !destination
    {
      owner, status, recorded, source, destination := SOURCE, PENDING, false, true, false;
      attempts, uploads := 0, 0;
    }

    /** One awaited call: its effect on the rows and the objects, and where control goes next. */
    method Await(at: Point, r: Response) returns (next: Point)
      modifies this
      ensures View(next) == Step(old(View(at)), r)
    {
      if r.Crashed? { return Idle; }
      var took := r.Done? || r.applied;
      match at
      case Idle => next := Idle;
      case Reading => next := if r.Done? && source then Writing else Catching;
      case Writing =>
        if took { destination := true; }
        uploads := uploads + 1;
        next := if r.Done? then Recording else Catching;
      case Recording =>
        if took { recorded := true; }
        next := if r.Done? then Rereading else Catching;
      case Rereading => next := if r.Done? then Switching else Catching;
      case Switching =>
        var count := if owner == SOURCE || owner == DESTINATION then 1 else 0;
        if took && count == 1 { owner := DESTINATION; }
        next := if r.Done? && count == 1 then Deleting else Catching;
      case Deleting =>
        if took { source := false; }
        next := if r.Done? then Completing else Flagging;
      case Completing =>
        if took { status := COMPLETED; }
        next := if r.Done? then Idle else Catching;
      case Flagging =>
        if took { status := CLEANUP_REQUIRED; }
        next := if r.Done? then Idle else Catching;
      case Catching => next := if r.Threw? then Idle else if recorded then Undoing else Failing;
      case Undoing =>
        if took { destination := false; }
        next := Forgetting;
      case Forgetting =>
        if took { recorded := false; }
        next := if r.Done? then Failing else Idle;
      case Failing =>
        if took { status := FAILED; }
        next := Idle;
      case Cleaning =>
        if took { source := false; }
        next := if r.Done? then Closing else Idle;
      case Closing =>
        if took { status := COMPLETED; }
        next := Idle;
    }

    /** One pass of the loop over pending migrations: the conditional claim, then the try block and its handler. */
    method Migrate(script: seq<Response>) returns (claimed: bool, ending: Ending)
      modifies this
      ensures claimed <==> Claimable(old(View(Idle)))
      ensures !claimed ==> View(Idle) == old(View(Idle)) && ending == Unfinished
      ensures claimed ==> (View(Idle), ending) == Attempt(ClaimFile(old(View(Idle))), script)
    {
      if status != PENDING && status != FAILED { return false, Unfinished; }
      status, attempts := PROCESSING, attempts + 1;
      claimed, ending := true, Broken;
      var at, n := if recorded then Rereading else Reading, 0;
      ghost var begun := View(at);
      while n < |script| && at != Idle
        invariant 0 <= n <= |script|
        invariant at != Idle ==> Attempt(View(at), script[n..]) == Attempt(begun, script) && ending == Broken
        invariant at == Idle ==> (View(Idle), ending) == Attempt(begun, script)
      {
        var here, r := at, script[n];
        ghost var was := View(at);
        at := Await(here, r);
        assert script[n..][1..] == script[n + 1..];
        if at == Idle { ending := EndingAt(here, r); }
        n := n + 1;
      }
      if at != Idle { assert script[n..] == []; }
    }
  }
}
