/** inbound-payment-recovery.ts: the lease on one subscription payment or wallet funding attempt. Workers claim with
    the moment they started, work, and give the claim back with what is to happen next, or crash; other parts of
    the system move the attempt's status meanwhile. */
module InboundRecovery {
  import opened Prelude

  datatype Table = SUBSCRIPTION_PAYMENT | WALLET_FUNDING

  /** CLOSED stands for every status the recovery does not look at. */
  datatype AttemptStatus = PENDING | INITIALIZING | INITIALIZED | UNKNOWN | PROCESSING | CLOSED

  datatype Row = Row(
    paystack: bool, status: AttemptStatus, deadLettered: bool, nextAt: Option<int>,
    token: Option<nat>, leaseUntil: Option<int>, attempts: nat, failed: bool)

  /** What a worker reports when it gives a claim back. */
  datatype Report = Report(failed: bool, nextAt: Option<int>, deadLettered: bool)

  predicate Open(table: Table, status: AttemptStatus) {
    match table
    case SUBSCRIPTION_PAYMENT => status == INITIALIZING || status == INITIALIZED || status == UNKNOWN
    case WALLET_FUNDING => status != CLOSED
  }

  predicate Claimable(table: Table, row: Row, now: int) {
    && row.paystack && Open(table, row.status) && !row.deadLettered
    && (row.nextAt.Some? ==> row.nextAt.value <= now)
    && (row.leaseUntil.Some? ==> row.leaseUntil.value <= now)
  }

  function TakeRow(row: Row, token: nat, now: int, leaseMs: nat): Row {
    row.(token := Some(token), leaseUntil := Some(now + leaseMs), attempts := row.attempts + 1, failed := false)
  }

  function ReleaseRow(row: Row, token: nat, report: Report): Row {
    if row.token != Some(token) then row
    else row.(token := None, leaseUntil := None, failed := report.failed, nextAt := report.nextAt, deadLettered := report.deadLettered)
  }

  datatype Event =
    | Tick(ms: nat)
    | Claim(now: int)
    | Release(w: nat, report: Report)
    | Crash(w: nat)
    | Move(status: AttemptStatus)

  /** `workers` are the tokens of claims still being worked on; `issued` counts the claims made. */
  datatype System = System(row: Row, clock: int, workers: seq<Option<nat>>, issued: nat)

  function Next(sys: System, event: Event, table: Table, leaseMs: nat): System {
    match event
    case Tick(ms) => sys.(clock := sys.clock + ms)
    case Claim(now) =>
      if now > sys.clock || !Claimable(table, sys.row, now) then sys
      else System(TakeRow(sys.row, sys.issued, now, leaseMs), sys.clock, sys.workers + [Some(sys.issued)], sys.issued + 1)
    case Release(w, report) =>
      if w >= |sys.workers| || sys.workers[w].None? then sys
      else sys.(row := ReleaseRow(sys.row, sys.workers[w].value, report), workers := sys.workers[w := None])
    case Crash(w) => if w >= |sys.workers| then sys else sys.(workers := sys.workers[w := None])
    case Move(status) => sys.(row := sys.row.(status := status))
  }

  function After(sys: System, events: seq<Event>, table: Table, leaseMs: nat): System {
    if events == [] then sys
    else Next(After(sys, events[..|events| - 1], table, leaseMs), events[|events| - 1], table, leaseMs)
  }

  predicate Initial(sys: System) {
    && sys.workers == [] && sys.issued == 0 && sys.row.attempts == 0
    && sys.row.token.None? && sys.row.leaseUntil.None? && !sys.row.deadLettered
  }

  predicate Inv(sys: System) {
    && (sys.row.token.Some? <==> sys.row.leaseUntil.Some?)
    && (sys.row.token.Some? ==> sys.row.token.value < sys.issued && !sys.row.deadLettered)
    && sys.row.attempts == sys.issued
    && (forall w :: 0 <= w < |sys.workers| && sys.workers[w].Some? ==> sys.workers[w].value < sys.issued)
    && forall i, j :: 0 <= i < j < |sys.workers| && sys.workers[i].Some? ==> sys.workers[i] != sys.workers[j]
  }

  lemma NextKeepsInv(sys: System, event: Event, table: Table, leaseMs: nat)
    requires Inv(sys)
    ensures Inv(Next(sys, event, table, leaseMs))
  {
  }

  /** Which attempts are claimed, status by status: an unclaimed paystack row that was not given up on and is due
      exactly from its next moment. */
  lemma ClaimableStatuses(row: Row, now: int)
    ensures var due := row.paystack && !row.deadLettered && (row.nextAt.None? || now >= row.nextAt.value)
                       && (row.leaseUntil.None? || now >= row.leaseUntil.value);
      && (Claimable(SUBSCRIPTION_PAYMENT, row, now) <==> due && row.status in [INITIALIZING, INITIALIZED, UNKNOWN])
      && (Claimable(WALLET_FUNDING, row, now) <==> due && row.status in [PENDING, INITIALIZING, INITIALIZED, UNKNOWN, PROCESSING])
  {
  }

  /** A claim that is given back leaves its report, one more attempt and nothing else. */
  lemma ClaimAndReport(sys: System, now: int, report: Report, table: Table, leaseMs: nat)
    requires Inv(sys) && now <= sys.clock && Claimable(table, sys.row, now)
    ensures var claimed := Next(sys, Claim(now), table, leaseMs);
      && claimed.row == sys.row.(token := Some(sys.issued), leaseUntil := Some(now + leaseMs), attempts := sys.row.attempts + 1, failed := false)
      && Next(claimed, Release(|sys.workers|, report), table, leaseMs).row
         == sys.row.(token := None, leaseUntil := None, attempts := sys.row.attempts + 1, failed := report.failed,
                     nextAt := report.nextAt, deadLettered := report.deadLettered)
  {
  }

  /** Every claim is counted, and a row that was given up on carries no claim, in every run. */
  lemma {:induction false} EveryClaimIsCounted(sys: System, events: seq<Event>, table: Table, leaseMs: nat)
    requires Initial(sys)
    ensures Inv(After(sys, events, table, leaseMs))
  {
    if events != [] {
      EveryClaimIsCounted(sys, events[..|events| - 1], table, leaseMs);
      NextKeepsInv(After(sys, events[..|events| - 1], table, leaseMs), events[|events| - 1], table, leaseMs);
    }
  }

  /** The lease columns, apart from the status other parts of the system own. */
  predicate SameLease(a: Row, b: Row) {
    a == b.(status := a.status)
  }

  /** While a claim's lease runs, nobody else claims or releases the row until its holder is done or gone. */
  lemma {:induction false} LeaseExcludesOthers(sys: System, events: seq<Event>, w: nat, table: Table, leaseMs: nat)
    requires Inv(sys) && w < |sys.workers| && sys.workers[w].Some? && sys.row.token == sys.workers[w]
    requires After(sys, events, table, leaseMs).clock < sys.row.leaseUntil.value
    ensures var end := After(sys, events, table, leaseMs);
      && Inv(end) && w < |end.workers|
      && (end.workers[w].None? || (end.workers[w] == sys.workers[w] && SameLease(end.row, sys.row) && end.issued == sys.issued))
  {
    if events != [] {
      var before, e := After(sys, events[..|events| - 1], table, leaseMs), events[|events| - 1];
      LeaseExcludesOthers(sys, events[..|events| - 1], w, table, leaseMs);
      NextKeepsInv(before, e, table, leaseMs);
      if e.Release? && e.w < |before.workers| && e.w != w && before.workers[e.w].Some? && before.workers[w].Some? {
        assert before.workers[e.w] != before.workers[w];
      }
    }
  }

  /** A claim that lost the row never gets it back, so its worker's report is never stored. */
  lemma {:induction false} LostClaimsStayLost(sys: System, events: seq<Event>, token: nat, table: Table, leaseMs: nat)
    requires Inv(sys) && token < sys.issued && sys.row.token != Some(token)
    ensures var end := After(sys, events, table, leaseMs);
      && Inv(end) && token < end.issued && end.row.token != Some(token)
      && forall report :: ReleaseRow(end.row, token, report) == end.row
  {
    if events != [] {
      LostClaimsStayLost(sys, events[..|events| - 1], token, table, leaseMs);
      NextKeepsInv(After(sys, events[..|events| - 1], table, leaseMs), events[|events| - 1], table, leaseMs);
    }
  }

  /** A row that was given up on is never claimed again, whatever happens to its status. */
  lemma {:induction false} GivenUpIsForever(sys: System, events: seq<Event>, table: Table, leaseMs: nat)
    requires Inv(sys) && sys.row.deadLettered
    ensures var end := After(sys, events, table, leaseMs);
      Inv(end) && SameLease(end.row, sys.row) && end.issued == sys.issued
  {
    if events != [] {
      GivenUpIsForever(sys, events[..|events| - 1], table, leaseMs);
      NextKeepsInv(After(sys, events[..|events| - 1], table, leaseMs), events[|events| - 1], table, leaseMs);
    }
  }

  /** An unclaimed row rests until its next attempt is due. */
  lemma {:induction false} RowRests(sys: System, events: seq<Event>, due: int, table: Table, leaseMs: nat)
    requires Inv(sys) && sys.row.token.None? && sys.row.nextAt == Some(due)
    requires After(sys, events, table, leaseMs).clock < due
    ensures var end := After(sys, events, table, leaseMs);
      Inv(end) && SameLease(end.row, sys.row) && end.issued == sys.issued
  {
    if events != [] {
      RowRests(sys, events[..|events| - 1], due, table, leaseMs);
      NextKeepsInv(After(sys, events[..|events| - 1], table, leaseMs), events[|events| - 1], table, leaseMs);
    }
  }

  /** A worker that crashes delays the row by one lease and no more: once the lease is over, an open row that was
      due is claimable again. */
  lemma CrashDelaysOneLease(sys: System, now: int, later: int, table: Table, leaseMs: nat)
    requires Inv(sys) && now <= sys.clock && Claimable(table, sys.row, now)
    ensures Claimable(table, Next(sys, Claim(now), table, leaseMs).row, later) <==> later >= now + leaseMs
  {
  }

  /** The two tables of attempts and the operations on them. */
  class RecoveryStore {
    var rows: map<string, Row>
    var issued: nat
    const table: Table
    const leaseMs: nat

    constructor (table: Table, leaseMs: nat, rows: map<string, Row>)
      ensures this.table == table && this.leaseMs == leaseMs && this.rows == rows && issued == 0
    {
      this.table, this.leaseMs, this.rows, issued := table, leaseMs, rows, 0;
    }

    /** The locking read and the update of the claim. A missing row and a row that is not due give no claim. */
    method ClaimRecovery(id: string, now: int) returns (claim: Option<nat>)
      modifies this
      ensures claim.Some? <==> id in old(rows) && Claimable(table, old(rows)[id], now)
      ensures claim.Some? ==> claim.value == old(issued) && issued == old(issued) + 1
                              && rows == old(rows)[id := TakeRow(old(rows)[id], claim.value, now, leaseMs)]
      ensures claim.None? ==> rows == old(rows) && issued == old(issued)
    {
      if id !in rows { return None; }
      var row := rows[id];
      if !row.paystack || !Open(table, row.status) || row.deadLettered { return None; }
      if row.nextAt.Some? && row.nextAt.value > now { return None; }
      if row.leaseUntil.Some? && row.leaseUntil.value > now { return None; }
      claim := Some(issued);
      rows := rows[id := row.(token := claim, leaseUntil := Some(now + leaseMs), attempts := row.attempts + 1, failed := false)];
      issued := issued + 1;
    }

    /** The conditional update that gives a claim back; a lost claim changes nothing. */
    method ReleaseRecovery(id: string, claim: nat, report: Report) returns (count: nat)
      modifies this`rows
      ensures count == if id in old(rows) && old(rows)[id].token == Some(claim) then 1 else 0
      ensures rows == if id in old(rows) then old(rows)[id := ReleaseRow(old(rows)[id], claim, report)] else old(rows)
    {
      if id !in rows || rows[id].token != Some(claim) {
        assert id in rows ==> rows == rows[id := rows[id]];
        return 0;
      }
      rows := rows[id := ReleaseRow(rows[id], claim, report)];
      return 1;
    }
  }
}
