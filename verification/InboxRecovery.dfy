/** paystack-transfer-webhook.ts: the recovery pass over the inbox, row by row. Rows are in the order they were
    received. What other workers did to a row before the pass came to it, the moment it is handled and what handling
    finds outside the inbox are parameters. */
module InboxRecovery {
  import opened Prelude
  import opened WebhookInbox

  datatype Report = NotOurs | Processed | Refused | Deferred | DeadLettered | Threw

  /** The pass comes to a row: how others left it in the meantime, the fresh token of the claim, when the event is
      handled and what handling finds. */
  datatype Turn = Turn(met: Option<Row>, token: nat, clock: int, finding: Finding)

  datatype Totals = Totals(inspected: nat, claimed: nat, processed: nat, deadLettered: nat, errors: nat)

  /** The rows among the first `n` that a pass starting at `now` would pick up. */
  function Pending(rows: seq<Row>, n: nat, now: int, c: Limits): (r: seq<nat>)
    requires n <= |rows|
    ensures |r| <= n
    ensures forall k :: 0 <= k < |r| ==> r[k] < n && Eligible(rows[r[k]], now, c)
    ensures forall j, k :: 0 <= j < k < |r| ==> r[j] < r[k]
    ensures forall i :: 0 <= i < n && Eligible(rows[i], now, c) ==> i in r
  {
    if n == 0 then []
    else Pending(rows, n - 1, now, c) + if Eligible(rows[n - 1], now, c) then [n - 1] else []
  }

  /** The row as the pass meets it. */
  function Met(row: Row, turn: Turn): Row {
    if turn.met.Some? then turn.met.value else row
  }

  /** The row after its claim holder handled it without being interrupted. */
  function Handled(row: Row, token: nat, initial: int, turn: Turn, c: Limits): Row {
    if row.token != Some(token) || row.leaseUntil.None? || row.leaseUntil.value <= turn.clock then row
    else
      var outcome := Decide(row.news, turn.finding, initial);
      if outcome.None? then row else WriteRow(row, token, outcome.value, turn.clock, c)
  }

  /** The row after a pass that started at `now` won its claim and handled it, or found it taken. */
  function Recovered(row: Row, now: int, turn: Turn, c: Limits): Row {
    var met := Met(row, turn);
    if !Eligible(met, now, c) then met
    else
      var taken := TakeRow(met, turn.token, now, c);
      Handled(taken, turn.token, taken.attempts, turn, c)
  }

  predicate Won(row: Row, now: int, turn: Turn, c: Limits) {
    Eligible(Met(row, turn), now, c)
  }

  /** A recovered row is answered, or waits for its next attempt below the limit, or died there; it stays claimed
      only if its status is undocumented or its lease ran out before it was handled. */
  lemma RecoveredRowIsAnswered(row: Row, issued: nat, now: int, turn: Turn, c: Limits)
    requires RowSound(Met(row, turn), issued) && Won(row, now, turn, c) && turn.token == issued
    ensures var met, r := Met(row, turn), Recovered(row, now, turn, c);
      && RowSound(r, issued + 1)
      && (r.status == PROCESSING <==> now + c.leaseMs <= turn.clock || (met.news == UNSUPPORTED && turn.finding.Settlement?))
      && (r.status == PROCESSED ==> met.news != MALFORMED && turn.finding.Settlement? && turn.finding.applied)
      && (r.status == DEAD_LETTER ==> met.news == MALFORMED || met.attempts + 2 >= c.maxAttempts)
      && (r.status == FAILED && met.status != PROCESSING ==> r.attempts < c.maxAttempts)
      && r.status != RECEIVED
  {
    var met := Met(row, turn);
    TakeKeepsSound(met, issued, now, c);
    var taken := TakeRow(met, issued, now, c);
    var outcome := Decide(met.news, turn.finding, taken.attempts);
    if outcome.Some? { WriteKeepsSound(taken, issued + 1, issued, outcome.value, turn.clock, c); }
  }

  /** The row after its turn: untouched by the pass when its claim was not to be had, still claimed when the lease ran
      out first, and otherwise answered with the count that the claim had just raised. */
  lemma RecoveredExactly(row: Row, now: int, turn: Turn, c: Limits)
    ensures var met := Met(row, turn);
      var taken := met.(status := PROCESSING, attempts := met.attempts + 1, nextAttemptAt := None,
                        token := Some(turn.token), leaseUntil := Some(now + c.leaseMs));
      Recovered(row, now, turn, c) ==
        if !Eligible(met, now, c) then met
        else if turn.clock >= now + c.leaseMs then taken
        else Answered(taken, met.attempts + 1, turn.finding, turn.clock, c)
  {
  }

  class Inbox {
    var rows: seq<Row>
    const limits: Limits
    const batchSize: nat

    constructor (limits: Limits, batchSize: nat)
      ensures rows == [] && this.limits == limits && this.batchSize == batchSize
    {
      rows := [];
      this.limits, this.batchSize := limits, batchSize;
    }

    method Claim(i: nat, now: int, token: nat) returns (claim: Option<nat>)
      requires i < |rows|
      modifies this
      ensures claim == if Eligible(old(rows[i]), now, limits) then Some(token) else None
      ensures claim.Some? ==> rows == old(rows)[i := TakeRow(old(rows[i]), token, now, limits)]
      ensures claim.None? ==> rows == old(rows)
    {
      var row := rows[i];
      var eligible :=
        || (row.status == RECEIVED && row.attempts < limits.maxAttempts)
        || (row.status == FAILED && row.attempts < limits.maxAttempts && (row.nextAttemptAt.None? || row.nextAttemptAt.value <= now))
        || (row.status == PROCESSING && row.leaseUntil.Some? && row.leaseUntil.value <= now);
      if !eligible { return None; }
      rows := rows[i := row.(status := PROCESSING, attempts := row.attempts + 1, token := Some(token),
                             leaseUntil := Some(now + limits.leaseMs), nextAttemptAt := None)];
      claim := Some(token);
    }

    /** The conditional update that ends a claim: nothing happens when the token is gone. */
    method Finish(i: nat, token: nat, outcome: Outcome, clock: int)
      requires i < |rows|
      modifies this
      ensures rows == old(rows)[i := WriteRow(old(rows[i]), token, outcome, clock, limits)]
    {
      rows := rows[i := WriteRow(rows[i], token, outcome, clock, limits)];
    }

    /** Handling under a claim made beforehand. */
    method ProcessStored(i: nat, token: nat, turn: Turn) returns (report: Report)
      requires i < |rows|
      modifies this
      ensures rows == old(rows)[i := Handled(old(rows[i]), token, old(rows[i]).attempts, turn, limits)]
      ensures old(rows[i]).status == PROCESSING ==>
        && (report == Processed <==> rows[i].status == PROCESSED)
        && (report == DeadLettered || (report == Threw && rows[i].status == DEAD_LETTER) <==> rows[i].status == DEAD_LETTER)
      ensures old(rows[i]).token == Some(token) && old(rows[i]).leaseUntil.Some? ==>
        (report == Threw <==> Throws(old(rows[i]), old(rows[i]).leaseUntil.value - limits.leaseMs, turn, limits))
    {
      var initial := rows[i].attempts;
      var row := rows[i];
      if row.token != Some(token) || row.leaseUntil.None? || row.leaseUntil.value <= turn.clock { return NotOurs; }
      if row.news == MALFORMED {
        Finish(i, token, DEAD, turn.clock);
        return DeadLettered;
      }
      if turn.finding.NoSettlement? {
        Finish(i, token, IGNORE, turn.clock);
        return Refused;
      }
      if row.news == UNSUPPORTED { return Threw; }
      if row.news == REVERSING && !turn.finding.successful {
        Finish(i, token, DEFER, turn.clock);
        return Deferred;
      }
      if turn.finding.applied {
        Finish(i, token, DONE, turn.clock);
        return Processed;
      }
      Finish(i, token, FAULT(initial), turn.clock);
      return Threw;
    }

    /** One turn of the pass: others may have been at the row since it was picked. */
    method RecoverOne(i: nat, now: int, turn: Turn, t: Totals) returns (totals: Totals)
      requires i < |rows|
      modifies this
      ensures rows == old(rows)[i := Recovered(old(rows[i]), now, turn, limits)]
      ensures totals == Tallied(t, old(rows[i]), now, turn, limits)
    {
      rows := rows[i := Met(rows[i], turn)];
      var lease := Claim(i, now, turn.token);
      if lease.None? { return t.(inspected := t.inspected + 1); }
      var report := ProcessStored(i, lease.value, turn);
      totals := t.(inspected := t.inspected + 1, claimed := t.claimed + 1);
      if report == Processed { totals := totals.(processed := totals.processed + 1); }
      if report == DeadLettered { totals := totals.(deadLettered := totals.deadLettered + 1); }
      if report == Threw {
        totals := totals.(errors := totals.errors + 1);
        if rows[i].status == DEAD_LETTER { totals := totals.(deadLettered := totals.deadLettered + 1); }
      }
    }

    /** One pass comes to exactly the oldest rows that were due, each once; it recovers those whose claim it wins,
        touches no other row, and its totals count what became of its claims. */
    method RetryPending(limit: nat, now: int, turns: seq<Turn>) returns (totals: Totals)
      requires |turns| >= |rows|
      modifies this
      ensures var picked := Picked(old(rows), limit, batchSize, now, limits);
        && PassDone(old(rows), rows, picked, now, turns, limits)
        && totals == Count(old(rows), picked, now, turns, limits)
    {
      var picked := Picked(rows, limit, batchSize, now, limits);
      PickedOnce(rows, limit, batchSize, now, limits);
      totals := RecoverAll(picked, now, turns);
    }

    /** The loop over the picked rows. */
    method RecoverAll(picked: seq<nat>, now: int, turns: seq<Turn>) returns (totals: Totals)
      requires |picked| <= |turns| && forall k :: 0 <= k < |picked| ==> picked[k] < |rows| && picked[k] !in picked[..k]
      modifies this
      ensures PassDone(old(rows), rows, picked, now, turns, limits) && totals == Count(old(rows), picked, now, turns, limits)
    {
      totals := Totals(0, 0, 0, 0, 0);
      ghost var before, finished := rows, [];
      while totals.inspected < |picked|
        invariant totals.inspected <= |picked| && finished == picked[..totals.inspected]
        invariant PassDone(before, rows, finished, now, turns, limits)
        invariant totals == Count(before, finished, now, turns, limits)
      {
        var i := picked[totals.inspected];
        totals := TakeTurn(i, now, turns, totals, before, finished);
        finished := finished + [i];
      }
      assert finished == picked;
    }

    /** One turn of a pass that began with the rows `before`, after the rows `finished` had theirs. */
    method TakeTurn(i: nat, now: int, turns: seq<Turn>, t: Totals, ghost before: seq<Row>, ghost finished: seq<nat>)
      returns (totals: Totals)
      requires PassDone(before, rows, finished, now, turns, limits) && |finished| < |turns|
      requires t == Count(before, finished, now, turns, limits) && i < |rows| && i !in finished
      modifies this
      ensures PassDone(before, rows, finished + [i], now, turns, limits)
      ensures totals == Count(before, finished + [i], now, turns, limits)
    {
      ghost var was := rows;
      assert was[i] == before[i];
      totals := RecoverOne(i, now, turns[t.inspected], t);
      PassGrows(before, was, rows, finished, i, now, turns, limits);
      assert (finished + [i])[..|finished|] == finished;
    }
  }

  predicate Throws(row: Row, now: int, turn: Turn, c: Limits) {
    && now + c.leaseMs > turn.clock && row.news != MALFORMED && turn.finding.Settlement?
    && (row.news == UNSUPPORTED || (!turn.finding.applied && (row.news == REVERSING ==> turn.finding.successful)))
  }

  /** The counters after one row, by what became of the claim on it. */
  function Tallied(t: Totals, row: Row, now: int, turn: Turn, c: Limits): Totals {
    var won, end := Won(row, now, turn, c), Recovered(row, now, turn, c).status;
    Totals(t.inspected + 1,
           t.claimed + if won then 1 else 0,
           t.processed + if won && end == PROCESSED then 1 else 0,
           t.deadLettered + if won && end == DEAD_LETTER then 1 else 0,
           t.errors + if won && Throws(Met(row, turn), now, turn, c) then 1 else 0)
  }

  /** The totals of a pass over the picked rows. */
  function Count(before: seq<Row>, picked: seq<nat>, now: int, turns: seq<Turn>, c: Limits): (t: Totals)
    requires |picked| <= |turns| && forall k :: 0 <= k < |picked| ==> picked[k] < |before|
    ensures t.inspected == |picked| && t.processed + t.deadLettered <= t.claimed <= t.inspected
  {
    if picked == [] then Totals(0, 0, 0, 0, 0)
    else
      var n := |picked| - 1;
      Tallied(Count(before, picked[..n], now, turns, c), before[picked[n]], now, turns[n], c)
  }

  /** The picked rows were recovered in order; every other row is as it was. */
  predicate PassDone(before: seq<Row>, rows: seq<Row>, picked: seq<nat>, now: int, turns: seq<Turn>, c: Limits) {
    && |rows| == |before| && |picked| <= |turns|
    && (forall k :: 0 <= k < |picked| ==> picked[k] < |rows|)
    && (forall k :: 0 <= k < |picked| ==> rows[picked[k]] == Recovered(before[picked[k]], now, turns[k], c))
    && forall i :: 0 <= i < |rows| && i !in picked ==> rows[i] == before[i]
  }

  lemma PassGrows(before: seq<Row>, was: seq<Row>, rows: seq<Row>, picked: seq<nat>, i: nat, now: int, turns: seq<Turn>, c: Limits)
    requires PassDone(before, was, picked, now, turns, c) && i < |before| && i !in picked && |picked| < |turns|
    requires rows == was[i := Recovered(before[i], now, turns[|picked|], c)]
    ensures PassDone(before, rows, picked + [i], now, turns, c)
  {
    var all := picked + [i];
    forall k | 0 <= k < |all| ensures rows[all[k]] == Recovered(before[all[k]], now, turns[k], c) {
      if k < |picked| { assert all[k] == picked[k] && picked[k] != i; }
    }
    forall j | 0 <= j < |rows| && j !in all ensures rows[j] == before[j] {
      assert all[|picked|] == i;
      assert forall k :: 0 <= k < |picked| ==> all[k] == picked[k];
    }
  }

  /** The oldest rows that are due, as many as the caller and the batch size allow. */
  function Picked(rows: seq<Row>, limit: nat, batch: nat, now: int, c: Limits): (r: seq<nat>)
    ensures |r| <= |rows| && forall k :: 0 <= k < |r| ==> r[k] < |rows| && Eligible(rows[r[k]], now, c)
  {
    var due, take := Pending(rows, |rows|, now, c), if limit < batch then limit else batch;
    if take < |due| then due[..take] else due
  }

  lemma PickedOnce(rows: seq<Row>, limit: nat, batch: nat, now: int, c: Limits)
    ensures var picked := Picked(rows, limit, batch, now, c);
      forall k :: 0 <= k < |picked| ==> picked[k] !in picked[..k]
  {
  }

  /** A pass takes due rows only, oldest first, and leaves a due row only when its quota is used up by older ones. */
  lemma PickedAreOldestDue(rows: seq<Row>, limit: nat, batch: nat, now: int, c: Limits, i: nat)
    requires i < |rows|
    ensures var picked := Picked(rows, limit, batch, now, c);
      && |picked| <= limit && |picked| <= batch
      && (forall j, k :: 0 <= j < k < |picked| ==> picked[j] < picked[k])
      && (i in picked <==> Eligible(rows[i], now, c) && ((|picked| < limit && |picked| < batch) || (|picked| > 0 && i <= picked[|picked| - 1])))
  {
    var due, picked := Pending(rows, |rows|, now, c), Picked(rows, limit, batch, now, c);
    assert Eligible(rows[i], now, c) <==> i in due;
    PrefixOfRising(due, |picked|, i);
  }

  /** The first `n` of a rising list hold exactly its members up to the last of them. */
  lemma PrefixOfRising(due: seq<nat>, n: nat, i: nat)
    requires n <= |due| && forall j, k :: 0 <= j < k < |due| ==> due[j] < due[k]
    ensures i in due[..n] <==> i in due && (n == |due| || (n > 0 && i <= due[n - 1]))
  {
    if i in due {
      var k :| 0 <= k < |due| && due[k] == i;
      if k < n { assert due[..n][k] == i; }
    }
  }

  /** When nobody else is at work, a pass wins every claim it tries. */
  lemma {:induction false} AlonePassWinsAll(rows: seq<Row>, picked: seq<nat>, now: int, turns: seq<Turn>, c: Limits)
    requires |picked| <= |turns| && forall k :: 0 <= k < |picked| ==> picked[k] < |rows| && Eligible(rows[picked[k]], now, c) && turns[k].met.None?
    ensures Count(rows, picked, now, turns, c).claimed == |picked|
  {
    if picked != [] { AlonePassWinsAll(rows, picked[..|picked| - 1], now, turns, c); }
  }
}
