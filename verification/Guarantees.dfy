/** What the settlement protocol guarantees on every run: any number of workers, any interleaving, stale
    reads, unguarded writes, crashes, duplicated and reordered provider news. */
module Guarantees {
  import opened Prelude
  import opened Records
  import opened Wallets
  import opened Settlements
  import opened Effects
  import opened SettlementInvariant
  import opened TransactionSafety
  import opened Obligations
  import opened Protocol
  import opened ProtocolSafety
  import opened ProtocolRuns

  // ----- the five-phase machine -----

  ghost function PhaseAt(sys: System, i: nat): MoneyPhase {
    if i < |sys.db.settlements| then Phase(sys.db, i) else Untouched
  }

  /** The money phases settlement `i` goes through along a run, without repetitions. */
  ghost function Story(sys: System, events: seq<Event>, i: nat): (r: seq<MoneyPhase>)
    ensures |r| > 0 && r[|r| - 1] == PhaseAt(After(sys, events), i)
  {
    var now := PhaseAt(After(sys, events), i);
    if events == [] then [now]
    else
      var past := Story(sys, events[..|events| - 1], i);
      if past[|past| - 1] == now then past else past + [now]
  }

  const PaidByProvider := [Untouched, Held, Debited, Restored]
  const FailedAtProvider := [Untouched, Held, Released]
  const PaidManually := [Untouched, Debited]

  /** In every run every settlement's money follows one of three stories: held, then debited, then perhaps
      restored; held, then released; or debited at once by hand. So it is debited at most once, restored
      at most once, and each reservation ends exactly one way. */
  lemma {:induction false} EveryRunTellsOneStory(sys: System, events: seq<Event>, i: nat)
    requires Initial(sys)
    ensures var story := Story(sys, events, i);
            story <= PaidByProvider || story <= FailedAtProvider || story <= PaidManually
    ensures Story(sys, events, i) == PaidManually ==> i < |After(sys, events).db.settlements| && After(sys, events).db.settlements[i].via == MANUAL
  {
    InitialInv(sys);
    if events != [] {
      var before := After(sys, events[..|events| - 1]);
      var after := After(sys, events);
      EveryRunTellsOneStory(sys, events[..|events| - 1], i);
      RunsKeepInv(sys, events[..|events| - 1]);
      EventKeepsInv(before, events[|events| - 1]);
      var past := Story(sys, events[..|events| - 1], i);
      PhaseAtMoves(before, after, i);
      StoryGrows(past, PhaseAt(after, i), i < |after.db.settlements| && after.db.settlements[i].via == MANUAL);
    }
  }

  lemma PhaseAtMoves(before: System, after: System, i: nat)
    requires Inv(before) && Inv(after) && Evolves(before.db, after.db)
    ensures Follows(PhaseAt(before, i), PhaseAt(after, i), i < |after.db.settlements| && after.db.settlements[i].via == MANUAL)
    ensures PhaseAt(before, i) == Debited ==> i < |before.db.settlements| && after.db.settlements[i].via == before.db.settlements[i].via
  {
    if i < |before.db.settlements| {
      assert Edge(before.db.settlements[i], Phase(before.db, i), after.db.settlements[i], Phase(after.db, i));
      assert Ages(before.db.settlements[i], after.db.settlements[i]);
      assert SettlementSound(before.db, i) && SettlementSound(after.db, i);
    } else if i < |after.db.settlements| {
      assert Born(after.db.settlements[i], Phase(after.db, i));
    }
  }

  predicate Follows(p: MoneyPhase, q: MoneyPhase, manual: bool) {
    || p == q
    || (p == Untouched && q == Debited && manual)
    || (!manual && ((p == Untouched && q == Held) || (p == Held && (q == Debited || q == Released)) || (p == Debited && q == Restored)))
  }

  lemma StoryGrows(past: seq<MoneyPhase>, now: MoneyPhase, manual: bool)
    requires |past| > 0 && (past <= PaidByProvider || past <= FailedAtProvider || past <= PaidManually)
    requires Follows(past[|past| - 1], now, manual) && (past == PaidManually ==> manual)
    ensures past[|past| - 1] != now ==>
      var story := past + [now];
      && (story <= PaidByProvider || story <= FailedAtProvider || story <= PaidManually)
      && (story == PaidManually ==> manual)
  {
    assert past[0] == Untouched;
    assert (past + [now])[|past|] == now && (past + [now])[..|past|] == past;
    if |past| == 1 {
      assert past == [Untouched];
    } else if past <= PaidManually {
      assert past == PaidManually;
    } else if past <= FailedAtProvider {
      assert |past| == 2 ==> past == [Untouched, Held];
    } else {
      assert |past| == 2 ==> past == [Untouched, Held];
      assert |past| == 3 ==> past == [Untouched, Held, Debited];
    }
  }

  // ----- the ledger effect of a settlement -----

  function EffectFor(wallet: nat, sourceType: string, sourceId: string): Entry -> int {
    (e: Entry) => if e.wallet == wallet && e.sourceType == Some(sourceType) && e.sourceId == Some(sourceId) then Signed(e) else 0
  }

  /** The net effect of a settlement's own rows on its wallet. */
  function NetEffect(ledger: seq<Entry>, s: Settlement): int {
    Tally(ledger, EffectFor(s.wallet, s.sourceType, s.sourceId))
  }

  /** Whatever happened, a settlement has taken its amount exactly once while Debited, and nothing otherwise;
      a reversal gives back exactly what the debit took. */
  lemma NetEffectIsThePhase(db: Database, i: nat)
    requires Sound(db) && i < |db.settlements|
    ensures NetEffect(db.ledger, db.settlements[i]) == if Phase(db, i) == Debited then -db.settlements[i].amount else 0
  {
    assert SettlementSound(db, i);
    NetEffectCounts(db, i, |db.ledger|);
    assert db.ledger[..|db.ledger|] == db.ledger;
  }

  lemma {:induction false} NetEffectCounts(db: Database, i: nat, n: nat)
    requires Sound(db) && i < |db.settlements| && n <= |db.ledger|
    ensures var s := db.settlements[i];
            NetEffect(db.ledger[..n], s) == s.amount * (Credits(db.ledger[..n], s) - Debits(db.ledger[..n], s))
  {
    if n > 0 {
      var s := db.settlements[i];
      var e := db.ledger[n - 1];
      var past := db.ledger[..n - 1];
      NetEffectCounts(db, i, n - 1);
      assert db.ledger[..n] == past + [e];
      TallyAppend(past, e, EffectFor(s.wallet, s.sourceType, s.sourceId));
      TallyAppend(past, e, DebitsFor(s.wallet, s.sourceType, s.sourceId));
      TallyAppend(past, e, CreditsFor(s.wallet, s.sourceType, s.sourceId));
      RowEffect(db, i, n - 1);
      Distributes(s.amount, Credits(past, s) - Debits(past, s),
                  CreditsFor(s.wallet, s.sourceType, s.sourceId)(e) - DebitsFor(s.wallet, s.sourceType, s.sourceId)(e));
    }
  }

  lemma Distributes(a: int, x: int, y: int)
    ensures a * (x + y) == a * x + a * y
  {
  }

  /** One row's effect on a settlement's account is the settlement's amount, in the row's direction, or nothing. */
  lemma RowEffect(db: Database, i: nat, k: nat)
    requires Sound(db) && i < |db.settlements| && k < |db.ledger|
    ensures var s, e := db.settlements[i], db.ledger[k];
      EffectFor(s.wallet, s.sourceType, s.sourceId)(e)
        == s.amount * (CreditsFor(s.wallet, s.sourceType, s.sourceId)(e) - DebitsFor(s.wallet, s.sourceType, s.sourceId)(e))
  {
    var s, e := db.settlements[i], db.ledger[k];
    assert EntrySound(db, k);
    if e.wallet == s.wallet && e.sourceType == Some(s.sourceType) && e.sourceId == Some(s.sourceId) {
      RowOwner(db, k, i);
    }
  }

  /** A ledger row that names a settlement's source carries that settlement's amount. */
  lemma RowOwner(db: Database, k: nat, i: nat)
    requires Sound(db) && k < |db.ledger| && i < |db.settlements|
    requires var e, s := db.ledger[k], db.settlements[i];
             e.wallet == s.wallet && e.sourceType == Some(s.sourceType) && e.sourceId == Some(s.sourceId)
    ensures OwnedBy(db.settlements[i], db.ledger[k])
  {
    var e := db.ledger[k];
    assert EntrySound(db, k) && SettlementSound(db, i);
    var j :| 0 <= j < |db.settlements| && OwnedBy(db.settlements[j], e);
    if j != i { ObligationsDistinct(db, i, j); }
  }

  // ----- conservation -----

  function SignedOn(wallet: nat): Entry -> int {
    (e: Entry) => if e.wallet == wallet then Signed(e) else 0
  }

  function OutsideOn(wallet: nat): Entry -> int {
    (e: Entry) => if e.wallet == wallet && !(e.sourceType.Some? && SettlementSource(e.sourceType.value)) then Signed(e) else 0
  }

  function EffectOn(ledger: seq<Entry>, wallet: nat): Settlement -> int {
    (s: Settlement) => if s.wallet == wallet then NetEffect(ledger, s) else 0
  }

  function StandingOn(db: Database, wallet: nat): Settlement -> int {
    (s: Settlement) => if s.wallet == wallet && PhaseOf(s, Debits(db.ledger, s), Credits(db.ledger, s)) == Debited then s.amount else 0
  }

  /** Each wallet's balance is what came in and went out from outside, less the settlements that stand
      debited; its reserved balance is the total of the reservations that are held; and nobody can spend
      what is reserved. */
  lemma MoneyIsConserved(db: Database, w: nat)
    requires Sound(db) && w < |db.wallets|
    ensures db.wallets[w].balance == Tally(db.ledger, OutsideOn(w)) - Tally(db.settlements, StandingOn(db, w))
    ensures db.wallets[w].reserved == Tally(db.settlements, HeldOn(w))
    ensures 0 <= db.wallets[w].reserved <= db.wallets[w].balance
  {
    assert WalletSound(db, w);
    ClosingIsTheSum(db.ledger, w);
    RowsSplit(db, w, |db.ledger|);
    assert db.ledger[..|db.ledger|] == db.ledger;
    EffectsAreStanding(db, w, |db.settlements|);
    assert db.settlements[..|db.settlements|] == db.settlements;
  }

  /** So it is in every run, for every settlement and every wallet. */
  lemma EveryRunConservesMoney(sys: System, events: seq<Event>, w: nat, i: nat)
    requires Initial(sys)
    ensures var db := After(sys, events).db;
      && (w < |db.wallets| ==>
            && db.wallets[w].balance == Tally(db.ledger, OutsideOn(w)) - Tally(db.settlements, StandingOn(db, w))
            && db.wallets[w].reserved == Tally(db.settlements, HeldOn(w))
            && 0 <= db.wallets[w].reserved <= db.wallets[w].balance)
      && (i < |db.settlements| ==>
            NetEffect(db.ledger, db.settlements[i]) == if Phase(db, i) == Debited then -db.settlements[i].amount else 0)
  {
    var db := After(sys, events).db;
    InitialInv(sys);
    RunsKeepInv(sys, events);
    if w < |db.wallets| { MoneyIsConserved(db, w); }
    if i < |db.settlements| { NetEffectIsThePhase(db, i); }
  }

  lemma ClosingOfLast(rows: seq<Entry>, e: Entry)
    requires Chained(rows + [e])
    ensures Chained(rows) && Closing(rows + [e]) == Closing(rows) + Signed(e)
  {
    var all := rows + [e];
    assert forall k :: 0 <= k < |rows| ==> all[k] == rows[k];
    assert all[|rows|] == e;
    if rows != [] { assert all[|rows|].before == all[|rows| - 1].after; }
  }

  lemma {:induction false} ClosingIsTheSum(ledger: seq<Entry>, w: nat)
    requires Chained(RowsOf(ledger, w))
    ensures Closing(RowsOf(ledger, w)) == Tally(ledger, SignedOn(w))
  {
    if ledger != [] {
      var n := |ledger| - 1;
      var rows := RowsOf(ledger[..n], w);
      if ledger[n].wallet == w {
        assert RowsOf(ledger, w) == rows + [ledger[n]];
        ClosingOfLast(rows, ledger[n]);
      } else {
        assert RowsOf(ledger, w) == rows;
      }
      ClosingIsTheSum(ledger[..n], w);
    }
  }

  lemma {:induction false} TallyShift<T>(s: seq<T>, f: T -> int, g: T -> int, i: nat, delta: int)
    requires i < |s| && g(s[i]) == f(s[i]) + delta
    requires forall k :: 0 <= k < |s| && k != i ==> g(s[k]) == f(s[k])
    ensures Tally(s, g) == Tally(s, f) + delta
  {
    if i == |s| - 1 {
      TallySame(s[..|s| - 1], f, g);
    } else {
      TallyShift(s[..|s| - 1], f, g, i, delta);
    }
  }

  /** Row by row, the ledger of a wallet divides into outside rows and the settlements' own rows. */
  lemma {:induction false} RowsSplit(db: Database, w: nat, n: nat)
    requires Sound(db) && n <= |db.ledger|
    ensures Tally(db.ledger[..n], SignedOn(w)) == Tally(db.ledger[..n], OutsideOn(w)) + Tally(db.settlements, EffectOn(db.ledger[..n], w))
  {
    if n == 0 {
      assert db.ledger[..0] == [];
      NoEffects(db.settlements, w);
    } else {
      var past := db.ledger[..n - 1];
      var e := db.ledger[n - 1];
      RowsSplit(db, w, n - 1);
      assert db.ledger[..n] == past + [e];
      TallyAppend(past, e, SignedOn(w));
      TallyAppend(past, e, OutsideOn(w));
      forall k | 0 <= k < |db.settlements|
        ensures var s := db.settlements[k];
                EffectOn(past + [e], w)(s) == EffectOn(past, w)(s) + if s.wallet == w then EffectFor(s.wallet, s.sourceType, s.sourceId)(e) else 0
      {
        var s := db.settlements[k];
        TallyAppend(past, e, EffectFor(s.wallet, s.sourceType, s.sourceId));
      }
      RowCountsOnce(db, w, n - 1, past);
    }
  }

  lemma RowCountsOnce(db: Database, w: nat, k: nat, past: seq<Entry>)
    requires Sound(db) && k < |db.ledger|
    requires forall j :: 0 <= j < |db.settlements| ==>
      var s, e := db.settlements[j], db.ledger[k];
      EffectOn(past + [e], w)(s) == EffectOn(past, w)(s) + if s.wallet == w then EffectFor(s.wallet, s.sourceType, s.sourceId)(e) else 0
    ensures var e := db.ledger[k];
      Tally(db.settlements, EffectOn(past + [e], w)) == Tally(db.settlements, EffectOn(past, w)) + SignedOn(w)(e) - OutsideOn(w)(e)
  {
    var e := db.ledger[k];
    assert EntrySound(db, k);
    if e.wallet == w && e.sourceType.Some? && SettlementSource(e.sourceType.value) {
      var i :| 0 <= i < |db.settlements| && OwnedBy(db.settlements[i], e);
      forall j | 0 <= j < |db.settlements| && j != i
        ensures EffectOn(past + [e], w)(db.settlements[j]) == EffectOn(past, w)(db.settlements[j])
      {
        assert SettlementSound(db, j) && SettlementSound(db, i);
        ObligationsDistinct(db, i, j);
      }
      TallyShift(db.settlements, EffectOn(past, w), EffectOn(past + [e], w), i, Signed(e));
    } else {
      forall j | 0 <= j < |db.settlements|
        ensures EffectOn(past, w)(db.settlements[j]) == EffectOn(past + [e], w)(db.settlements[j])
      {
        assert SettlementSound(db, j);
      }
      TallySame(db.settlements, EffectOn(past, w), EffectOn(past + [e], w));
    }
  }

  lemma {:induction false} NoEffects(settlements: seq<Settlement>, w: nat)
    ensures Tally(settlements, EffectOn([], w)) == 0
  {
    if settlements != [] { NoEffects(settlements[..|settlements| - 1], w); }
  }

  lemma {:induction false} EffectsAreStanding(db: Database, w: nat, n: nat)
    requires Sound(db) && n <= |db.settlements|
    ensures Tally(db.settlements[..n], EffectOn(db.ledger, w)) == -Tally(db.settlements[..n], StandingOn(db, w))
  {
    if n > 0 {
      EffectsAreStanding(db, w, n - 1);
      assert db.settlements[..n] == db.settlements[..n - 1] + [db.settlements[n - 1]];
      TallyAppend(db.settlements[..n - 1], db.settlements[n - 1], EffectOn(db.ledger, w));
      TallyAppend(db.settlements[..n - 1], db.settlements[n - 1], StandingOn(db, w));
      NetEffectIsThePhase(db, n - 1);
    }
  }

  // ----- evidence and calls -----

  /** In every run, a provider settlement that was ever debited had a webhook or a verification announce the
      success of exactly this transfer: reference, amount and currency. An initiation or OTP answer alone
      never debits. A reversal credit likewise had a matching reversal announced, and a reservation was given back
      only after a matching failure was announced or the initiation had ended in a definite error. */
  lemma NoDebitWithoutEvidence(sys: System, events: seq<Event>, i: nat)
    requires Initial(sys)
    requires i < |After(sys, events).db.settlements| && After(sys, events).db.settlements[i].via == PROVIDER
    ensures var end := After(sys, events);
            var s := end.db.settlements[i];
            && (Debits(end.db.ledger, s) > 0 ==> SuccessHeard(end.deliveries, s))
            && (Credits(end.db.ledger, s) > 0 ==> ReversalHeard(end.deliveries, s))
            && (Phase(end.db, i) == Released ==> ReleaseBacked(end.deliveries, s, i))
  {
    InitialInv(sys);
    RunsKeepInv(sys, events);
  }

  /** In every run a settlement is handed to an initiator at most once, and the provider is asked to move its
      money at most twice, once by the initiator and once by a reconciler, always with the settlement's own
      reference, amount and currency. */
  lemma AtMostTwoCalls(sys: System, events: seq<Event>, i: nat)
    requires Initial(sys)
    ensures var end := After(sys, events);
            && Tally(end.claims, Handed(i)) <= 1
            && Tally(end.calls, Sent(i, false)) <= Tally(end.claims, Handed(i))
            && Tally(end.calls, Sent(i, true)) <= 1
            && forall c :: 0 <= c < |end.calls| ==> CallSound(end.db, end.calls[c])
  {
    InitialInv(sys);
    RunsKeepInv(sys, events);
    var end := After(sys, events);
    assert BudgetSound(end, i);
    TallyNonnegative(end.tasks, InitPending(i));
    TallyNonnegative(end.tasks, RetryPending(i));
    TallyNonnegative(end.calls, Sent(i, false));
  }

  // ----- business agreement -----

  /** At every point of every run: a disbursed payroll run has only paid payslips, a SUCCEEDED provider
      settlement has paid its obligation, and an obligation reads as paid exactly while its settlement
      stands debited, unless the reversal's second transaction is still owed or was lost to a crash. */
  lemma BusinessAgrees(sys: System, events: seq<Event>, i: nat)
    requires Initial(sys)
    requires i < |After(sys, events).db.settlements| && After(sys, events).db.settlements[i].via == PROVIDER
    ensures var end := After(sys, events);
            var s := end.db.settlements[i];
            && RunsAgree(end.db)
            && (s.status == SUCCEEDED ==> ObligationPaid(end.db, s))
            && (Phase(end.db, i) == Debited ==> ObligationPaid(end.db, s))
            && (ObligationPaid(end.db, s) && Tally(end.tasks, Undoing(i)) == 0 && i !in end.splits ==> Phase(end.db, i) == Debited)
  {
    InitialInv(sys);
    RunsKeepInv(sys, events);
    var end := After(sys, events);
    assert SettlementSound(end.db, i) && SplitSound(end, i);
    TallyNonnegative(end.tasks, Undoing(i));
  }

  // ----- news that comes too early, too late or too stale -----

  /** The unique keys of a reversal are free. */
  predicate ReversalKeysFree(db: Database, i: nat, reference: string)
    requires i < |db.settlements|
  {
    var s := db.settlements[i];
    && LedgerFree(db, s.org, s.wallet, "REVERSAL_" + s.sourceType, s.sourceType, s.sourceId, reference, Some(reference))
    && forall k :: 0 <= k < |db.settlements| && k != i && db.settlements[k].org == s.org ==> db.settlements[k].reversalReference != Some(reference)
  }

  lemma ReversalCommits(db: Database, i: nat, reference: string)
    requires Sound(db) && i < |db.settlements| && db.settlements[i].wallet < |db.wallets|
    ensures var s := db.settlements[i];
            var o := ReverseSucceeded(db, s.org, i, reference);
            (o.Committed? && o.acted) <==> (s.status == SUCCEEDED && CurrencyAgrees(s.currency, db.wallets[s.wallet].currency)
                                            && ReversalKeysFree(db, i, reference))
  {
    var s := db.settlements[i];
    assert SettlementSound(db, i);
    SettlementFitsItself(db, i);
    ReversingActsExactlyWhen(db, s.org, i, reference);
    if s.status == SUCCEEDED {
      DebitRowExists(db, i);
      assert IsDebit(db.ledger[FirstDebit(db.ledger, s).value], s);
    }
  }

  lemma SettlementFitsItself(db: Database, i: nat)
    requires Sound(db) && i < |db.settlements|
    ensures SettlementFits(db.settlements, i, db.settlements[i])
  {
    SameKeysFit(db, i, db.settlements[i]);
  }

  /** A reversal moves money exactly when the settlement currently reads SUCCEEDED, the reading worker did not
      see a terminal failure or reversal, and the reversal's unique keys are free. Before the success lands it
      has no effect. */
  lemma ReversalLandsExactlyAfterSuccess(db: Database, i: nat, seen: Settlement, result: TransferResult)
    requires Sound(db) && SeenRow(db, i, seen) && db.settlements[i].wallet < |db.wallets|
    requires result.state == REVERSAL && Matches(seen, result)
    ensures var s := db.settlements[i];
            var after := Apply(db, i, seen, result).db;
            var lands := s.status == SUCCEEDED && seen.status != FAILED && seen.status != REVERSED
                         && CurrencyAgrees(s.currency, db.wallets[s.wallet].currency)
                         && ReversalKeysFree(db, i, ReversalReference(result.reference));
            && (lands ==> Phase(db, i) == Debited && |after.settlements| == |db.settlements| && Phase(after, i) == Restored
                          && after.wallets == db.wallets[s.wallet := db.wallets[s.wallet].(balance := db.wallets[s.wallet].balance + s.amount)])
            && (!lands ==> after.wallets == db.wallets && after.ledger == db.ledger)
  {
    var reference := ReversalReference(result.reference);
    ReversalCommits(db, i, reference);
    ReverseIsSafe(db, seen.org, i, reference);
    if ReverseSucceeded(db, seen.org, i, reference).Committed? { ReversalPaysBack(db, seen.org, i, reference); }
  }

  lemma ReversalPaysBack(db: Database, org: string, i: nat, reference: string)
    requires ReverseSucceeded(db, org, i, reference).Committed? && i < |db.settlements|
    ensures var s, o := db.settlements[i], ReverseSucceeded(db, org, i, reference);
      && s.org == org && |o.db.settlements| == |db.settlements|
      && (o.acted ==> s.status == SUCCEEDED && s.wallet < |db.wallets|)
      && (o.acted ==> o.db.wallets == db.wallets[s.wallet := db.wallets[s.wallet].(balance := db.wallets[s.wallet].balance + s.amount)])
      && (!o.acted ==> o.db == db && s.status == REVERSED)
  {
  }

  lemma DebitRowExists(db: Database, i: nat)
    requires Sound(db) && i < |db.settlements| && db.settlements[i].status == SUCCEEDED
    ensures FirstDebit(db.ledger, db.settlements[i]).Some?
  {
    var s := db.settlements[i];
    assert SettlementSound(db, i);
    var k := TallyWitness(db.ledger, DebitsFor(s.wallet, s.sourceType, s.sourceId));
    assert DebitOf(db.ledger[k], s);
  }

  lemma OverwrittenStays(before: Database, after: Database, i: nat)
    requires Sound(before) && Evolves(before, after) && i < |before.settlements|
    requires Phase(before, i) == Debited && before.settlements[i].status != SUCCEEDED
    ensures Phase(after, i) == Debited && after.settlements[i].status != SUCCEEDED
  {
    assert SettlementSound(before, i);
    assert Ages(before.settlements[i], after.settlements[i]);
    assert Edge(before.settlements[i], Phase(before, i), after.settlements[i], Phase(after, i));
  }

  /** From then on nothing repairs it: whatever happens in the rest of the run, the settlement stays debited,
      never reads SUCCEEDED again and can never be reversed. */
  lemma {:induction false} OverwrittenSuccessIsForever(sys: System, events: seq<Event>, i: nat)
    requires Inv(sys) && i < |sys.db.settlements| && Phase(sys.db, i) == Debited && sys.db.settlements[i].status != SUCCEEDED
    ensures var end := After(sys, events);
            i < |end.db.settlements| && Phase(end.db, i) == Debited && end.db.settlements[i].status != SUCCEEDED
  {
    if events != [] {
      var past := events[..|events| - 1];
      OverwrittenSuccessIsForever(sys, past, i);
      RunsKeepInv(sys, past);
      EventKeepsInv(After(sys, past), events[|events| - 1]);
      OverwrittenStays(After(sys, past).db, After(sys, events).db, i);
    }
  }

  // ----- the manual takeover -----

  /** A manual settlement that takes over a PREPARED provider row pays that row exactly when the obligation
      still names the row's amount and wallet: the takeover debits what the caller passes and leaves the
      row's own amount and wallet as they were. From another wallet the row ends SUCCEEDED without a debit. */
  lemma TakeoverPaysItsRow(db: Database, source: Source, key: string, externalReference: string, internalReference: string)
    requires Sound(db) && FindSource(db.settlements, source.org, source.sourceType, source.sourceId).Some?
    requires CompleteManual(db, source, key, externalReference, internalReference).Committed?
    requires CompleteManual(db, source, key, externalReference, internalReference).acted
    ensures var i := FindSource(db.settlements, source.org, source.sourceType, source.sourceId).value;
            var d := CompleteManual(db, source, key, externalReference, internalReference).db;
            && |d.ledger| == |db.ledger| + 1 && |d.settlements| == |db.settlements| && d.settlements[i].status == SUCCEEDED
            && (OwnedBy(d.settlements[i], d.ledger[|db.ledger|]) <==> SameObligation(db, source))
            && (source.wallet != d.settlements[i].wallet ==> Debits(d.ledger, d.settlements[i]) == 0)
  {
    var i := FindSource(db.settlements, source.org, source.sourceType, source.sourceId).value;
    var d := CompleteManual(db, source, key, externalReference, internalReference).db;
    assert SettlementSound(db, i);
    var e := d.ledger[|db.ledger|];
    assert d.ledger == db.ledger + Posted(Some(e));
    CountsAfterPost(db.ledger, Some(e), db.settlements[i]);
  }
}
