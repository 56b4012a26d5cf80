/** Agreement between settlements and the business objects they pay: payslips, payroll runs and
    payment requests. */
module Obligations {
  import opened Records
  import opened Wallets
  import opened Settlements
  import opened SettlementInvariant
  import opened TransactionSafety

  /** The business object of a settlement is marked as paid. */
  predicate ObligationPaid(db: Database, s: Settlement) {
    if s.sourceType == PAYMENT_REQUEST then
      s.sourceId in db.requests && db.requests[s.sourceId].org == s.org && db.requests[s.sourceId].status == SETTLED
    else
      s.sourceId in db.slips && db.slips[s.sourceId].org == s.org && db.slips[s.sourceId].status == PAID
  }

  ghost predicate SlipsPlaced(db: Database) {
    forall p :: p in db.slips ==> db.slips[p].run in db.runs && db.runs[db.slips[p].run].org == db.slips[p].org
  }

  /** A disbursed run has only paid payslips. */
  ghost predicate RunsAgree(db: Database) {
    forall r, p :: r in db.runs && db.runs[r].status == DISBURSED && p in db.slips && db.slips[p].run == r ==> db.slips[p].status == PAID
  }

  /** A provider debit has paid its obligation. */
  ghost predicate DebitsPay(db: Database) {
    forall i :: 0 <= i < |db.settlements| && db.settlements[i].via == PROVIDER && Phase(db, i) == Debited
      ==> ObligationPaid(db, db.settlements[i])
  }

  /** Nothing marks a provider obligation as paid before its debit. */
  ghost predicate PaidMeansDebited(db: Database) {
    forall i :: 0 <= i < |db.settlements| && db.settlements[i].via == PROVIDER && ObligationPaid(db, db.settlements[i])
      ==> Phase(db, i) == Debited || Phase(db, i) == Restored
  }

  /** A paid object without a settlement cannot exist, so that a new settlement starts unpaid. */
  ghost predicate PaidIsSettled(db: Database) {
    && (forall p :: p in db.slips && db.slips[p].status == PAID ==> FindSource(db.settlements, db.slips[p].org, PAYSLIP, p).Some?)
    && (forall q :: q in db.requests && db.requests[q].status == SETTLED ==>
          FindSource(db.settlements, db.requests[q].org, PAYMENT_REQUEST, q).Some?)
  }

  ghost predicate Agreed(db: Database) {
    SlipsPlaced(db) && RunsAgree(db) && DebitsPay(db) && PaidMeansDebited(db) && PaidIsSettled(db)
  }

  lemma FindStable(settlements: seq<Settlement>, settlements': seq<Settlement>, org: string, sourceType: string, sourceId: string)
    requires |settlements| <= |settlements'|
    requires forall i :: 0 <= i < |settlements| ==> SameIdentity(settlements[i], settlements'[i])
    requires FindSource(settlements, org, sourceType, sourceId).Some?
    ensures FindSource(settlements', org, sourceType, sourceId).Some?
  {
    var i := FindSource(settlements, org, sourceType, sourceId).value;
    assert SameIdentity(settlements[i], settlements'[i]);
  }

  lemma PaidStaysSettled(db: Database, d: Database)
    requires PaidIsSettled(db) && Evolves(db, d)
    requires forall p :: p in d.slips && d.slips[p].status == PAID ==>
               FindSource(d.settlements, d.slips[p].org, PAYSLIP, p).Some? || (p in db.slips && db.slips[p] == d.slips[p])
    requires forall q :: q in d.requests && d.requests[q].status == SETTLED ==>
               FindSource(d.settlements, d.requests[q].org, PAYMENT_REQUEST, q).Some? || (q in db.requests && db.requests[q] == d.requests[q])
    ensures PaidIsSettled(d)
  {
    forall p | p in d.slips && d.slips[p].status == PAID
      ensures FindSource(d.settlements, d.slips[p].org, PAYSLIP, p).Some?
    {
      if FindSource(d.settlements, d.slips[p].org, PAYSLIP, p).None? {
        FindStable(db.settlements, d.settlements, d.slips[p].org, PAYSLIP, p);
      }
    }
    forall q | q in d.requests && d.requests[q].status == SETTLED
      ensures FindSource(d.settlements, d.requests[q].org, PAYMENT_REQUEST, q).Some?
    {
      if FindSource(d.settlements, d.requests[q].org, PAYMENT_REQUEST, q).None? {
        FindStable(db.settlements, d.settlements, d.requests[q].org, PAYMENT_REQUEST, q);
      }
    }
  }

  /** Steps that leave the business objects alone and debit no provider settlement. */
  lemma AgreedFrame(db: Database, d: Database)
    requires Agreed(db) && Evolves(db, d)
    requires d.slips == db.slips && d.runs == db.runs && d.requests == db.requests
    requires forall i :: 0 <= i < |d.settlements| && d.settlements[i].via == PROVIDER ==>
      if i < |db.settlements| then db.settlements[i].via == PROVIDER && (Phase(d, i) == Debited ==> Phase(db, i) == Debited)
      else Phase(d, i) != Debited && !ObligationPaid(d, d.settlements[i])
    ensures Agreed(d)
  {
    PaidStaysSettled(db, d);
    forall i | 0 <= i < |d.settlements| && d.settlements[i].via == PROVIDER
      ensures Phase(d, i) == Debited ==> ObligationPaid(d, d.settlements[i])
      ensures ObligationPaid(d, d.settlements[i]) ==> Phase(d, i) == Debited || Phase(d, i) == Restored
    {
      if i < |db.settlements| {
        assert Ages(db.settlements[i], d.settlements[i]) && Edge(db.settlements[i], Phase(db, i), d.settlements[i], Phase(d, i));
        assert ObligationPaid(d, d.settlements[i]) == ObligationPaid(db, db.settlements[i]);
      }
    }
  }

  /** A settlement that has just been created is not yet paid for. */
  lemma NewIsUnpaid(db: Database, s: Settlement)
    requires Agreed(db) && FindSource(db.settlements, s.org, s.sourceType, s.sourceId).None? && SettlementSource(s.sourceType)
    ensures !ObligationPaid(db, s)
  {
    if s.sourceType == PAYMENT_REQUEST {
      if s.sourceId in db.requests && db.requests[s.sourceId].status == SETTLED {
        assert FindSource(db.settlements, db.requests[s.sourceId].org, PAYMENT_REQUEST, s.sourceId).Some?;
      }
    } else {
      if s.sourceId in db.slips && db.slips[s.sourceId].status == PAID {
        assert FindSource(db.settlements, db.slips[s.sourceId].org, PAYSLIP, s.sourceId).Some?;
      }
    }
  }

  /** Two settlements never share a business object. */
  lemma ObligationsDistinct(db: Database, i: nat, j: nat)
    requires Sound(db) && i < |db.settlements| && j < |db.settlements| && i != j
    ensures var s, t := db.settlements[i], db.settlements[j];
            !(s.org == t.org && s.sourceType == t.sourceType && s.sourceId == t.sourceId)
  {
    if i < j {
      assert !SettlementClash(db.settlements[i], db.settlements[j]);
    } else {
      assert !SettlementClash(db.settlements[j], db.settlements[i]);
    }
  }

  /** What paying the obligation of `s` does to the business objects. */
  ghost predicate PaysOnly(db: Database, s: Settlement, d: Database) {
    && ObligationPaid(d, s)
    && d.slips.Keys == db.slips.Keys && d.requests.Keys == db.requests.Keys
    && (forall p :: p in db.slips ==> d.slips[p].org == db.slips[p].org && d.slips[p].run == db.slips[p].run)
    && (forall q :: q in db.requests ==> d.requests[q].org == db.requests[q].org)
    && (forall p :: p in db.slips && d.slips[p] != db.slips[p] ==> s.sourceType == PAYSLIP && p == s.sourceId && d.slips[p].org == s.org)
    && (forall q :: q in db.requests && d.requests[q] != db.requests[q] ==> s.sourceType == PAYMENT_REQUEST && q == s.sourceId && d.requests[q].org == s.org)
    && (forall p :: p in db.slips && db.slips[p].status == PAID ==> d.slips[p].status == PAID)
  }

  lemma MarkPaidPaysOnly(db: Database, s: Settlement)
    requires SettlementSource(s.sourceType) && MarkPaid(db, s).Ok?
    ensures PaysOnly(db, s, MarkPaid(db, s).value)
  {
    assert PAYMENT_REQUEST != PAYSLIP by { assert PAYMENT_REQUEST[0] != PAYSLIP[0]; }
  }

  lemma MarkPaidKeepsRuns(db: Database, s: Settlement)
    requires SettlementSource(s.sourceType) && MarkPaid(db, s).Ok? && SlipsPlaced(db) && RunsAgree(db)
    ensures SlipsPlaced(MarkPaid(db, s).value) && RunsAgree(MarkPaid(db, s).value)
  {
    var d := MarkPaid(db, s).value;
    if s.sourceType == PAYSLIP && s.sourceType != PAYMENT_REQUEST {
      var marked := db.(slips := db.slips[s.sourceId := db.slips[s.sourceId].(status := PAID)]);
      var run := db.slips[s.sourceId].run;
      assert d.slips == marked.slips;
      forall r, p | r in d.runs && d.runs[r].status == DISBURSED && p in d.slips && d.slips[p].run == r
        ensures d.slips[p].status == PAID
      {
        if r == run {
          assert !Unpaid(marked, run, s.org);
          assert marked.slips[p].org == s.org;
        } else {
          assert db.runs[r].status == DISBURSED && db.slips[p].run == r;
        }
      }
    }
  }

  lemma OthersUnaffected(db: Database, i: nat, d: Database, j: nat)
    requires Sound(db) && i < |db.settlements| && j < |db.settlements| && i != j
    requires PaysOnly(db, db.settlements[i], d)
    ensures ObligationPaid(d, db.settlements[j]) == ObligationPaid(db, db.settlements[j])
  {
    ObligationsDistinct(db, i, j);
    assert SettlementSound(db, j) && SettlementSound(db, i);
  }

  lemma FinalizeAgrees(db: Database, i: nat, result: TransferResult)
    requires Sound(db) && Agreed(db) && (i < |db.settlements| ==> db.settlements[i].via == PROVIDER)
    ensures match FinalizeSuccess(db, i, result)
            case RolledBack(_) => true
            case Committed(d, _) =>
              && Agreed(d)
              && forall j :: 0 <= j < |db.settlements| && j != i ==> ObligationPaid(d, db.settlements[j]) == ObligationPaid(db, db.settlements[j])
  {
    match FinalizeSuccess(db, i, result) {
      case RolledBack(_) =>
      case Committed(d, acted) =>
        if acted {
          var s := db.settlements[i];
          assert SettlementSound(db, i);
          var after := Consume(db.wallets[s.wallet], s.org, s.amount, s.currency).value;
          var posted := Post(SetWallet(db, s.wallet, after), ProviderDebit(db, s, after)).value;
          MarkPaidPaysOnly(posted, s);
          MarkPaidKeepsRuns(posted, s);
          FinalizeIsSafe(db, i, result);
          PaidAgrees(db, i, d);
        }
    }
  }

  lemma PaidAgrees(db: Database, i: nat, d: Database)
    requires Sound(db) && Agreed(db) && Evolves(db, d) && i < |db.settlements| && OnlyRow(db, d, i)
    requires Phase(d, i) == Debited && SlipsPlaced(d) && RunsAgree(d) && PaysOnly(db, db.settlements[i], d)
    ensures Agreed(d)
    ensures forall j :: 0 <= j < |db.settlements| && j != i ==> ObligationPaid(d, db.settlements[j]) == ObligationPaid(db, db.settlements[j])
  {
    forall j | 0 <= j < |db.settlements| && j != i
      ensures ObligationPaid(d, db.settlements[j]) == ObligationPaid(db, db.settlements[j])
    {
      OthersUnaffected(db, i, d, j);
    }
    PayKeepsSettled(db, i, d);
    OneRowAgrees(db, i, d);
  }

  lemma PayKeepsSettled(db: Database, i: nat, d: Database)
    requires PaidIsSettled(db) && Evolves(db, d) && i < |db.settlements| && PaysOnly(db, db.settlements[i], d)
    ensures PaidIsSettled(d)
  {
    assert Ages(db.settlements[i], d.settlements[i]);
    PaidStaysSettled(db, d);
  }

  /** One row moved; every other obligation reads as before, and this one reads as its new phase demands. */
  lemma OneRowAgrees(db: Database, i: nat, d: Database)
    requires DebitsPay(db) && PaidMeansDebited(db) && Evolves(db, d) && i < |db.settlements| && OnlyRow(db, d, i)
    requires forall j :: 0 <= j < |db.settlements| && j != i ==> ObligationPaid(d, db.settlements[j]) == ObligationPaid(db, db.settlements[j])
    requires (Phase(d, i) == Debited && ObligationPaid(d, db.settlements[i])) || (Phase(d, i) == Restored && !ObligationPaid(d, db.settlements[i]))
    ensures DebitsPay(d) && PaidMeansDebited(d)
  {
    assert Ages(db.settlements[i], d.settlements[i]);
    assert ObligationPaid(d, d.settlements[i]) == ObligationPaid(d, db.settlements[i]);
  }

  /** What undoing the obligation of `s` does to the business objects: nothing else becomes paid or unpaid. */
  ghost predicate UndoesOnly(db: Database, s: Settlement, d: Database) {
    && !ObligationPaid(d, s)
    && (forall p :: p in d.slips && d.slips[p].status == PAID ==> p in db.slips && db.slips[p] == d.slips[p])
    && (forall q :: q in d.requests && d.requests[q].status == SETTLED ==> q in db.requests && db.requests[q] == d.requests[q])
    && (forall p :: p in db.slips && db.slips[p].status == PAID && !(s.sourceType == PAYSLIP && p == s.sourceId && db.slips[p].org == s.org) ==>
          p in d.slips && d.slips[p] == db.slips[p])
    && (forall q :: q in db.requests && db.requests[q].status == SETTLED && !(s.sourceType == PAYMENT_REQUEST && q == s.sourceId && db.requests[q].org == s.org) ==>
          q in d.requests && d.requests[q] == db.requests[q])
  }

  lemma ReverseBusinessUndoesOnly(db: Database, i: nat, providerStatus: string)
    requires i < |db.settlements| && SettlementSource(db.settlements[i].sourceType)
    requires ReverseBusiness(db, i, providerStatus).Committed?
    ensures UndoesOnly(db, db.settlements[i], ReverseBusiness(db, i, providerStatus).db)
  {
    var s := db.settlements[i];
    assert PAYMENT_REQUEST != PAYSLIP by { assert PAYMENT_REQUEST[0] != PAYSLIP[0]; }
    if s.sourceType == PAYMENT_REQUEST {
      RequestUndoesOnly(db, i, providerStatus);
    } else {
      PayslipUndoesOnly(db, i, providerStatus);
    }
  }

  lemma RequestUndoesOnly(db: Database, i: nat, providerStatus: string)
    requires i < |db.settlements| && db.settlements[i].sourceType == PAYMENT_REQUEST && PAYMENT_REQUEST != PAYSLIP
    requires ReverseBusiness(db, i, providerStatus).Committed?
    ensures UndoesOnly(db, db.settlements[i], ReverseBusiness(db, i, providerStatus).db)
  {
  }

  lemma PayslipUndoesOnly(db: Database, i: nat, providerStatus: string)
    requires i < |db.settlements| && db.settlements[i].sourceType == PAYSLIP && PAYMENT_REQUEST != PAYSLIP
    requires ReverseBusiness(db, i, providerStatus).Committed?
    ensures UndoesOnly(db, db.settlements[i], ReverseBusiness(db, i, providerStatus).db)
  {
  }

  lemma OthersKept(db: Database, i: nat, d: Database, j: nat)
    requires Sound(db) && i < |db.settlements| && j < |db.settlements| && i != j
    requires UndoesOnly(db, db.settlements[i], d)
    ensures ObligationPaid(d, db.settlements[j]) == ObligationPaid(db, db.settlements[j])
  {
    ObligationsDistinct(db, i, j);
    assert SettlementSound(db, j) && SettlementSound(db, i);
  }

  lemma ReverseBusinessKeepsRuns(db: Database, i: nat, providerStatus: string)
    requires i < |db.settlements| && SlipsPlaced(db) && RunsAgree(db) && ReverseBusiness(db, i, providerStatus).Committed?
    ensures var d := ReverseBusiness(db, i, providerStatus).db; SlipsPlaced(d) && RunsAgree(d)
  {
    var s := db.settlements[i];
    if s.sourceType == PAYSLIP && s.sourceType != PAYMENT_REQUEST {
      var undone :=
        if s.sourceId in db.slips && db.slips[s.sourceId].org == s.org && db.slips[s.sourceId].status == PAID
        then db.(slips := db.slips[s.sourceId := db.slips[s.sourceId].(status := UNDONE)]) else db;
      ReopenedRunsAgree(db, undone, s.sourceId);
    }
  }

  /** Reopening the run of a payslip keeps the agreement, whether or not that payslip stopped being paid. */
  lemma ReopenedRunsAgree(db: Database, undone: Database, slip: string)
    requires SlipsPlaced(db) && RunsAgree(db) && undone.runs == db.runs && undone.slips.Keys == db.slips.Keys
    requires forall p :: p in db.slips && p != slip ==> undone.slips[p] == db.slips[p]
    requires slip in db.slips ==> undone.slips[slip].run == db.slips[slip].run && undone.slips[slip].org == db.slips[slip].org
    ensures Aggregate(undone, slip, false).Ok? ==>
      SlipsPlaced(Aggregate(undone, slip, false).value) && RunsAgree(Aggregate(undone, slip, false).value)
  {
  }

  /** Undoing the obligation of a reversed settlement keeps the agreement. */
  lemma ReverseBusinessAgrees(db: Database, i: nat, providerStatus: string)
    requires Sound(db) && Agreed(db) && i < |db.settlements| && Phase(db, i) == Restored
    ensures match ReverseBusiness(db, i, providerStatus)
            case RolledBack(_) => true
            case Committed(d, _) =>
              && Agreed(d) && !ObligationPaid(d, db.settlements[i])
              && forall j :: 0 <= j < |db.settlements| && j != i ==> ObligationPaid(d, db.settlements[j]) == ObligationPaid(db, db.settlements[j])
  {
    match ReverseBusiness(db, i, providerStatus) {
      case RolledBack(_) =>
      case Committed(d, _) =>
        assert SettlementSound(db, i);
        ReverseBusinessIsSafe(db, i, providerStatus);
        ReverseBusinessKeepsRuns(db, i, providerStatus);
        ReverseBusinessUndoesOnly(db, i, providerStatus);
        UndoneAgrees(db, i, d);
    }
  }

  lemma UndoneAgrees(db: Database, i: nat, d: Database)
    requires Sound(db) && Agreed(db) && Evolves(db, d) && i < |db.settlements| && OnlyRow(db, d, i)
    requires Phase(d, i) == Restored && SlipsPlaced(d) && RunsAgree(d) && UndoesOnly(db, db.settlements[i], d)
    ensures Agreed(d)
    ensures forall j :: 0 <= j < |db.settlements| && j != i ==> ObligationPaid(d, db.settlements[j]) == ObligationPaid(db, db.settlements[j])
  {
    forall j | 0 <= j < |db.settlements| && j != i
      ensures ObligationPaid(d, db.settlements[j]) == ObligationPaid(db, db.settlements[j])
    {
      OthersKept(db, i, d, j);
    }
    PaidStaysSettled(db, d);
    OneRowAgrees(db, i, d);
  }
}
