/** Each committed transaction keeps the invariant and moves the money phase of at most one settlement,
    along one legal edge. Each lemma also says which settlement, and to which phase. */
module TransactionSafety {
  import opened Prelude
  import opened Records
  import opened Wallets
  import opened Settlements
  import opened SettlementInvariant

  /** Only settlement `i` may differ between the two tables. */
  ghost predicate OnlyRow(db: Database, db': Database, i: nat) {
    && |db'.settlements| == |db.settlements|
    && (forall j :: 0 <= j < |db.settlements| && j != i ==>
          db'.settlements[j] == db.settlements[j] && Phase(db', j) == Phase(db, j))
  }

  ghost predicate SameMoney(db: Database, db': Database) {
    db'.wallets == db.wallets && db'.ledger == db.ledger
  }

  lemma SameKeysFit(db: Database, i: nat, t: Settlement)
    requires Sound(db) && i < |db.settlements|
    requires var s := db.settlements[i];
      && SameIdentity(s, t) && t.idempotencyKey == s.idempotencyKey && t.externalReference == s.externalReference
      && t.reversalReference == s.reversalReference && t.paystack == s.paystack && t.transferReference == s.transferReference
    ensures SettlementFits(db.settlements, i, t)
  {
    forall k | 0 <= k < |db.settlements| && k != i ensures !SettlementClash(db.settlements[k], t) {
      if k < i {
        assert !SettlementClash(db.settlements[k], db.settlements[i]);
      } else {
        assert !SettlementClash(db.settlements[i], db.settlements[k]);
      }
    }
  }

  /** Columns change, money does not. */
  lemma TouchIsSafe(db: Database, i: nat, t: Settlement, db': Database)
    requires Sound(db) && i < |db.settlements|
    requires db'.settlements == db.settlements[i := t] && SameMoney(db, db')
    requires var s := db.settlements[i];
      && Ages(s, t) && t.reservedAt == s.reservedAt && t.releasedAt == s.releasedAt
      && RowSound(t, Debits(db.ledger, s), Credits(db.ledger, s)) && SettlementFits(db.settlements, i, t)
    ensures Sound(db') && Evolves(db, db') && OnlyRow(db, db', i) && Phase(db', i) == Phase(db, i)
  {
    var s := db.settlements[i];
    assert SettlementSound(db, i);
    assert WalletSound(db, s.wallet);
    assert Moves(db, i, t, db.wallets[s.wallet], None, db');
    MovesKeepsSound(db, i, t, db.wallets[s.wallet], None, db');
    assert db'.ledger == db.ledger;
  }

  lemma MoveIsSafe(db: Database, i: nat, t: Settlement, after: Wallet, posted: Option<Entry>, db': Database)
    requires Sound(db) && i < |db.settlements| && db.settlements[i].wallet < |db.wallets|
    requires Moves(db, i, t, after, posted, db')
    ensures Sound(db') && Evolves(db, db') && OnlyRow(db, db', i)
    ensures Phase(db', i) == PhaseOf(t, Debits(db.ledger, db.settlements[i]) + Bump(posted, DEBIT),
                                     Credits(db.ledger, db.settlements[i]) + Bump(posted, CREDIT))
  {
    MovesKeepsSound(db, i, t, after, posted, db');
    CountsAfterPost(db.ledger, posted, db.settlements[i]);
  }

  lemma PrepareIsSafe(db: Database, source: Source, key: string, internalReference: string)
    requires Sound(db) && SettlementSource(source.sourceType)
    ensures match PrepareProvider(db, source, key, internalReference)
            case RolledBack(_) => true
            case Committed(d, acted) =>
              && Sound(d) && Evolves(db, d) && SameMoney(db, d)
              && (acted ==> |d.settlements| == |db.settlements| + 1 && d.settlements[..|db.settlements|] == db.settlements
                            && Phase(d, |db.settlements|) == Untouched)
              && (!acted ==> d == db)
  {
    match PrepareProvider(db, source, key, internalReference) {
      case RolledBack(_) =>
      case Committed(d, acted) =>
        if acted {
          NormalizeIdempotent(source.currency);
          JoinKeepsSound(db, Prepared(source, key, internalReference, Normalize(source.currency)), d);
        } else {
          EvolvesReflexive(db);
        }
    }
  }

  function ClaimedRow(s: Settlement): Settlement {
    s.(status := PROVIDER_PROCESSING, reservedAt := true, initiationClaimed := true, transferReference := Some(s.internalReference))
  }

  lemma HoldIsSafe(db: Database, i: nat, held: Wallet, d: Database)
    requires Sound(db) && i < |db.settlements| && db.settlements[i].wallet < |db.wallets|
    requires var s := db.settlements[i];
      && s.status == PREPARED && Reserve(db.wallets[s.wallet], s.org, s.amount, s.currency) == Ok(held)
      && d.settlements == db.settlements[i := ClaimedRow(s)] && d.wallets == db.wallets[s.wallet := held] && d.ledger == db.ledger
      && SettlementFits(db.settlements, i, ClaimedRow(s))
    ensures Sound(d) && Evolves(db, d) && OnlyRow(db, d, i) && Phase(db, i) == Untouched && Phase(d, i) == Held
  {
    var s := db.settlements[i];
    assert SettlementSound(db, i) && WalletSound(db, s.wallet);
    assert db.ledger + Posted(None) == db.ledger;
    MoveIsSafe(db, i, ClaimedRow(s), held, None, d);
  }

  lemma ReserveAndClaimIsSafe(db: Database, org: string, i: nat)
    requires Sound(db)
    ensures match ReserveAndClaim(db, org, i)
            case RolledBack(_) => true
            case Committed(d, acted) =>
              && Sound(d) && Evolves(db, d) && OnlyRow(db, d, i) && d.ledger == db.ledger
              && i < |db.settlements|
              && (acted ==> !db.settlements[i].initiationClaimed && d.settlements[i].initiationClaimed && Phase(d, i) == Held
                            && d.settlements[i].via == PROVIDER
                            && d.settlements[i].initiationAttempted == db.settlements[i].initiationAttempted)
              && (!acted ==> d.settlements[i].initiationClaimed == db.settlements[i].initiationClaimed
                             && d.settlements[i].initiationAttempted == db.settlements[i].initiationAttempted)
  {
    match ReserveAndClaim(db, org, i) {
      case RolledBack(_) =>
      case Committed(d, acted) =>
        if db.settlements[i].status == PREPARED {
          PreparedClaimIsSafe(db, org, i);
        } else if acted {
          LateClaimIsSafe(db, i, d);
        } else {
          EvolvesReflexive(db);
        }
    }
  }

  /** A RESERVED row that nobody claimed yet. */
  lemma LateClaimIsSafe(db: Database, i: nat, d: Database)
    requires Sound(db) && i < |db.settlements| && ClaimInitiation(db, i) == Committed(d, true)
    ensures Sound(d) && Evolves(db, d) && OnlyRow(db, d, i) && d.ledger == db.ledger && Phase(d, i) == Held
    ensures !db.settlements[i].initiationClaimed && d.settlements[i].initiationClaimed && d.settlements[i].via == PROVIDER
    ensures d.settlements[i].initiationAttempted == db.settlements[i].initiationAttempted
  {
    assert SettlementSound(db, i);
    TouchIsSafe(db, i, d.settlements[i], d);
  }

  lemma PreparedClaimIsSafe(db: Database, org: string, i: nat)
    requires Sound(db) && i < |db.settlements| && db.settlements[i].status == PREPARED && ReserveAndClaim(db, org, i).Committed?
    ensures var d := ReserveAndClaim(db, org, i).db;
      && Sound(d) && Evolves(db, d) && OnlyRow(db, d, i) && d.ledger == db.ledger && Phase(d, i) == Held
      && !db.settlements[i].initiationClaimed && d.settlements[i].initiationClaimed && d.settlements[i].via == PROVIDER
      && d.settlements[i].initiationAttempted == db.settlements[i].initiationAttempted && ReserveAndClaim(db, org, i).acted
  {
    var s, d := db.settlements[i], ReserveAndClaim(db, org, i).db;
    assert SettlementSound(db, i);
    PreparedClaimWrites(db, org, i);
    HoldIsSafe(db, i, Reserve(db.wallets[s.wallet], org, s.amount, s.currency).value, d);
  }

  lemma PreparedClaimWrites(db: Database, org: string, i: nat)
    requires i < |db.settlements| && db.settlements[i].status == PREPARED && !db.settlements[i].initiationClaimed
    requires ReserveAndClaim(db, org, i).Committed?
    ensures var s, o := db.settlements[i], ReserveAndClaim(db, org, i);
      && s.org == org && s.wallet < |db.wallets| && Reserve(db.wallets[s.wallet], org, s.amount, s.currency).Ok? && o.acted
      && o.db == db.(wallets := db.wallets[s.wallet := Reserve(db.wallets[s.wallet], org, s.amount, s.currency).value],
                     settlements := db.settlements[i := ClaimedRow(s)])
      && forall k :: 0 <= k < |db.settlements| && k != i ==> !SettlementClash(db.settlements[k], ClaimedRow(s))
  {
    var s := db.settlements[i];
    var marked := db.settlements[i := s.(status := RESERVED, reservedAt := true, transferReference := Some(s.internalReference))];
    assert marked[i := ClaimedRow(s)] == db.settlements[i := ClaimedRow(s)];
    assert forall k :: 0 <= k < |db.settlements| && k != i ==> marked[k] == db.settlements[k];
  }

  lemma DebitIsSafe(db: Database, i: nat, after: Wallet, t: Settlement, d: Database)
    requires Sound(db) && i < |db.settlements| && db.settlements[i].wallet < |db.wallets|
    requires var s := db.settlements[i];
      && Active(s.status) && s.reservedAt && !s.releasedAt && s.transferReference.Some?
      && Consume(db.wallets[s.wallet], s.org, s.amount, s.currency) == Ok(after)
      && EntryFits(db.ledger, ProviderDebit(db, s, after))
      && t == s.(status := SUCCEEDED, releasedAt := true, providerStatus := t.providerStatus, transferCode := t.transferCode)
      && d.settlements == db.settlements[i := t] && d.wallets == db.wallets[s.wallet := after]
      && d.ledger == db.ledger + [ProviderDebit(db, s, after)]
    ensures Sound(d) && Evolves(db, d) && OnlyRow(db, d, i) && Phase(db, i) == Held && Phase(d, i) == Debited
  {
    var s := db.settlements[i];
    assert SettlementSound(db, i) && WalletSound(db, s.wallet);
    var e := ProviderDebit(db, s, after);
    SameKeysFit(db, i, t);
    assert [e] == Posted(Some(e));
    MoveIsSafe(db, i, t, after, Some(e), d);
  }

  lemma FinalizeIsSafe(db: Database, i: nat, result: TransferResult)
    requires Sound(db)
    ensures match FinalizeSuccess(db, i, result)
            case RolledBack(_) => true
            case Committed(d, acted) =>
              && Sound(d) && Evolves(db, d) && OnlyRow(db, d, i) && i < |db.settlements|
              && d.settlements[i].initiationClaimed == db.settlements[i].initiationClaimed
              && d.settlements[i].initiationAttempted == db.settlements[i].initiationAttempted
              && (acted ==> Phase(db, i) == Held && Phase(d, i) == Debited && Matches(db.settlements[i], result)
                            && |d.ledger| == |db.ledger| + 1)
              && (!acted ==> d == db)
  {
    match FinalizeSuccess(db, i, result) {
      case RolledBack(_) =>
      case Committed(d, acted) =>
        if acted {
          var s := db.settlements[i];
          var after := Consume(db.wallets[s.wallet], s.org, s.amount, s.currency).value;
          MarkPaidKeepsMoney(Post(SetWallet(db, s.wallet, after), ProviderDebit(db, s, after)).value, s);
          DebitIsSafe(db, i, after, d.settlements[i], d);
        } else {
          EvolvesReflexive(db);
        }
    }
  }

  lemma MarkPaidKeepsMoney(db: Database, s: Settlement)
    ensures MarkPaid(db, s).Ok? ==> SameMoney(db, MarkPaid(db, s).value) && MarkPaid(db, s).value.settlements == db.settlements
  {
  }

  lemma ReleaseIsSafe(db: Database, org: string, i: nat)
    requires Sound(db)
    ensures match ReleaseReservation(db, org, i)
            case RolledBack(_) => true
            case Committed(d, acted) =>
              && Sound(d) && Evolves(db, d) && OnlyRow(db, d, i) && d.ledger == db.ledger && i < |db.settlements|
              && d.settlements[i].initiationClaimed == db.settlements[i].initiationClaimed
              && d.settlements[i].initiationAttempted == db.settlements[i].initiationAttempted
              && (acted ==> Phase(db, i) == Held && Phase(d, i) == Released)
              && (!acted ==> d == db)
  {
    match ReleaseReservation(db, org, i) {
      case RolledBack(_) =>
      case Committed(d, acted) =>
        if acted {
          ReleaseWrites(db, org, i);
          ReleasedIsSafe(db, i, Release(db.wallets[db.settlements[i].wallet], org, db.settlements[i].amount, db.settlements[i].currency).value, d);
        } else {
          EvolvesReflexive(db);
        }
    }
  }

  lemma ReleaseWrites(db: Database, org: string, i: nat)
    requires ReleaseReservation(db, org, i).Committed? && ReleaseReservation(db, org, i).acted
    ensures i < |db.settlements|
    ensures var s, d := db.settlements[i], ReleaseReservation(db, org, i).db;
      && s.org == org && s.wallet < |db.wallets| && Active(s.status) && s.reservedAt && !s.releasedAt
      && Release(db.wallets[s.wallet], org, s.amount, s.currency).Ok?
      && d == db.(wallets := db.wallets[s.wallet := Release(db.wallets[s.wallet], org, s.amount, s.currency).value],
                  settlements := db.settlements[i := s.(status := FAILED, releasedAt := true)])
  {
  }

  lemma ReleasedIsSafe(db: Database, i: nat, after: Wallet, d: Database)
    requires Sound(db) && i < |db.settlements| && db.settlements[i].wallet < |db.wallets|
    requires var s := db.settlements[i];
      && Active(s.status) && s.reservedAt && !s.releasedAt
      && Release(db.wallets[s.wallet], s.org, s.amount, s.currency) == Ok(after)
      && d == db.(wallets := db.wallets[s.wallet := after], settlements := db.settlements[i := s.(status := FAILED, releasedAt := true)])
    ensures Sound(d) && Evolves(db, d) && OnlyRow(db, d, i) && Phase(db, i) == Held && Phase(d, i) == Released
  {
    assert SettlementSound(db, i) && WalletSound(db, db.settlements[i].wallet);
    SameKeysFit(db, i, d.settlements[i]);
    assert db.ledger + Posted(None) == db.ledger;
    MoveIsSafe(db, i, d.settlements[i], after, None, d);
  }

  lemma ReversalIsSafe(db: Database, i: nat, reference: string, original: nat, d: Database)
    requires Sound(db) && i < |db.settlements| && db.settlements[i].wallet < |db.wallets|
    requires db.settlements[i].status == SUCCEEDED && db.settlements[i].via == PROVIDER
    requires var s := db.settlements[i];
      var w := db.wallets[s.wallet];
      var e := ReversalCredit(db, s, w.balance, reference, original);
      var t := s.(status := REVERSED, reversalReference := Some(reference), reversalLedger := Some(|db.ledger|));
      && EntryFits(db.ledger, e) && SettlementFits(db.settlements, i, t)
      && d.wallets == db.wallets[s.wallet := w.(balance := w.balance + s.amount)]
      && d.ledger == db.ledger + [e] && d.settlements == db.settlements[i := t]
    ensures Sound(d) && Evolves(db, d) && OnlyRow(db, d, i) && Phase(db, i) == Debited && Phase(d, i) == Restored
  {
    var s := db.settlements[i];
    var w := db.wallets[s.wallet];
    assert SettlementSound(db, i) && WalletSound(db, s.wallet);
    var e := ReversalCredit(db, s, w.balance, reference, original);
    assert [e] == Posted(Some(e));
    MoveIsSafe(db, i, d.settlements[i], w.(balance := w.balance + s.amount), Some(e), d);
  }

  /** Only a provider settlement is ever handed to the reversal. */
  lemma ReverseIsSafe(db: Database, org: string, i: nat, reference: string)
    requires Sound(db) && (i < |db.settlements| ==> db.settlements[i].via == PROVIDER)
    ensures match ReverseSucceeded(db, org, i, reference)
            case RolledBack(_) => true
            case Committed(d, acted) =>
              && Sound(d) && Evolves(db, d) && OnlyRow(db, d, i) && i < |db.settlements|
              && d.settlements[i].initiationClaimed == db.settlements[i].initiationClaimed
              && d.settlements[i].initiationAttempted == db.settlements[i].initiationAttempted
              && (acted ==> Phase(db, i) == Debited && Phase(d, i) == Restored)
              && (!acted ==> d == db && Phase(db, i) == Restored)
              && d.slips == db.slips && d.runs == db.runs && d.requests == db.requests
  {
    match ReverseSucceeded(db, org, i, reference) {
      case RolledBack(_) =>
      case Committed(d, acted) =>
        assert SettlementSound(db, i);
        ReversalKeepsBusiness(db, org, i, reference);
        if acted {
          ReversalIsSafe(db, i, reference, FirstDebit(db.ledger, db.settlements[i]).value, d);
        } else {
          EvolvesReflexive(db);
        }
    }
  }

  lemma ReversalKeepsBusiness(db: Database, org: string, i: nat, reference: string)
    requires ReverseSucceeded(db, org, i, reference).Committed?
    ensures var d := ReverseSucceeded(db, org, i, reference).db;
      d.slips == db.slips && d.runs == db.runs && d.requests == db.requests
  {
  }

  lemma ReverseBusinessIsSafe(db: Database, i: nat, providerStatus: string)
    requires Sound(db)
    ensures match ReverseBusiness(db, i, providerStatus)
            case RolledBack(_) => true
            case Committed(d, _) =>
              && Sound(d) && Evolves(db, d) && OnlyRow(db, d, i) && SameMoney(db, d) && i < |db.settlements|
              && Phase(d, i) == Phase(db, i)
              && d.settlements[i] == db.settlements[i].(providerStatus := Some(providerStatus))
  {
    match ReverseBusiness(db, i, providerStatus) {
      case RolledBack(_) =>
      case Committed(d, _) =>
        ReverseBusinessWrites(db, i, providerStatus);
        StatusTextIsSafe(db, i, providerStatus, d);
    }
  }

  lemma ReverseBusinessWrites(db: Database, i: nat, providerStatus: string)
    requires ReverseBusiness(db, i, providerStatus).Committed?
    ensures var d := ReverseBusiness(db, i, providerStatus).db;
      && i < |db.settlements| && d.wallets == db.wallets && d.ledger == db.ledger
      && d.settlements == db.settlements[i := db.settlements[i].(providerStatus := Some(providerStatus))]
  {
  }

  lemma StatusTextIsSafe(db: Database, i: nat, providerStatus: string, d: Database)
    requires Sound(db) && i < |db.settlements| && d.wallets == db.wallets && d.ledger == db.ledger
    requires d.settlements == db.settlements[i := db.settlements[i].(providerStatus := Some(providerStatus))]
    ensures Sound(d) && Evolves(db, d) && OnlyRow(db, d, i) && Phase(d, i) == Phase(db, i)
  {
    var t := db.settlements[i].(providerStatus := Some(providerStatus));
    assert SettlementSound(db, i);
    SameKeysFit(db, i, t);
    TouchIsSafe(db, i, t, d);
  }

  /** A manual settlement that pays what its settlement row says, from that row's wallet. */
  ghost predicate SameObligation(db: Database, source: Source) {
    match FindSource(db.settlements, source.org, source.sourceType, source.sourceId)
    case None => true
    case Some(i) => db.settlements[i].amount == source.amount && db.settlements[i].wallet == source.wallet
  }

  ghost predicate ManualSafe(db: Database, d: Database, i: nat) {
    && Sound(d) && Evolves(db, d) && i <= |db.settlements| && i < |d.settlements|
    && |d.settlements| == (if i < |db.settlements| then |db.settlements| else i + 1)
    && (i < |db.settlements| ==> Phase(db, i) == Untouched) && Phase(d, i) == Debited
    && d.settlements[i].via == MANUAL && !d.settlements[i].initiationClaimed
    && (i < |db.settlements| ==> d.settlements[i].initiationAttempted == db.settlements[i].initiationAttempted)
    && (forall j :: 0 <= j < |db.settlements| && j != i ==> d.settlements[j] == db.settlements[j] && Phase(d, j) == Phase(db, j))
  }

  lemma ManualIsSafe(db: Database, source: Source, key: string, externalReference: string, internalReference: string)
    requires Sound(db) && SettlementSource(source.sourceType) && SameObligation(db, source)
    ensures match CompleteManual(db, source, key, externalReference, internalReference)
            case RolledBack(_) => true
            case Committed(d, acted) =>
              && Sound(d) && Evolves(db, d)
              && (!acted ==> d == db)
              && (acted ==> ManualSafe(db, d, ManualTarget(db, source, key, externalReference, internalReference).value.0))
              && d.slips == db.slips && d.runs == db.runs && d.requests == db.requests
  {
    match CompleteManual(db, source, key, externalReference, internalReference) {
      case RolledBack(_) =>
      case Committed(d, acted) =>
        if !acted {
          EvolvesReflexive(db);
        } else {
          var (i, row) := ManualTarget(db, source, key, externalReference, internalReference).value;
          ManualTargetIs(db, source, key, externalReference, internalReference);
          ManualWritesPay(db, source, i, row, externalReference);
          if i < |db.settlements| {
            ManualOnOldRow(db, source, i, row, externalReference, d);
          } else {
            ManualOnNewRow(db, source, key, row, externalReference, d);
          }
        }
    }
  }

  /** The row a manual settlement is written to: the prepared row of its obligation, or a new one. */
  lemma ManualTargetIs(db: Database, source: Source, key: string, externalReference: string, internalReference: string)
    requires ManualTarget(db, source, key, externalReference, internalReference).Ok?
    ensures var (i, row) := ManualTarget(db, source, key, externalReference, internalReference).value;
      if i < |db.settlements| then
        && FindSource(db.settlements, source.org, source.sourceType, source.sourceId) == Some(i)
        && db.settlements[i].via == PROVIDER && db.settlements[i].status == PREPARED && row == ManualRow(db.settlements[i], key, externalReference)
      else row == ManualRow(Prepared(source, key, row.internalReference, Normalize(source.currency)), key, externalReference)
  {
  }

  lemma ManualOnOldRow(db: Database, source: Source, i: nat, row: Settlement, externalReference: string, d: Database)
    requires Sound(db) && SameObligation(db, source) && i < |db.settlements|
    requires FindSource(db.settlements, source.org, source.sourceType, source.sourceId) == Some(i)
    requires db.settlements[i].status == PREPARED && row == ManualRow(db.settlements[i], row.idempotencyKey, externalReference)
    requires SettlementFits(db.settlements, i, row) && ManualPays(db, source, row, externalReference, d)
    requires d.settlements == db.settlements[i := row.(status := SUCCEEDED, releasedAt := true)]
    ensures ManualSafe(db, d, i)
  {
    assert SettlementSound(db, i);
    ManualDebitIsSafe(db, source, i, row, externalReference, d);
  }

  /** What the committed writes of a manual settlement amount to. */
  lemma ManualWritesPay(db: Database, source: Source, i: nat, row: Settlement, externalReference: string)
    requires i <= |db.settlements| && ManualWrites(db, source, i, row, externalReference).Ok?
    ensures var d := ManualWrites(db, source, i, row, externalReference).value;
      var done := row.(status := SUCCEEDED, releasedAt := true);
      && SettlementFits(db.settlements, i, row) && ManualPays(db, source, row, externalReference, d)
      && d.settlements == (if i < |db.settlements| then db.settlements[i := done] else db.settlements + [done])
      && d.slips == db.slips && d.runs == db.runs && d.requests == db.requests
  {
  }

  lemma ManualOnNewRow(db: Database, source: Source, key: string, row: Settlement, externalReference: string, d: Database)
    requires Sound(db) && SettlementSource(source.sourceType)
    requires row == ManualRow(Prepared(source, key, row.internalReference, Normalize(source.currency)), key, externalReference)
    requires SettlementFits(db.settlements, |db.settlements|, row)
    requires ManualPays(db, source, row, externalReference, d)
    requires d.settlements == db.settlements + [row.(status := SUCCEEDED, releasedAt := true)]
    ensures ManualSafe(db, d, |db.settlements|)
  {
    var i := |db.settlements|;
    var newRow := Prepared(source, key, row.internalReference, Normalize(source.currency));
    var joined := db.(settlements := db.settlements + [newRow]);
    NewRowJoins(db, source, key, row, externalReference, joined);
    assert d.settlements == joined.settlements[i := d.settlements[i]];
    ManualDebitIsSafe(joined, source, i, row, externalReference, d);
    JoinedThenMoved(db, joined, d);
  }

  /** The row as it joins before it is paid. */
  lemma NewRowJoins(db: Database, source: Source, key: string, row: Settlement, externalReference: string, joined: Database)
    requires Sound(db) && SettlementSource(source.sourceType) && WalletRow(db, source.wallet, source.org).Ok?
    requires Reserve(db.wallets[source.wallet], source.org, source.amount, Normalize(source.currency)).Ok?
    requires row == ManualRow(Prepared(source, key, row.internalReference, Normalize(source.currency)), key, externalReference)
    requires SettlementFits(db.settlements, |db.settlements|, row)
    requires joined == db.(settlements := db.settlements + [Prepared(source, key, row.internalReference, Normalize(source.currency))])
    ensures Sound(joined) && Evolves(db, joined) && SettlementFits(joined.settlements, |db.settlements|, row)
    ensures forall j :: 0 <= j < |db.settlements| ==> joined.settlements[j] == db.settlements[j] && Phase(joined, j) == Phase(db, j)
    ensures Phase(joined, |db.settlements|) == Untouched
  {
    var newRow := Prepared(source, key, row.internalReference, Normalize(source.currency));
    NormalizeIdempotent(source.currency);
    forall k | 0 <= k < |db.settlements| ensures !SettlementClash(db.settlements[k], newRow) {
      assert !SettlementClash(db.settlements[k], row);
    }
    JoinKeepsSound(db, newRow, joined);
  }

  lemma JoinedThenMoved(db: Database, joined: Database, d: Database)
    requires Sound(d) && Evolves(db, joined) && Evolves(joined, d) && OnlyRow(joined, d, |db.settlements|)
    requires |joined.settlements| == |db.settlements| + 1
    requires forall j :: 0 <= j < |db.settlements| ==> joined.settlements[j] == db.settlements[j] && Phase(joined, j) == Phase(db, j)
    requires Phase(d, |db.settlements|) == Debited && d.settlements[|db.settlements|].via == MANUAL && !d.settlements[|db.settlements|].initiationClaimed
    ensures ManualSafe(db, d, |db.settlements|)
  {
    forall j | 0 <= j < |db.settlements|
      ensures d.settlements[j] == db.settlements[j] && Phase(d, j) == Phase(db, j)
    {
      assert joined.settlements[j] == db.settlements[j] && Phase(joined, j) == Phase(db, j);
    }
  }

  /** The money part of a manual settlement: reserved and consumed at once, with its debit row. */
  ghost predicate ManualPays(db: Database, source: Source, row: Settlement, externalReference: string, d: Database) {
    && WalletRow(db, source.wallet, source.org).Ok?
    && var w := db.wallets[source.wallet];
       var c := Normalize(source.currency);
       && Reserve(w, source.org, source.amount, c).Ok?
       && Consume(Reserve(w, source.org, source.amount, c).value, source.org, source.amount, c).Ok?
       && var after := Consume(Reserve(w, source.org, source.amount, c).value, source.org, source.amount, c).value;
          var e := ManualDebit(db, source, after, row.internalReference, externalReference);
          EntryFits(db.ledger, e) && d.ledger == db.ledger + [e] && d.wallets == db.wallets[source.wallet := after]
  }

  lemma ManualDebitIsSafe(db: Database, source: Source, i: nat, row: Settlement, externalReference: string, d: Database)
    requires Sound(db) && i < |db.settlements|
    requires var s := db.settlements[i];
      && s.status == PREPARED && s.wallet == source.wallet && s.amount == source.amount && s.org == source.org
      && s.sourceType == source.sourceType && s.sourceId == source.sourceId
      && row == ManualRow(s, row.idempotencyKey, externalReference)
    requires SettlementFits(db.settlements, i, row)
    requires ManualPays(db, source, row, externalReference, d)
    requires d.settlements == db.settlements[i := row.(status := SUCCEEDED, releasedAt := true)]
    ensures Sound(d) && Evolves(db, d) && OnlyRow(db, d, i) && Phase(db, i) == Untouched && Phase(d, i) == Debited
  {
    var s := db.settlements[i];
    var w := db.wallets[source.wallet];
    var c := Normalize(source.currency);
    assert SettlementSound(db, i) && WalletSound(db, s.wallet);
    var after := Consume(Reserve(w, source.org, source.amount, c).value, source.org, source.amount, c).value;
    var e := ManualDebit(db, source, after, row.internalReference, externalReference);
    assert [e] == Posted(Some(e));
    var t := row.(status := SUCCEEDED, releasedAt := true);
    CompletedFits(db, i, row);
    MoveIsSafe(db, i, t, after, Some(e), d);
  }

  /** Completing a row takes no new unique key. */
  lemma CompletedFits(db: Database, i: nat, row: Settlement)
    requires SettlementFits(db.settlements, i, row)
    ensures forall k :: 0 <= k < |db.settlements| && k != i ==> !SettlementClash(db.settlements[k], row.(status := SUCCEEDED, releasedAt := true))
  {
    forall k | 0 <= k < |db.settlements| && k != i ensures !SettlementClash(db.settlements[k], row.(status := SUCCEEDED, releasedAt := true)) {
      assert !SettlementClash(db.settlements[k], row);
    }
  }

  /** An unguarded write: harmless to money whatever the row has become meanwhile. */
  lemma OverwriteIsSafe(db: Database, i: nat, status: Option<Status>, providerStatus: Option<string>, code: Option<string>)
    requires Sound(db) && i < |db.settlements|
    requires status.Some? ==> db.settlements[i].reservedAt && (status.value == PROVIDER_PROCESSING || status.value == UNKNOWN)
    ensures var d := Overwrite(db, i, status, providerStatus, code).db;
            && Sound(d) && Evolves(db, d) && OnlyRow(db, d, i) && SameMoney(db, d) && Phase(d, i) == Phase(db, i)
            && d.settlements[i].initiationClaimed == db.settlements[i].initiationClaimed
            && d.settlements[i].initiationAttempted == db.settlements[i].initiationAttempted
  {
    var d := Overwrite(db, i, status, providerStatus, code).db;
    assert SettlementSound(db, i);
    SameKeysFit(db, i, d.settlements[i]);
    TouchIsSafe(db, i, d.settlements[i], d);
  }

  lemma SetRecipientIsSafe(db: Database, i: nat, recipient: string)
    requires Sound(db) && i < |db.settlements|
    ensures var d := SetRecipient(db, i, recipient).db;
            && Sound(d) && Evolves(db, d) && OnlyRow(db, d, i) && SameMoney(db, d) && Phase(d, i) == Phase(db, i)
  {
    var d := SetRecipient(db, i, recipient).db;
    assert SettlementSound(db, i);
    SameKeysFit(db, i, d.settlements[i]);
    TouchIsSafe(db, i, d.settlements[i], d);
  }

  lemma MarkAttemptedIsSafe(db: Database, i: nat)
    requires Sound(db) && i < |db.settlements|
    ensures var d := MarkAttempted(db, i).db;
            && Sound(d) && Evolves(db, d) && OnlyRow(db, d, i) && SameMoney(db, d) && Phase(d, i) == Phase(db, i)
  {
    var d := MarkAttempted(db, i).db;
    assert SettlementSound(db, i);
    SameKeysFit(db, i, d.settlements[i]);
    TouchIsSafe(db, i, d.settlements[i], d);
  }

  lemma ExternalIsSafe(db: Database, x: External)
    requires Sound(db) && (x.sourceType.Some? ==> !SettlementSource(x.sourceType.value))
    ensures match PostExternal(db, x)
            case RolledBack(_) => true
            case Committed(d, _) =>
              && Sound(d) && Evolves(db, d) && d.settlements == db.settlements
              && (forall j :: 0 <= j < |db.settlements| ==> Phase(d, j) == Phase(db, j))
              && d.slips == db.slips && d.runs == db.runs && d.requests == db.requests
  {
    match PostExternal(db, x) {
      case RolledBack(_) =>
      case Committed(d, _) =>
        var w := db.wallets[x.wallet];
        assert WalletSound(db, x.wallet);
        var after := d.wallets[x.wallet];
        ExternalKeepsSound(db, x.wallet, after, ExternalEntry(db, x, w.balance), d);
    }
  }
}
