/** The scanner and the protocol agree: a wallet that only the protocol has touched is clean, except for
    four conditions the protocol itself does not control. */
module ScannerAgreement {
  import opened Prelude
  import opened Records
  import opened Wallets
  import opened SettlementInvariant
  import opened Protocol
  import opened ProtocolRuns
  import opened Guarantees
  import opened IntegrityScanner
  import opened ScannerFindings

  function SettlementsOn(settlements: seq<Settlement>, w: nat): seq<Settlement> {
    if settlements == [] then []
    else
      var n := |settlements| - 1;
      SettlementsOn(settlements[..n], w) + (if settlements[n].wallet == w then [settlements[n]] else [])
  }

  /** What the scanner loads for wallet `w`. */
  function Scan(db: Database, w: nat): WalletScan
    requires w < |db.wallets|
  {
    var wallet := db.wallets[w];
    WalletScan(wallet.balance, wallet.reserved, wallet.currency, wallet.testTenant, RowsOf(db.ledger, w), SettlementsOn(db.settlements, w))
  }

  // ----- the rows of a wallet -----

  lemma {:induction false} RowsComeFromLedger(ledger: seq<Entry>, w: nat, k: nat) returns (n: nat)
    requires k < |RowsOf(ledger, w)|
    ensures n < |ledger| && ledger[n] == RowsOf(ledger, w)[k] && ledger[n].wallet == w
    ensures k < |RowsOf(ledger[..n + 1], w)| && |RowsOf(ledger[..n], w)| == k
  {
    var m := |ledger| - 1;
    if k < |RowsOf(ledger[..m], w)| {
      n := RowsComeFromLedger(ledger[..m], w, k);
      assert ledger[..m][..n + 1] == ledger[..n + 1] && ledger[..m][..n] == ledger[..n];
    } else {
      n := m;
      assert ledger[..n + 1] == ledger;
    }
  }

  lemma {:induction false} RowsGrow(ledger: seq<Entry>, w: nat, m: nat)
    requires m <= |ledger|
    ensures |RowsOf(ledger[..m], w)| <= |RowsOf(ledger, w)|
  {
    if m < |ledger| {
      assert ledger[..|ledger| - 1][..m] == ledger[..m];
      RowsGrow(ledger[..|ledger| - 1], w, m);
    } else {
      assert ledger[..m] == ledger;
    }
  }

  /** Two rows of a wallet are two rows of the ledger, in the same order. */
  lemma RowPair(ledger: seq<Entry>, w: nat, i: nat, j: nat) returns (m: nat, n: nat)
    requires i < j < |RowsOf(ledger, w)|
    ensures m < n < |ledger| && ledger[m] == RowsOf(ledger, w)[i] && ledger[n] == RowsOf(ledger, w)[j]
    ensures ledger[m].wallet == w && ledger[n].wallet == w
  {
    m := RowsComeFromLedger(ledger, w, i);
    n := RowsComeFromLedger(ledger, w, j);
    if n <= m {
      assert ledger[..m][..n] == ledger[..n];
      RowsGrow(ledger[..m], w, n);
    }
  }

  lemma RowsInOrder(db: Database, w: nat)
    requires Sound(db) && w < |db.wallets|
    ensures InOrder(RowsOf(db.ledger, w)) && Ordered(RowsOf(db.ledger, w)) == RowsOf(db.ledger, w)
  {
    var rows := RowsOf(db.ledger, w);
    forall i, j | 0 <= i < j < |rows| ensures Earlier(rows[i], rows[j]) {
      var m, n := RowPair(db.ledger, w, i, j);
      assert EntrySound(db, m) && EntrySound(db, n);
    }
    OrderedKeepsSorted(rows);
  }

  lemma {:induction false} TallyOnRows(ledger: seq<Entry>, w: nat, f: Entry -> int, g: Entry -> int)
    requires forall k :: 0 <= k < |ledger| ==> g(ledger[k]) == if ledger[k].wallet == w then f(ledger[k]) else 0
    ensures Tally(RowsOf(ledger, w), f) == Tally(ledger, g)
  {
    if ledger != [] {
      var n := |ledger| - 1;
      TallyOnRows(ledger[..n], w, f, g);
      if ledger[n].wallet == w { TallyAppend(RowsOf(ledger[..n], w), ledger[n], f); }
      else { assert RowsOf(ledger, w) == RowsOf(ledger[..n], w); }
    }
  }

  lemma {:induction false} TallyOnSettlements(settlements: seq<Settlement>, w: nat, f: Settlement -> int, g: Settlement -> int)
    requires forall k :: 0 <= k < |settlements| ==> g(settlements[k]) == if settlements[k].wallet == w then f(settlements[k]) else 0
    ensures Tally(SettlementsOn(settlements, w), f) == Tally(settlements, g)
  {
    if settlements != [] {
      var n := |settlements| - 1;
      TallyOnSettlements(settlements[..n], w, f, g);
      if settlements[n].wallet == w { TallyAppend(SettlementsOn(settlements[..n], w), settlements[n], f); }
      else { assert SettlementsOn(settlements, w) == SettlementsOn(settlements[..n], w); }
    }
  }

  lemma {:induction false} SettlementsComeFromTable(settlements: seq<Settlement>, w: nat, k: nat) returns (i: nat)
    requires k < |SettlementsOn(settlements, w)|
    ensures i < |settlements| && settlements[i] == SettlementsOn(settlements, w)[k] && settlements[i].wallet == w
  {
    var n := |settlements| - 1;
    if k < |SettlementsOn(settlements[..n], w)| {
      i := SettlementsComeFromTable(settlements[..n], w, k);
    } else {
      i := n;
    }
  }

  // ----- totals -----

  lemma {:induction false} NoCorrectionRows(rows: seq<Entry>)
    requires forall k :: 0 <= k < |rows| ==> rows[k].direction == CREDIT || rows[k].direction == DEBIT
    ensures Corrections(rows) == [] && Economic(rows) == rows
    ensures Reconstructed(rows) == Tally(rows, SignedRow())
  {
    if rows != [] {
      var init := rows[..|rows| - 1];
      NoCorrectionRows(init);
      assert rows == init + [rows[|rows| - 1]];
    }
  }

  function SignedRow(): Entry -> int {
    (e: Entry) => Signed(e)
  }

  lemma RowsDirected(db: Database, w: nat)
    requires Sound(db) && w < |db.wallets|
    ensures forall k :: 0 <= k < |RowsOf(db.ledger, w)| ==>
      RowsOf(db.ledger, w)[k].direction == CREDIT || RowsOf(db.ledger, w)[k].direction == DEBIT
  {
    forall k | 0 <= k < |RowsOf(db.ledger, w)|
      ensures RowsOf(db.ledger, w)[k].direction == CREDIT || RowsOf(db.ledger, w)[k].direction == DEBIT
    {
      var n := RowsComeFromLedger(db.ledger, w, k);
      assert EntrySound(db, n);
    }
  }

  lemma TotalsAgree(db: Database, w: nat)
    requires Sound(db) && w < |db.wallets|
    ensures TotalsHealthy(Scan(db, w), RowsOf(db.ledger, w))
  {
    var rows := RowsOf(db.ledger, w);
    assert WalletSound(db, w);
    RowsDirected(db, w);
    NoCorrectionRows(rows);
    ClosingIsTheSum(db.ledger, w);
    TallyOnRows(db.ledger, w, SignedRow(), SignedOn(w));
    forall k | 0 <= k < |db.settlements|
      ensures HeldOn(w)(db.settlements[k]) == if db.settlements[k].wallet == w then ActiveAmount()(db.settlements[k]) else 0
    {
      assert SettlementSound(db, k);
    }
    TallyOnSettlements(db.settlements, w, ActiveAmount(), HeldOn(w));
  }

  // ----- settlements -----

  /** A settlement is clean in the scanner's eyes exactly when its wallet stores a normalised currency and its
      own reference is not empty: the protocol takes care of the rest. */
  lemma SettlementAgrees(db: Database, w: nat, i: nat)
    requires Sound(db) && w < |db.wallets| && i < |db.settlements| && db.settlements[i].wallet == w
    ensures SettlementHealthy(db.settlements[i], RowsOf(db.ledger, w), db.wallets[w].currency)
       <==> db.wallets[w].currency == Normalize(db.wallets[w].currency)
            && (NeedsReference(db.settlements[i]) ==> db.settlements[i].internalReference != "")
  {
    var s := db.settlements[i];
    assert SettlementSound(db, i);
    TallyOnRows(db.ledger, w, OwnDebit(s), DebitsFor(w, s.sourceType, s.sourceId));
  }

  // ----- evidence identities -----

  /** Rows that the unique keys of the ledger keep apart have different identities, as long as kinds and source
      types are plain words. */
  lemma IdentitiesDiffer(d: Entry, e: Entry)
    requires !EntryClash(d, e) && d.org == e.org && d.wallet == e.wallet && PlainRow(d) && PlainRow(e)
    ensures Identity(d) != Identity(e)
  {
    if Identity(d) == Identity(e) {
      IdentitySays(d, e);
    }
  }

  lemma EvidenceAgrees(db: Database, w: nat)
    requires Sound(db) && w < |db.wallets|
    requires forall k :: 0 <= k < |db.ledger| && db.ledger[k].wallet == w ==> PlainRow(db.ledger[k])
    ensures !Duplicated(RowsOf(db.ledger, w))
  {
    var rows := RowsOf(db.ledger, w);
    forall i, j | 0 <= i < j < |rows| ensures Identity(rows[i]) != Identity(rows[j]) {
      var m, n := RowPair(db.ledger, w, i, j);
      assert EntrySound(db, m) && EntrySound(db, n);
      assert !EntryClash(db.ledger[m], db.ledger[n]);
      IdentitiesDiffer(db.ledger[m], db.ledger[n]);
    }
  }

  // ----- the agreement -----

  /** What the protocol leaves to others: how wallet currencies are stored, that references are not empty, and
      that rows posted from outside use plain words and keep test credits in test tenants. */
  ghost predicate WellKept(db: Database, w: nat)
    requires w < |db.wallets|
  {
    && db.wallets[w].currency == Normalize(db.wallets[w].currency)
    && (forall i :: 0 <= i < |db.settlements| && db.settlements[i].wallet == w ==> db.settlements[i].internalReference != "")
    && (forall k :: 0 <= k < |db.ledger| && db.ledger[k].wallet == w ==>
          PlainRow(db.ledger[k]) && (db.wallets[w].testTenant || db.ledger[k].kind != TEST_CREDIT))
  }

  /** In every run the scanner finds nothing at all on a well-kept wallet, in whatever state its settlements
      are: waiting, overwritten by stale news, released, debited or reversed. */
  lemma ReachableWalletsScanClean(sys: System, events: seq<Event>, w: nat)
    requires Initial(sys)
    requires w < |After(sys, events).db.wallets| && WellKept(After(sys, events).db, w)
    ensures Healthy(Scan(After(sys, events).db, w))
    ensures forall f :: !Detects(Scan(After(sys, events).db, w), f)
  {
    InitialInv(sys);
    RunsKeepInv(sys, events);
    SoundWalletScansClean(After(sys, events).db, w);
    SilentExactlyWhenHealthy(Scan(After(sys, events).db, w));
  }

  lemma SoundWalletScansClean(db: Database, w: nat)
    requires Sound(db) && w < |db.wallets| && WellKept(db, w)
    ensures Healthy(Scan(db, w))
  {
    var scan := Scan(db, w);
    RowsInOrder(db, w);
    TotalsAgree(db, w);
    EvidenceAgrees(db, w);
    forall k | 0 <= k < |scan.settlements| ensures SettlementHealthy(scan.settlements[k], scan.transactions, scan.currency) {
      var i := SettlementsComeFromTable(db.settlements, w, k);
      SettlementAgrees(db, w, i);
    }
    forall k | 0 <= k < |scan.transactions| ensures scan.testTenant || scan.transactions[k].kind != TEST_CREDIT {
      var n := RowsComeFromLedger(db.ledger, w, k);
    }
  }

  /** The condition on the currency is necessary: with any settlement on it, a wallet stored in lower case or
      with blanks is reported, however correct its money. */
  lemma UnnormalizedWalletIsReported(db: Database, w: nat, k: nat)
    requires Sound(db) && w < |db.wallets| && k < |SettlementsOn(db.settlements, w)|
    ensures Detects(Scan(db, w), SettlementFinding(k, WRONG_CURRENCY)) <==> db.wallets[w].currency != Normalize(db.wallets[w].currency)
  {
    var i := SettlementsComeFromTable(db.settlements, w, k);
    assert SettlementSound(db, i);
  }
}
