/** What every transaction keeps: the ledger chain, the reservation total, unique evidence, and for each
    settlement the link between its columns and its ledger rows. The money phase of a settlement is read
    off that evidence alone; its `status` column plays no part, because it can be overwritten. */
module SettlementInvariant {
  import opened Prelude
  import opened Records
  import opened Wallets

  datatype MoneyPhase = Untouched | Held | Released | Debited | Restored

  // ----- evidence -----

  function RowsOf(ledger: seq<Entry>, wallet: nat): seq<Entry> {
    if ledger == [] then []
    else
      var n := |ledger| - 1;
      RowsOf(ledger[..n], wallet) + (if ledger[n].wallet == wallet then [ledger[n]] else [])
  }

  function HeldOn(wallet: nat): Settlement -> int {
    (s: Settlement) => if s.wallet == wallet && s.reservedAt && !s.releasedAt then s.amount else 0
  }

  function DebitsFor(wallet: nat, sourceType: string, sourceId: string): Entry -> int {
    (e: Entry) => if e.wallet == wallet && e.direction == DEBIT && e.sourceType == Some(sourceType) && e.sourceId == Some(sourceId) then 1 else 0
  }

  function CreditsFor(wallet: nat, sourceType: string, sourceId: string): Entry -> int {
    (e: Entry) => if e.wallet == wallet && e.direction == CREDIT && e.sourceType == Some(sourceType) && e.sourceId == Some(sourceId) then 1 else 0
  }

  function Debits(ledger: seq<Entry>, s: Settlement): int {
    Tally(ledger, DebitsFor(s.wallet, s.sourceType, s.sourceId))
  }

  function Credits(ledger: seq<Entry>, s: Settlement): int {
    Tally(ledger, CreditsFor(s.wallet, s.sourceType, s.sourceId))
  }

  function PhaseOf(s: Settlement, debits: int, credits: int): MoneyPhase {
    if credits > 0 then Restored
    else if debits > 0 then Debited
    else if s.releasedAt then Released
    else if s.reservedAt then Held
    else Untouched
  }

  function Phase(db: Database, i: nat): MoneyPhase
    requires i < |db.settlements|
  {
    PhaseOf(db.settlements[i], Debits(db.ledger, db.settlements[i]), Credits(db.ledger, db.settlements[i]))
  }

  /** The legal moves of the money phase when row `s` becomes row `t`. Only a provider settlement is held,
      released or restored, and only from SUCCEEDED is money given back. */
  predicate Edge(s: Settlement, before: MoneyPhase, t: Settlement, after: MoneyPhase) {
    || before == after
    || (before == Untouched && after == Debited && t.via == MANUAL)
    || (t.via == PROVIDER && (
         || (before == Untouched && after == Held)
         || (before == Held && after == Debited)
         || (before == Held && after == Released)
         || (before == Debited && after == Restored && s.status == SUCCEEDED)))
  }

  // ----- the invariant -----

  ghost predicate Chained(rows: seq<Entry>) {
    && (forall k :: 0 <= k < |rows| ==> rows[k].after == rows[k].before + Signed(rows[k]))
    && (|rows| > 0 ==> rows[0].before == 0)
    && (forall j, k :: 0 <= j < |rows| && k == j + 1 && k < |rows| ==> rows[k].before == rows[j].after)
  }

  function Closing(rows: seq<Entry>): int {
    if rows == [] then 0 else rows[|rows| - 1].after
  }

  ghost predicate WalletSound(db: Database, w: nat)
    requires w < |db.wallets|
  {
    && Chained(RowsOf(db.ledger, w))
    && db.wallets[w].balance == Closing(RowsOf(db.ledger, w))
    && db.wallets[w].reserved == Tally(db.settlements, HeldOn(w))
    && 0 <= db.wallets[w].reserved <= db.wallets[w].balance
  }

  /** The columns of a settlement against the number of its debit and credit rows. */
  predicate RowSound(s: Settlement, debits: int, credits: int) {
    && 0 <= credits <= debits <= 1
    && (s.releasedAt ==> s.reservedAt)
    && (debits == 1 ==> s.releasedAt)
    && (s.reservedAt ==> s.amount >= 0)
    && (!s.reservedAt <==> s.status == PREPARED)
    && (!s.reservedAt ==> s.via == PROVIDER && s.transferReference.None? && !s.initiationClaimed)
    && (s.reservedAt && !s.releasedAt ==> Active(s.status))
    && (s.status == SUCCEEDED ==> debits == 1 && credits == 0)
    && (s.status == FAILED ==> s.releasedAt && debits == 0)
    && (s.status == REVERSED ==> credits == 1 && s.reversalLedger.Some?)
    && (s.status == RESERVED ==> !s.releasedAt)
    && (s.via == PROVIDER ==> s.paystack)
    && (s.reservedAt && s.via == PROVIDER ==> s.transferReference == Some(s.internalReference))
    && (s.via == MANUAL ==> debits == 1 && credits == 0 && s.transferReference.None?)
  }

  ghost predicate SettlementSound(db: Database, i: nat)
    requires i < |db.settlements|
  {
    var s := db.settlements[i];
    && s.wallet < |db.wallets| && db.wallets[s.wallet].org == s.org
    && SettlementSource(s.sourceType)
    && s.currency == Normalize(db.wallets[s.wallet].currency)
    && RowSound(s, Debits(db.ledger, s), Credits(db.ledger, s))
  }

  /** Each ledger row: well placed, signed, and, when it names a settlement source, owned by a settlement. */
  ghost predicate EntrySound(db: Database, k: nat)
    requires k < |db.ledger|
  {
    var e := db.ledger[k];
    && e.id == k && e.createdAt == k
    && e.wallet < |db.wallets| && e.org == db.wallets[e.wallet].org
    && e.amount >= 0 && (e.direction == CREDIT || e.direction == DEBIT)
    && (e.sourceType.Some? && SettlementSource(e.sourceType.value) ==> Owned(db, e))
  }

  ghost predicate OwnedBy(s: Settlement, e: Entry) {
    && e.org == s.org && e.wallet == s.wallet && e.amount == s.amount
    && e.sourceType == Some(s.sourceType) && e.sourceId == Some(s.sourceId)
    && e.transferReference.Some?
  }

  ghost predicate Owned(db: Database, e: Entry) {
    exists i :: 0 <= i < |db.settlements| && OwnedBy(db.settlements[i], e)
  }

  ghost predicate Sound(db: Database) {
    && (forall w :: 0 <= w < |db.wallets| ==> WalletSound(db, w))
    && (forall i :: 0 <= i < |db.settlements| ==> SettlementSound(db, i))
    && (forall k :: 0 <= k < |db.ledger| ==> EntrySound(db, k))
    && (forall i, j :: 0 <= i < j < |db.settlements| ==> !SettlementClash(db.settlements[i], db.settlements[j]))
    && (forall j, k :: 0 <= j < k < |db.ledger| ==> !EntryClash(db.ledger[j], db.ledger[k]))
  }

  // ----- how rows may evolve -----

  predicate SameIdentity(s: Settlement, t: Settlement) {
    && t.org == s.org && t.wallet == s.wallet && t.sourceType == s.sourceType && t.sourceId == s.sourceId
    && t.amount == s.amount && t.currency == s.currency && t.internalReference == s.internalReference
  }

  /** Evidence columns are never cleared, and a held row never changes its method. */
  predicate Ages(s: Settlement, t: Settlement) {
    && SameIdentity(s, t)
    && (s.reservedAt ==> t.reservedAt && t.via == s.via)
    && (s.releasedAt ==> t.releasedAt)
    && (s.initiationClaimed ==> t.initiationClaimed)
    && (s.initiationAttempted ==> t.initiationAttempted)
    && (s.releasedAt && s.status != SUCCEEDED ==> t.status != SUCCEEDED)
  }

  /** A new row starts without money, or is a manual settlement paid on the spot. */
  predicate Born(t: Settlement, phase: MoneyPhase) {
    phase == Untouched || (phase == Debited && t.via == MANUAL)
  }

  ghost predicate Evolves(db: Database, db': Database) {
    && |db.wallets| == |db'.wallets|
    && |db.settlements| <= |db'.settlements|
    && db.ledger <= db'.ledger
    && (forall i :: 0 <= i < |db.settlements| ==>
          Ages(db.settlements[i], db'.settlements[i]) && Edge(db.settlements[i], Phase(db, i), db'.settlements[i], Phase(db', i)))
    && (forall i :: |db.settlements| <= i < |db'.settlements| ==> Born(db'.settlements[i], Phase(db', i)))
  }

  lemma EvolvesReflexive(db: Database)
    ensures Evolves(db, db)
  {
  }

  // ----- tallies under appended rows -----

  lemma RowsOfAppend(ledger: seq<Entry>, e: Entry, w: nat)
    ensures RowsOf(ledger + [e], w) == RowsOf(ledger, w) + (if e.wallet == w then [e] else [])
  {
    assert (ledger + [e])[..|ledger|] == ledger;
  }

  function Posted(posted: Option<Entry>): seq<Entry> {
    if posted.Some? then [posted.value] else []
  }

  function Bump(posted: Option<Entry>, direction: Direction): int {
    if posted.Some? && posted.value.direction == direction then 1 else 0
  }

  lemma CountsAfterPost(ledger: seq<Entry>, posted: Option<Entry>, s: Settlement)
    ensures var own := posted.Some? && posted.value.wallet == s.wallet
                       && posted.value.sourceType == Some(s.sourceType) && posted.value.sourceId == Some(s.sourceId);
            && Debits(ledger + Posted(posted), s) == Debits(ledger, s) + (if own then Bump(posted, DEBIT) else 0)
            && Credits(ledger + Posted(posted), s) == Credits(ledger, s) + (if own then Bump(posted, CREDIT) else 0)
  {
    if posted.Some? {
      TallyAppend(ledger, posted.value, DebitsFor(s.wallet, s.sourceType, s.sourceId));
      TallyAppend(ledger, posted.value, CreditsFor(s.wallet, s.sourceType, s.sourceId));
    } else {
      assert ledger + Posted(posted) == ledger;
    }
  }

  // ----- the wallet side of a step -----

  /** A wallet update that matches the row posted with it. */
  ghost predicate WalletMoves(db: Database, w: nat, after: Wallet, posted: Option<Entry>)
    requires w < |db.wallets|
  {
    var before := db.wallets[w];
    && after.org == before.org && after.currency == before.currency && after.testTenant == before.testTenant
    && 0 <= after.reserved <= after.balance
    && match posted
       case None => after.balance == before.balance
       case Some(e) =>
         && e.wallet == w && e.org == before.org && e.id == |db.ledger| && e.createdAt == |db.ledger|
         && e.amount >= 0 && (e.direction == CREDIT || e.direction == DEBIT)
         && e.before == before.balance && e.after == after.balance == e.before + Signed(e)
         && EntryFits(db.ledger, e)
  }

  lemma ChainExtends(rows: seq<Entry>, e: Entry)
    requires Chained(rows) && e.before == Closing(rows) && e.after == e.before + Signed(e)
    ensures Chained(rows + [e]) && Closing(rows + [e]) == e.after
  {
  }

  lemma WalletsStaySound(db: Database, db': Database, w: nat, after: Wallet, posted: Option<Entry>)
    requires Sound(db) && w < |db.wallets| && WalletMoves(db, w, after, posted)
    requires db'.wallets == db.wallets[w := after] && db'.ledger == db.ledger + Posted(posted)
    requires after.reserved == Tally(db'.settlements, HeldOn(w))
    requires forall v :: 0 <= v < |db.wallets| && v != w ==> Tally(db'.settlements, HeldOn(v)) == Tally(db.settlements, HeldOn(v))
    ensures forall v :: 0 <= v < |db'.wallets| ==> WalletSound(db', v)
  {
    forall v | 0 <= v < |db'.wallets| ensures WalletSound(db', v) {
      assert WalletSound(db, v);
      match posted {
        case None => assert db'.ledger == db.ledger;
        case Some(e) =>
          RowsOfAppend(db.ledger, e, v);
          if v == w { ChainExtends(RowsOf(db.ledger, w), e); }
      }
    }
  }

  lemma EntriesStaySound(db: Database, db': Database, posted: Option<Entry>)
    requires Sound(db)
    requires |db'.wallets| == |db.wallets| && forall v :: 0 <= v < |db.wallets| ==> db'.wallets[v].org == db.wallets[v].org
    requires db'.ledger == db.ledger + Posted(posted)
    requires |db.settlements| <= |db'.settlements|
    requires forall i :: 0 <= i < |db.settlements| ==> SameIdentity(db.settlements[i], db'.settlements[i])
    requires posted.Some? ==> EntryFits(db.ledger, posted.value) && EntrySound(db', |db.ledger|)
    ensures forall k :: 0 <= k < |db'.ledger| ==> EntrySound(db', k)
    ensures forall j, k :: 0 <= j < k < |db'.ledger| ==> !EntryClash(db'.ledger[j], db'.ledger[k])
  {
    forall k | 0 <= k < |db'.ledger| ensures EntrySound(db', k) {
      if k < |db.ledger| {
        assert EntrySound(db, k);
        var e := db.ledger[k];
        if e.sourceType.Some? && SettlementSource(e.sourceType.value) {
          var i :| 0 <= i < |db.settlements| && OwnedBy(db.settlements[i], e);
          assert OwnedBy(db'.settlements[i], e);
        }
      }
    }
  }

  // ----- the three shapes of step -----

  /** One settlement row, its wallet and at most one ledger row change together. */
  ghost predicate Moves(db: Database, i: nat, t: Settlement, after: Wallet, posted: Option<Entry>, db': Database)
    requires i < |db.settlements| && db.settlements[i].wallet < |db.wallets|
  {
    var s := db.settlements[i];
    && db'.settlements == db.settlements[i := t]
    && db'.wallets == db.wallets[s.wallet := after]
    && db'.ledger == db.ledger + Posted(posted)
    && Ages(s, t)
    && WalletMoves(db, s.wallet, after, posted)
    && (posted.Some? ==> OwnedBy(t, posted.value))
    && after.reserved == db.wallets[s.wallet].reserved + HeldOn(s.wallet)(t) - HeldOn(s.wallet)(s)
    && SettlementFits(db.settlements, i, t)
    && var d, c := Debits(db.ledger, s) + Bump(posted, DEBIT), Credits(db.ledger, s) + Bump(posted, CREDIT);
       && RowSound(t, d, c)
       && Edge(s, PhaseOf(s, Debits(db.ledger, s), Credits(db.ledger, s)), t, PhaseOf(t, d, c))
  }

  lemma MovesKeepsOthers(db: Database, i: nat, t: Settlement, after: Wallet, posted: Option<Entry>, db': Database, j: nat)
    requires Sound(db) && i < |db.settlements| && db.settlements[i].wallet < |db.wallets|
    requires Moves(db, i, t, after, posted, db')
    requires j < |db.settlements|
    ensures SettlementSound(db', j)
    ensures j != i ==> db'.settlements[j] == db.settlements[j] && Phase(db', j) == Phase(db, j)
    ensures Edge(db.settlements[j], Phase(db, j), db'.settlements[j], Phase(db', j))
  {
    var s := db.settlements[i];
    assert SettlementSound(db, j) && SettlementSound(db, i);
    CountsAfterPost(db.ledger, posted, db.settlements[j]);
    if j == i {
      assert Debits(db'.ledger, t) == Debits(db'.ledger, s) && Credits(db'.ledger, t) == Credits(db'.ledger, s);
    } else {
      assert !SettlementClash(db.settlements[i], db.settlements[j]) by {
        if i < j {} else { assert !SettlementClash(db.settlements[j], db.settlements[i]); }
      }
    }
  }

  lemma MovesKeepsWallets(db: Database, i: nat, t: Settlement, after: Wallet, posted: Option<Entry>, db': Database)
    requires Sound(db) && i < |db.settlements| && db.settlements[i].wallet < |db.wallets|
    requires Moves(db, i, t, after, posted, db')
    ensures forall v :: 0 <= v < |db'.wallets| ==> WalletSound(db', v)
  {
    var s := db.settlements[i];
    forall v | 0 <= v < |db.wallets|
      ensures Tally(db'.settlements, HeldOn(v)) == Tally(db.settlements, HeldOn(v)) - HeldOn(v)(s) + HeldOn(v)(t)
    {
      TallyUpdate(db.settlements, i, t, HeldOn(v));
    }
    assert WalletSound(db, s.wallet);
    WalletsStaySound(db, db', s.wallet, after, posted);
  }

  lemma MovesKeepsEntries(db: Database, i: nat, t: Settlement, after: Wallet, posted: Option<Entry>, db': Database)
    requires Sound(db) && i < |db.settlements| && db.settlements[i].wallet < |db.wallets|
    requires Moves(db, i, t, after, posted, db')
    ensures forall k :: 0 <= k < |db'.ledger| ==> EntrySound(db', k)
    ensures forall j, k :: 0 <= j < k < |db'.ledger| ==> !EntryClash(db'.ledger[j], db'.ledger[k])
  {
    if posted.Some? { assert OwnedBy(db'.settlements[i], posted.value); }
    EntriesStaySound(db, db', posted);
  }

  lemma MovesKeepsKeys(db: Database, i: nat, t: Settlement, db': Database)
    requires Sound(db) && i < |db.settlements|
    requires db'.settlements == db.settlements[i := t] && SettlementFits(db.settlements, i, t)
    ensures forall a, b :: 0 <= a < b < |db'.settlements| ==> !SettlementClash(db'.settlements[a], db'.settlements[b])
  {
    forall a, b | 0 <= a < b < |db'.settlements| ensures !SettlementClash(db'.settlements[a], db'.settlements[b]) {
      assert !SettlementClash(db.settlements[a], db.settlements[b]);
      assert a != i ==> !SettlementClash(db.settlements[a], t);
      assert b != i ==> !SettlementClash(db.settlements[b], t);
    }
  }

  lemma MovesKeepsSound(db: Database, i: nat, t: Settlement, after: Wallet, posted: Option<Entry>, db': Database)
    requires Sound(db) && i < |db.settlements| && db.settlements[i].wallet < |db.wallets|
    requires Moves(db, i, t, after, posted, db')
    ensures Sound(db') && Evolves(db, db')
    ensures forall j :: 0 <= j < |db.settlements| && j != i ==> Phase(db', j) == Phase(db, j)
  {
    MovesKeepsWallets(db, i, t, after, posted, db');
    MovesKeepsEntries(db, i, t, after, posted, db');
    MovesKeepsKeys(db, i, t, db');
    forall j | 0 <= j < |db.settlements|
      ensures SettlementSound(db', j) && Ages(db.settlements[j], db'.settlements[j])
      ensures Edge(db.settlements[j], Phase(db, j), db'.settlements[j], Phase(db', j))
      ensures j != i ==> Phase(db', j) == Phase(db, j)
    {
      MovesKeepsOthers(db, i, t, after, posted, db', j);
    }
  }

  /** A new settlement row joins; no money moves. */
  lemma JoinKeepsSound(db: Database, s: Settlement, db': Database)
    requires Sound(db)
    requires db' == db.(settlements := db.settlements + [s])
    requires s.wallet < |db.wallets| && db.wallets[s.wallet].org == s.org && SettlementSource(s.sourceType)
    requires s.currency == Normalize(db.wallets[s.wallet].currency)
    requires !s.reservedAt && RowSound(s, 0, 0) && SettlementFits(db.settlements, |db.settlements|, s)
    ensures Sound(db') && Evolves(db, db') && Phase(db', |db.settlements|) == Untouched
  {
    var n := |db.settlements|;
    forall v | 0 <= v < |db.wallets| ensures WalletSound(db', v) {
      assert WalletSound(db, v);
      TallyAppend(db.settlements, s, HeldOn(v));
    }
    assert db.ledger == db.ledger + Posted(None);
    EntriesStaySound(db, db', None);
    assert Debits(db.ledger, s) == 0 && Credits(db.ledger, s) == 0 by { NoRowsBeforeJoin(db, s); }
    forall j | 0 <= j < |db'.settlements| ensures SettlementSound(db', j) {
      if j < n { assert SettlementSound(db, j); }
    }
  }

  lemma NoRowsBeforeJoin(db: Database, s: Settlement)
    requires Sound(db) && SettlementSource(s.sourceType) && SettlementFits(db.settlements, |db.settlements|, s)
    requires s.wallet < |db.wallets| && db.wallets[s.wallet].org == s.org
    ensures Debits(db.ledger, s) == 0 && Credits(db.ledger, s) == 0
  {
    var f, g := DebitsFor(s.wallet, s.sourceType, s.sourceId), CreditsFor(s.wallet, s.sourceType, s.sourceId);
    forall k | 0 <= k < |db.ledger| ensures f(db.ledger[k]) == 0 && g(db.ledger[k]) == 0 {
      assert EntrySound(db, k);
    }
    TallyNonnegative(db.ledger, f);
    TallyNonnegative(db.ledger, g);
    if Tally(db.ledger, f) > 0 { var k := TallyWitness(db.ledger, f); }
    if Tally(db.ledger, g) > 0 { var k := TallyWitness(db.ledger, g); }
  }

  /** Money enters or leaves a wallet outside any settlement. */
  lemma ExternalKeepsSound(db: Database, w: nat, after: Wallet, e: Entry, db': Database)
    requires Sound(db) && w < |db.wallets| && WalletMoves(db, w, after, Some(e))
    requires e.sourceType.Some? ==> !SettlementSource(e.sourceType.value)
    requires after.reserved == db.wallets[w].reserved
    requires db'.wallets == db.wallets[w := after] && db'.ledger == db.ledger + [e] && db'.settlements == db.settlements
    ensures Sound(db') && Evolves(db, db')
    ensures forall j :: 0 <= j < |db.settlements| ==> Phase(db', j) == Phase(db, j)
  {
    assert WalletSound(db, w);
    assert [e] == Posted(Some(e));
    WalletsStaySound(db, db', w, after, Some(e));
    EntriesStaySound(db, db', Some(e));
    forall j | 0 <= j < |db.settlements| ensures SettlementSound(db', j) && Phase(db', j) == Phase(db, j) {
      assert SettlementSound(db, j);
      CountsAfterPost(db.ledger, Some(e), db.settlements[j]);
    }
  }
}
