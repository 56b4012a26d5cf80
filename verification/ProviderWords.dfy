/** What each word of the provider does to the money: from a raw response through the parser and the result handler to the
    rows. */
module ProviderWords {
  import opened Prelude
  import opened Records
  import opened Wallets
  import opened Settlements
  import opened Effects
  import opened SettlementInvariant
  import opened TransactionSafety
  import opened Protocol
  import opened ProtocolSafety
  import opened Guarantees
  import opened Verdicts
  import opened WorkerEffects
  import opened PaystackTransfers

  /** The response speaks of this row: its reference and amount, its currency in any case, and no other recipient. */
  predicate SpeaksOf(data: Data, s: Settlement, word: string) {
    && data.status == Text(word)
    && s.transferReference.Some? && s.transferReference.value != "" && data.reference == Text(s.transferReference.value)
    && data.amount == Integer(s.amount) && s.currency != "" && data.currency.Text? && Upper(data.currency.s) == s.currency
    && (s.recipientReference in [None, Some("")] || match data.recipient
          case Text(code) => code == "" || s.recipientReference == Some(code)
          case Recipient(Text(code)) => code == "" || s.recipientReference == Some(code)
          case _ => true)
  }

  lemma SpokenIsParsed(data: Data, s: Settlement, word: string)
    requires SpeaksOf(data, s, word) && MapStatus(word).Some?
    ensures ParseTransfer(data).Parsed? && SameTransfer(s, ParseTransfer(data).result)
    ensures ParseTransfer(data).result.state == MapStatus(word).value && ParseTransfer(data).result.providerStatus == Lower(word)
  {
    assert |Lower(word)| == |word| && |Upper(data.currency.s)| == |data.currency.s|;
    WordsMean("");
  }

  /** Nobody may decide yet: the worker read a row that has not ended. */
  predicate NotEnded(seen: Settlement) {
    seen.status != SUCCEEDED && seen.status != Status.FAILED && seen.status != REVERSED
  }

  /** A transfer that is pending, waits for a one-time password or was received keeps its money where it is: the row
      reads PROVIDER_PROCESSING with that word, and nothing else changes. */
  lemma PendingWordKeepsMoney(db: Database, i: nat, seen: Settlement, data: Data, word: string)
    requires i < |db.settlements| && SpeaksOf(data, seen, word) && NotEnded(seen)
    requires Lower(word) in ["pending", "otp", "received"]
    ensures ParseTransfer(data).Parsed?
    ensures var e, s := Apply(db, i, seen, ParseTransfer(data).result), db.settlements[i];
      && e.next == Finished
      && e.db == WithRow(db, i, s.(status := PROVIDER_PROCESSING, providerStatus := Some(Lower(word)),
           transferCode := if data.transferCode.Text? then Some(data.transferCode.s) else s.transferCode))
      && Phase(e.db, i) == Phase(db, i)
  {
    WordsMean(word);
    SpokenIsParsed(data, seen, word);
    MatchesExactlyWhen(seen, ParseTransfer(data).result);
    SamePhase(db, Apply(db, i, seen, ParseTransfer(data).result).db, i);
  }

  /** A transfer that failed, was abandoned, blocked or rejected gives held money back, and the row ends FAILED with that
      word. */
  lemma FailureWordGivesBack(db: Database, i: nat, seen: Settlement, data: Data, word: string, next: Response)
    requires Sound(db) && SeenRow(db, i, seen) && Phase(db, i) == Held && SpeaksOf(data, seen, word) && NotEnded(seen)
    requires db.settlements[i].wallet < |db.wallets| && CurrencyHolds(db, i)
    requires Lower(word) in ["failed", "abandoned", "blocked", "rejected"]
    ensures ParseTransfer(data).Parsed?
    ensures var result := ParseTransfer(data).result;
      var e := Apply(db, i, seen, result);
      && GivenBack(db, e.db, i) && e.next == NotingFailure(i, result)
      && Act(e.db, e.next, next).db == WithRow(e.db, i, e.db.settlements[i].(providerStatus := Some(Lower(word)),
           transferCode := if data.transferCode.Text? then Some(data.transferCode.s) else e.db.settlements[i].transferCode))
  {
    WordsMean(word);
    SpokenIsParsed(data, seen, word);
    MatchesExactlyWhen(seen, ParseTransfer(data).result);
    ReleaseGivesBack(db, i, next);
    ReleaseActsExactlyWhen(db, i);
    FailureReleases(db, i, seen, ParseTransfer(data).result, next);
    FailureIsNoted(Apply(db, i, seen, ParseTransfer(data).result).db, i, ParseTransfer(data).result, next);
  }

  lemma FailureReleases(db: Database, i: nat, seen: Settlement, result: TransferResult, next: Response)
    requires i < |db.settlements| && seen.org == db.settlements[i].org && NotEnded(seen) && Matches(seen, result) && result.state == FAILURE
    requires ReleaseReservation(db, seen.org, i).Committed?
    ensures Apply(db, i, seen, result) == Effect(Act(db, ReleasingAfterError(i), next).db, NotingFailure(i, result), [], {})
  {
  }

  lemma FailureIsNoted(d: Database, i: nat, result: TransferResult, next: Response)
    requires i < |d.settlements|
    ensures Act(d, NotingFailure(i, result), next).db == WithRow(d, i, d.settlements[i].(
      providerStatus := Some(result.providerStatus),
      transferCode := if result.transferCode == None then d.settlements[i].transferCode else result.transferCode))
  {
  }

  /** A success pays the held amount out, when the debit is new and the obligation open: the row ends SUCCEEDED. */
  lemma SuccessWordPays(db: Database, i: nat, seen: Settlement, data: Data, word: string)
    requires Sound(db) && SeenRow(db, i, seen) && Phase(db, i) == Held && SpeaksOf(data, seen, word) && NotEnded(seen)
    requires seen.recipientReference == db.settlements[i].recipientReference
    requires db.settlements[i].wallet < |db.wallets| && CurrencyHolds(db, i) && DebitKeysFree(db, i) && Payable(db, db.settlements[i])
    requires Lower(word) == "success"
    ensures ParseTransfer(data).Parsed?
    ensures var e := Apply(db, i, seen, ParseTransfer(data).result);
      && e.next == Finished && |e.db.settlements| == |db.settlements| && Phase(e.db, i) == Debited
      && DebitWritten(db, e.db, db.settlements[i])
      && e.db.settlements[i].status == SUCCEEDED && e.db.settlements[i].providerStatus == Some("success")
  {
    WordsMean(word);
    SpokenIsParsed(data, seen, word);
    var result := ParseTransfer(data).result;
    assert SettlementSound(db, i);
    MatchesExactlyWhen(seen, result);
    FinalizeActsExactlyWhen(db, i, result);
    FinalizingWrites(db, i, result);
    FinalizeIsSafe(db, i, result);
  }

  /** A reversal puts the money of a row that reads SUCCEEDED back, when its reference is new, and the worker goes on to
      the obligation. */
  lemma ReversedWordPutsBack(db: Database, i: nat, seen: Settlement, data: Data, word: string)
    requires Sound(db) && SeenRow(db, i, seen) && SpeaksOf(data, seen, word) && (NotEnded(seen) || seen.status == SUCCEEDED)
    requires db.settlements[i].status == SUCCEEDED && db.settlements[i].wallet < |db.wallets|
    requires CurrencyAgrees(db.settlements[i].currency, db.wallets[db.settlements[i].wallet].currency)
    requires ReversalKeysFree(db, i, "paystack-reversal-" + seen.transferReference.value)
    requires Lower(word) == "reversed"
    ensures ParseTransfer(data).Parsed?
    ensures var e, s := Apply(db, i, seen, ParseTransfer(data).result), db.settlements[i];
      && e.next == UndoingBusiness(i, "reversed") && |e.db.settlements| == |db.settlements| && Phase(e.db, i) == Restored
      && e.db.settlements[i].status == REVERSED
      && e.db.settlements[i].reversalReference == Some("paystack-reversal-" + seen.transferReference.value)
      && e.db.wallets == db.wallets[s.wallet := db.wallets[s.wallet].(balance := db.wallets[s.wallet].balance + s.amount)]
  {
    WordsMean(word);
    SpokenIsParsed(data, seen, word);
    var result := ParseTransfer(data).result;
    MatchesExactlyWhen(seen, result);
    ReversalLands(db, i, seen, result);
  }

  lemma ReversalLands(db: Database, i: nat, seen: Settlement, result: TransferResult)
    requires Sound(db) && SeenRow(db, i, seen) && (NotEnded(seen) || seen.status == SUCCEEDED) && Matches(seen, result) && result.state == REVERSAL
    requires db.settlements[i].status == SUCCEEDED && db.settlements[i].wallet < |db.wallets|
    requires CurrencyAgrees(db.settlements[i].currency, db.wallets[db.settlements[i].wallet].currency)
    requires ReversalKeysFree(db, i, ReversalReference(result.reference))
    ensures var e, s := Apply(db, i, seen, result), db.settlements[i];
      && e.next == UndoingBusiness(i, result.providerStatus) && |e.db.settlements| == |db.settlements| && Phase(e.db, i) == Restored
      && e.db.settlements[i].status == REVERSED && e.db.settlements[i].reversalReference == Some(ReversalReference(result.reference))
      && e.db.wallets == db.wallets[s.wallet := db.wallets[s.wallet].(balance := db.wallets[s.wallet].balance + s.amount)]
  {
    var reference := ReversalReference(result.reference);
    ReversalCommits(db, i, reference);
    ReverseIsSafe(db, seen.org, i, reference);
    ReversingWrites(db, seen.org, i, reference);
    assert Apply(db, i, seen, result) == Effect(ReverseSucceeded(db, seen.org, i, reference).db, UndoingBusiness(i, result.providerStatus), [], {});
  }

  /** Every other word is refused before the handler is asked, so the caller sees an unclear outcome. */
  lemma OtherWordsAreRefused(data: Data, s: Settlement, word: string)
    requires SpeaksOf(data, s, word)
    requires Lower(word) !in ["pending", "otp", "received", "success", "failed", "abandoned", "blocked", "rejected", "reversed"]
    ensures !ParseTransfer(data).Parsed? && !Acknowledge(data).Parsed?
  {
    ParsedExactlyWhen(data);
  }
}
