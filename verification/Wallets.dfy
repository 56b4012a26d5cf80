/** wallet-integrity.ts: currency normalisation and the four conditional wallet updates. */
module Wallets {
  import opened Prelude
  import opened Records

  function Normalize(currency: string): string {
    Upper(Trim(currency))
  }

  predicate CurrencyAgrees(expected: string, actual: string) {
    Normalize(expected) != "" && Normalize(expected) == Normalize(actual)
  }

  function Spendable(w: Wallet): int {
    w.balance - w.reserved
  }

  /** The checks every wallet operation makes before its update, and the update's own currency test. */
  function Opened(w: Wallet, org: string, amount: int, currency: string): Result<bool> {
    if amount < 0 then Error(NOT_POSITIVE)
    else if w.org != org then Error(NOT_FOUND)
    else if !CurrencyAgrees(Normalize(currency), w.currency) then Error(CURRENCY_MISMATCH)
    else Ok(Upper(w.currency) == Normalize(currency))
  }

  function Reserve(w: Wallet, org: string, amount: int, currency: string): Result<Wallet> {
    match Opened(w, org, amount, currency)
    case Error(p) => Error(p)
    case Ok(sameCurrency) =>
      if sameCurrency && w.balance - w.reserved >= amount
      then Ok(w.(reserved := w.reserved + amount))
      else Error(INSUFFICIENT_SPENDABLE_BALANCE)
  }

  function DebitUnreserved(w: Wallet, org: string, amount: int, currency: string): Result<Wallet> {
    match Opened(w, org, amount, currency)
    case Error(p) => Error(p)
    case Ok(sameCurrency) =>
      if sameCurrency && w.balance - w.reserved >= amount
      then Ok(w.(balance := w.balance - amount))
      else Error(INSUFFICIENT_SPENDABLE_BALANCE)
  }

  function Consume(w: Wallet, org: string, amount: int, currency: string): Result<Wallet> {
    match Opened(w, org, amount, currency)
    case Error(p) => Error(p)
    case Ok(sameCurrency) =>
      if sameCurrency && w.balance >= amount && w.reserved >= amount
      then Ok(w.(balance := w.balance - amount, reserved := w.reserved - amount))
      else Error(RESERVATION_NOT_HELD)
  }

  function Release(w: Wallet, org: string, amount: int, currency: string): Result<Wallet> {
    match Opened(w, org, amount, currency)
    case Error(p) => Error(p)
    case Ok(sameCurrency) =>
      if sameCurrency && w.reserved >= amount
      then Ok(w.(reserved := w.reserved - amount))
      else Error(RESERVATION_NOT_HELD)
  }

  /** A reservation can always be ended, in exactly two ways: released without trace, or consumed with
      the same effect as an immediate unreserved debit. Neither ending changes who can spend the rest. */
  lemma ReservationEndings(w: Wallet, org: string, amount: int, currency: string)
    requires 0 <= w.reserved
    ensures Reserve(w, org, amount, currency).Ok? <==> DebitUnreserved(w, org, amount, currency).Ok?
    ensures Reserve(w, org, amount, currency).Ok? ==>
              var held := Reserve(w, org, amount, currency).value;
              && Spendable(held) == Spendable(w) - amount
              && Release(held, org, amount, currency) == Ok(w)
              && Consume(held, org, amount, currency) == DebitUnreserved(w, org, amount, currency)
              && Spendable(Consume(held, org, amount, currency).value) == Spendable(held)
  {
    if Reserve(w, org, amount, currency).Ok? {
      var held := Reserve(w, org, amount, currency).value;
      assert Opened(held, org, amount, currency) == Opened(w, org, amount, currency);
      assert Release(held, org, amount, currency) == Ok(held.(reserved := w.reserved));
    }
  }

  lemma {:induction false} TrimStartUpper(s: string)
    ensures TrimStart(Upper(s)) == Upper(TrimStart(s))
  {
    if s != [] && Blank(s[0]) {
      assert Upper(s)[1..] == Upper(s[1..]);
      TrimStartUpper(s[1..]);
    }
  }

  lemma {:induction false} TrimEndUpper(s: string)
    ensures TrimEnd(Upper(s)) == Upper(TrimEnd(s))
  {
    if s != [] && Blank(s[|s| - 1]) {
      assert Upper(s)[..|s| - 1] == Upper(s[..|s| - 1]);
      TrimEndUpper(s[..|s| - 1]);
    }
  }

  lemma {:induction false} TrimStartEnds(s: string)
    ensures var t := TrimStart(s); t == [] || !Blank(t[0])
  {
    if s != [] && Blank(s[0]) { TrimStartEnds(s[1..]); }
  }

  lemma {:induction false} TrimEndEnds(s: string)
    ensures var t := TrimEnd(s); (t == [] || (!Blank(t[|t| - 1]) && t[0] == s[0])) && |t| <= |s|
  {
    if s != [] && Blank(s[|s| - 1]) { TrimEndEnds(s[..|s| - 1]); }
  }

  /** Normalising a currency twice changes nothing, so the repeated checks agree. */
  lemma NormalizeIdempotent(c: string)
    ensures Normalize(Normalize(c)) == Normalize(c)
  {
    var t := Trim(c);
    TrimStartEnds(c);
    TrimEndEnds(TrimStart(c));
    assert TrimStart(t) == t && TrimEnd(t) == t;
    TrimStartUpper(t);
    TrimEndUpper(t);
    assert Upper(Upper(t)) == Upper(t);
  }

  // ----- what the updates amount to -----

  lemma {:induction false} TrimStartDrops(blanks: string, t: string)
    requires forall k :: 0 <= k < |blanks| ==> Blank(blanks[k])
    requires t != "" ==> !Blank(t[0])
    ensures TrimStart(blanks + t) == t
  {
    if blanks == "" {
      assert blanks + t == t;
    } else {
      assert (blanks + t)[1..] == blanks[1..] + t;
      TrimStartDrops(blanks[1..], t);
    }
  }

  lemma {:induction false} TrimEndDrops(t: string, blanks: string)
    requires forall k :: 0 <= k < |blanks| ==> Blank(blanks[k])
    requires t != "" ==> !Blank(t[|t| - 1])
    ensures TrimEnd(t + blanks) == t
  {
    if blanks == "" {
      assert t + blanks == t;
    } else {
      assert (t + blanks)[..|t + blanks| - 1] == t + blanks[..|blanks| - 1];
      TrimEndDrops(t, blanks[..|blanks| - 1]);
    }
  }

  /** Normalising takes away the blanks around a currency and raises its letters, and nothing else. */
  lemma NormalizeIs(before: string, t: string, after: string)
    requires (forall k :: 0 <= k < |before| ==> Blank(before[k])) && (forall k :: 0 <= k < |after| ==> Blank(after[k]))
    requires t != "" && !Blank(t[0]) && !Blank(t[|t| - 1])
    ensures var n := Normalize(before + t + after);
      |n| == |t| && forall k :: 0 <= k < |t| ==> n[k] == if 'a' <= t[k] <= 'z' then (t[k] as int - 32) as char else t[k]
  {
    assert before + t + after == before + (t + after);
    TrimStartDrops(before, t + after);
    TrimEndDrops(t, after);
  }

  /** The update finds the wallet of its tenant exactly when the wallet is stored in the wanted currency without blanks
      around it, in any case. */
  predicate Denominated(w: Wallet, currency: string) {
    Normalize(currency) != "" && Upper(w.currency) == Normalize(currency)
  }

  lemma {:induction false} TrimKeepsTrimmed(s: string)
    requires s == "" || (!Blank(s[0]) && !Blank(s[|s| - 1]))
    ensures Trim(s) == s
  {
  }

  lemma UpperIsTrimmed(a: string, c: string)
    requires Upper(a) == Normalize(c)
    ensures Normalize(a) == Normalize(c)
  {
    var t := Trim(c);
    TrimStartEnds(c);
    TrimEndEnds(TrimStart(c));
    assert |a| == |t|;
    if a != "" {
      assert Upper(a)[0] == Upper(t)[0] && Upper(a)[|a| - 1] == Upper(t)[|a| - 1];
    }
    TrimKeepsTrimmed(a);
  }

  lemma OpenedExactlyWhen(w: Wallet, org: string, amount: int, currency: string)
    ensures Opened(w, org, amount, currency) == Ok(true) <==> 0 <= amount && w.org == org && Denominated(w, currency)
  {
    NormalizeIdempotent(currency);
    if Upper(w.currency) == Normalize(currency) { UpperIsTrimmed(w.currency, currency); }
  }

  /** Exactly when the four updates land, and what each leaves behind. */
  lemma UpdatesLandExactlyWhen(w: Wallet, org: string, amount: int, currency: string)
    ensures var open := 0 <= amount && w.org == org && Denominated(w, currency);
      var spendable := w.balance - w.reserved;
      && (Reserve(w, org, amount, currency).Ok? <==> open && amount <= spendable)
      && (DebitUnreserved(w, org, amount, currency).Ok? <==> open && amount <= spendable)
      && (Consume(w, org, amount, currency).Ok? <==> open && amount <= w.balance && amount <= w.reserved)
      && (Release(w, org, amount, currency).Ok? <==> open && amount <= w.reserved)
      && (open && amount <= spendable ==>
            && Reserve(w, org, amount, currency) == Ok(Wallet(w.org, w.currency, w.balance, w.reserved + amount, w.testTenant))
            && DebitUnreserved(w, org, amount, currency) == Ok(Wallet(w.org, w.currency, w.balance - amount, w.reserved, w.testTenant)))
      && (open && amount <= w.reserved ==>
            Release(w, org, amount, currency) == Ok(Wallet(w.org, w.currency, w.balance, w.reserved - amount, w.testTenant)))
      && (open && amount <= w.reserved && amount <= w.balance ==>
            Consume(w, org, amount, currency) == Ok(Wallet(w.org, w.currency, w.balance - amount, w.reserved - amount, w.testTenant)))
  {
    OpenedExactlyWhen(w, org, amount, currency);
  }

  /** Why an update is refused: a negative amount, another tenant's wallet, another currency, and last the money. */
  lemma RefusalsSay(w: Wallet, org: string, amount: int, currency: string)
    ensures var agrees := Normalize(currency) != "" && Normalize(currency) == Normalize(w.currency);
      var early := if amount < 0 then Some(NOT_POSITIVE) else if w.org != org then Some(NOT_FOUND)
                   else if !agrees then Some(CURRENCY_MISMATCH) else None;
      && (Reserve(w, org, amount, currency).Error? ==>
            Reserve(w, org, amount, currency).problem == if early.Some? then early.value else INSUFFICIENT_SPENDABLE_BALANCE)
      && (DebitUnreserved(w, org, amount, currency).Error? ==>
            DebitUnreserved(w, org, amount, currency).problem == if early.Some? then early.value else INSUFFICIENT_SPENDABLE_BALANCE)
      && (Consume(w, org, amount, currency).Error? ==>
            Consume(w, org, amount, currency).problem == if early.Some? then early.value else RESERVATION_NOT_HELD)
      && (Release(w, org, amount, currency).Error? ==>
            Release(w, org, amount, currency).problem == if early.Some? then early.value else RESERVATION_NOT_HELD)
  {
    NormalizeIdempotent(currency);
  }
}
