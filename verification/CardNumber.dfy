/** billing.rules.ts: the check digit test of card numbers (Annex B of ISO/IEC 7812-1). */
module CardNumber {
  import opened Prelude

  predicate DigitChar(c: char) {
    '0' <= c <= '9'
  }

  function Strip(value: string): string {
    if value == "" then "" else Strip(value[..|value| - 1]) + if Blank(value[|value| - 1]) then "" else [value[|value| - 1]]
  }

  predicate AllDigits(s: string) {
    forall k :: 0 <= k < |s| ==> DigitChar(s[k])
  }

  function Values(s: string): (r: seq<int>)
    requires AllDigits(s)
    ensures |r| == |s| && forall k :: 0 <= k < |s| ==> r[k] == (s[k] - '0') as int && 0 <= r[k] <= 9
  {
    seq(|s|, k requires 0 <= k < |s| => (s[k] - '0') as int)
  }

  predicate Digits(ds: seq<int>) {
    forall k :: 0 <= k < |ds| ==> 0 <= ds[k] <= 9
  }

  /** What one digit adds: every second digit is doubled and reduced to one digit again. */
  function Weight(digit: int, doubled: bool): int {
    if !doubled then digit else if 2 * digit > 9 then 2 * digit - 9 else 2 * digit
  }

  /** The weighted sum from the last digit backwards. */
  function LuhnSum(ds: seq<int>, doubled: bool): int {
    if ds == [] then 0 else LuhnSum(ds[..|ds| - 1], !doubled) + Weight(ds[|ds| - 1], doubled)
  }

  predicate CardText(digits: string) {
    AllDigits(digits) && 12 <= |digits| <= 19
  }

  predicate Checked(digits: string) {
    CardText(digits) && LuhnSum(Values(digits), false) % 10 == 0
  }

  predicate Passes(value: string) {
    Checked(Strip(value))
  }

  /** Removing every blank character. */
  method StripBlanks(value: string) returns (digits: string)
    ensures digits == Strip(value)
  {
    digits := "";
    var n := 0;
    while n < |value|
      invariant 0 <= n <= |value| && digits == Strip(value[..n])
    {
      assert value[..n + 1][..n] == value[..n];
      if !Blank(value[n]) { digits := digits + [value[n]]; }
      n := n + 1;
    }
    assert value[..n] == value;
  }

  /** The loop of the original, from the last digit to the first. */
  method PassesLuhn(value: string) returns (ok: bool)
    ensures ok <==> Passes(value)
    ensures ok <==> 12 <= |Strip(value)| <= 19 && AllDigits(Strip(value)) && Sum(Parts(Values(Strip(value)))) % 10 == 0
  {
    PassesExactlyWhen(value);
    var digits := StripBlanks(value);
    if !CardText(digits) { return false; }
    ghost var ds := Values(digits);
    var sum, doubled, index := 0, false, |digits| - 1;
    assert ds[..index + 1] == ds;
    while index >= 0
      invariant -1 <= index < |digits|
      invariant sum + LuhnSum(ds[..index + 1], doubled) == LuhnSum(ds, false)
    {
      var digit := (digits[index] - '0') as int;
      assert ds[..index + 1][..index] == ds[..index] && ds[index] == digit;
      if doubled {
        digit := digit * 2;
        if digit > 9 { digit := digit - 9; }
      }
      sum := sum + digit;
      doubled := !doubled;
      index := index - 1;
    }
    return sum % 10 == 0;
  }

  // ----- one digit -----

  /** Whether the digit at position `i` of `n` is doubled, when the last one is doubled or not. */
  function DoubledAt(n: nat, i: nat, doubled: bool): bool
    requires i < n
  {
    ((n - 1 - i) % 2 == 1) != doubled
  }

  lemma {:induction false} ChangeDigit(ds: seq<int>, i: nat, v: int, doubled: bool)
    requires i < |ds|
    ensures var d := DoubledAt(|ds|, i, doubled);
      LuhnSum(ds[i := v], doubled) == LuhnSum(ds, doubled) - Weight(ds[i], d) + Weight(v, d)
  {
    var n := |ds| - 1;
    if i == n {
      assert ds[i := v][..n] == ds[..n];
    } else {
      assert ds[i := v][..n] == ds[..n][i := v];
      ChangeDigit(ds[..n], i, v, !doubled);
      assert DoubledAt(n, i, !doubled) == DoubledAt(|ds|, i, doubled) by { ParityFlips(n - 1 - i); }
    }
  }

  lemma ParityFlips(k: int)
    requires k >= 0
    ensures (k + 1) % 2 == 1 - k % 2
  {
  }

  lemma WeightsDiffer(a: int, b: int, doubled: bool)
    requires 0 <= a <= 9 && 0 <= b <= 9 && a != b
    ensures (Weight(a, doubled) - Weight(b, doubled)) % 10 != 0
  {
  }

  /** A sum is a multiple of ten exactly when it stays one after a change by a multiple of ten. */
  lemma TensShift(x: int, y: int)
    ensures x % 10 == y % 10 <==> (x - y) % 10 == 0
  {
  }

  /** Changing any one digit of a number that passes makes it fail, whatever its length. */
  lemma SingleErrorIsCaught(ds: seq<int>, i: nat, v: int, doubled: bool)
    requires Digits(ds) && i < |ds| && 0 <= v <= 9 && v != ds[i]
    ensures LuhnSum(ds[i := v], doubled) % 10 != LuhnSum(ds, doubled) % 10
  {
    ChangeDigit(ds, i, v, doubled);
    WeightsDiffer(v, ds[i], DoubledAt(|ds|, i, doubled));
    TensShift(LuhnSum(ds[i := v], doubled), LuhnSum(ds, doubled));
  }

  // ----- two neighbours -----

  lemma SwapWeights(a: int, b: int, doubled: bool)
    requires 0 <= a <= 9 && 0 <= b <= 9
    ensures (Weight(a, doubled) + Weight(b, !doubled) - Weight(b, doubled) - Weight(a, !doubled)) % 10 == 0
      <==> a == b || (a == 0 && b == 9) || (a == 9 && b == 0)
  {
  }

  /** Exchanging two neighbouring digits keeps the sum modulo ten exactly when they are equal or are 0 and 9. */
  lemma TranspositionIsCaughtExactlyWhen(ds: seq<int>, i: nat, j: nat, doubled: bool)
    requires Digits(ds) && j == i + 1 && j < |ds|
    ensures LuhnSum(ds[i := ds[j]][j := ds[i]], doubled) % 10 == LuhnSum(ds, doubled) % 10
      <==> ds[i] == ds[j] || (ds[i] == 0 && ds[j] == 9) || (ds[i] == 9 && ds[j] == 0)
  {
    var once := ds[i := ds[j]];
    var d := DoubledAt(|ds|, i, doubled);
    ChangeDigit(ds, i, ds[j], doubled);
    ChangeDigit(once, j, ds[i], doubled);
    ParityFlips(|ds| - 1 - j);
    assert DoubledAt(|ds|, j, doubled) == !d && once[j] == ds[j];
    SwapWeights(ds[j], ds[i], d);
    TensShift(LuhnSum(once[j := ds[i]], doubled), LuhnSum(ds, doubled));
  }

  // ----- the check digit -----

  /** The digit that completes a number. */
  function CheckDigit(ds: seq<int>): int {
    MissingToTen(LuhnSum(ds, true))
  }

  function MissingToTen(n: int): int {
    (10 - n % 10) % 10
  }

  /** Every string of digits is completed by exactly one check digit. */
  lemma CheckDigitIsUnique(ds: seq<int>, d: int)
    requires 0 <= d < 10
    ensures 0 <= CheckDigit(ds) < 10
    ensures LuhnSum(ds + [d], false) % 10 == 0 <==> d == CheckDigit(ds)
  {
    assert (ds + [d])[..|ds|] == ds;
    CompletesOnce(LuhnSum(ds, true), d);
  }

  lemma CompletesOnce(sum: int, d: int)
    requires 0 <= d < 10
    ensures (sum + d) % 10 == 0 <==> d == (10 - sum % 10) % 10
  {
    Remainder(sum / 10, sum % 10, d);
  }

  lemma Remainder(q: int, r: int, d: int)
    ensures (10 * q + r + d) % 10 == (r + d) % 10
  {
  }

  // ----- as typed -----

  lemma {:induction false} StripReplaces(value: string, i: nat, c: char)
    requires i < |value| && !Blank(value[i]) && !Blank(c)
    ensures |Strip(value[..i])| < |Strip(value)| && Strip(value)[|Strip(value[..i])|] == value[i]
    ensures Strip(value[i := c]) == Strip(value)[|Strip(value[..i])| := c]
  {
    var n := |value| - 1;
    if i == n {
      assert value[i := c][..n] == value[..n];
    } else {
      assert value[i := c][..n] == value[..n][i := c] && value[..n][..i] == value[..i];
      StripReplaces(value[..n], i, c);
    }
  }

  /** Mistyping one digit of an accepted number is always refused, wherever spaces are. */
  lemma MistypedDigitIsRefused(value: string, i: nat, c: char)
    requires Passes(value) && i < |value| && DigitChar(value[i]) && DigitChar(c) && c != value[i]
    ensures !Passes(value[i := c])
  {
    StripReplaces(value, i, c);
    var s, j := Strip(value), |Strip(value[..i])|;
    assert Values(s[j := c]) == Values(s)[j := (c - '0') as int];
    SingleErrorIsCaught(Values(s), j, (c - '0') as int, false);
  }

  // ----- by position -----

  function Sum(s: seq<int>): int {
    if s == [] then 0 else Sum(s[..|s| - 1]) + s[|s| - 1]
  }

  /** The sum of the digits of the double of a digit. */
  function DoubleParts(digit: int): int {
    2 * digit / 10 + 2 * digit % 10
  }

  /** Every second digit, counted from the second-last, adds the digits of its double; the others add themselves. */
  function Parts(ds: seq<int>): seq<int> {
    seq(|ds|, k requires 0 <= k < |ds| => if (|ds| - k) % 2 == 0 then DoubleParts(ds[k]) else ds[k])
  }

  /** The same with the last digit among the doubled ones, as the digits look before one more is written. */
  function ShiftedParts(ds: seq<int>): seq<int> {
    seq(|ds|, k requires 0 <= k < |ds| => if (|ds| - k) % 2 == 1 then DoubleParts(ds[k]) else ds[k])
  }

  lemma DoubledWeight(digit: int)
    requires 0 <= digit <= 9
    ensures Weight(digit, true) == DoubleParts(digit) && Weight(digit, false) == digit
  {
  }

  lemma PartsOfInit(ds: seq<int>)
    requires ds != []
    ensures var n := |ds| - 1;
      && Parts(ds)[..n] == ShiftedParts(ds[..n]) && ShiftedParts(ds)[..n] == Parts(ds[..n])
      && Parts(ds)[n] == ds[n] && ShiftedParts(ds)[n] == DoubleParts(ds[n])
  {
    var n := |ds| - 1;
    forall k | 0 <= k < n
      ensures Parts(ds)[k] == ShiftedParts(ds[..n])[k] && ShiftedParts(ds)[k] == Parts(ds[..n])[k]
    {
      ParityFlips(n - k);
    }
  }

  lemma {:induction false} SumsByPosition(ds: seq<int>)
    requires Digits(ds)
    ensures LuhnSum(ds, false) == Sum(Parts(ds)) && LuhnSum(ds, true) == Sum(ShiftedParts(ds))
  {
    if ds != [] {
      var n := |ds| - 1;
      SumsByPosition(ds[..n]);
      PartsOfInit(ds);
      DoubledWeight(ds[n]);
    }
  }

  /** A text is accepted exactly when it has, apart from spaces, 12 to 19 characters that are all digits, and the
      parts of its digits by position add up to a multiple of ten. */
  lemma PassesExactlyWhen(value: string)
    ensures Passes(value) <==>
      var s := Strip(value);
      12 <= |s| <= 19 && AllDigits(s) && Sum(Parts(Values(s))) % 10 == 0
  {
    if AllDigits(Strip(value)) { SumsByPosition(Values(Strip(value))); }
  }

  /** 11 to 18 digits are completed to an accepted text by exactly one character, their check digit: what is missing
      to the next multiple of ten when their last digit is among the doubled ones. */
  lemma CheckDigitCompletes(text: string, c: char)
    requires AllDigits(Strip(text)) && 11 <= |Strip(text)| <= 18 && !Blank(c)
    ensures Passes(text + [c]) <==> DigitChar(c) && (c - '0') as int == MissingToTen(Sum(ShiftedParts(Values(Strip(text)))))
  {
    StripConcat(text, [c]);
    assert [c][..0] == "";
    assert Strip(text + [c]) == Strip(text) + [c];
    DigitCompletes(Strip(text), c);
  }

  lemma DigitCompletes(s: string, c: char)
    requires AllDigits(s) && 11 <= |s| <= 18
    ensures Checked(s + [c]) <==> DigitChar(c) && (c - '0') as int == MissingToTen(Sum(ShiftedParts(Values(s))))
  {
    if DigitChar(c) {
      assert Values(s + [c]) == Values(s) + [(c - '0') as int];
      CheckDigitIsUnique(Values(s), (c - '0') as int);
      SumsByPosition(Values(s));
    } else {
      assert (s + [c])[|s|] == c;
    }
  }

  lemma {:induction false} StripConcat(a: string, b: string)
    ensures Strip(a + b) == Strip(a) + Strip(b)
  {
    if b == "" {
      assert a + b == a;
    } else {
      assert (a + b)[..|a + b| - 1] == a + b[..|b| - 1];
      StripConcat(a, b[..|b| - 1]);
    }
  }

  lemma {:induction false} BlanksVanish(blanks: string)
    requires forall k :: 0 <= k < |blanks| ==> blanks[k] in [' ', '\t', '\n', '\r', '\U{A0}']
    ensures Strip(blanks) == ""
  {
    if blanks != "" { BlanksVanish(blanks[..|blanks| - 1]); }
  }

  lemma DigitIsNoBlank(c: char)
    requires DigitChar(c)
    ensures !Blank(c)
  {
  }

  lemma DigitPrefix(s: string)
    requires s != "" && AllDigits(s)
    ensures AllDigits(s[..|s| - 1]) && DigitChar(s[|s| - 1]) && s == s[..|s| - 1] + [s[|s| - 1]]
  {
  }

  lemma {:induction false} DigitsStay(s: string)
    requires AllDigits(s)
    ensures Strip(s) == s
  {
    if s != "" {
      DigitPrefix(s);
      DigitIsNoBlank(s[|s| - 1]);
      DigitsStay(s[..|s| - 1]);
    }
  }

  /** Blanks may stand anywhere. */
  lemma BlanksAreIgnored(a: string, blanks: string, b: string)
    requires forall k :: 0 <= k < |blanks| ==> blanks[k] in [' ', '\t', '\n', '\r', '\U{A0}']
    ensures Passes(a + blanks + b) <==> Passes(a + b)
  {
    BlanksVanish(blanks);
    StripConcat(a + blanks, b);
    StripConcat(a, blanks);
    StripConcat(a, b);
    assert Strip(a + blanks + b) == Strip(a + b);
  }

  /** A well-known number is accepted with its own last digit and with no other, in one piece or in groups. */
  lemma KnownNumberPasses(c: char)
    requires DigitChar(c)
    ensures Passes("411111111111111" + [c]) <==> c == '1'
    ensures Passes("4111 1111 1111 1111")
  {
    var s := "411111111111111";
    KnownDigits(s);
    CompletedByOne(s, c);
    CompletedByOne(s, '1');
    Grouped(s + ['1']);
  }

  lemma CompletedByOne(s: string, c: char)
    requires DigitChar(c) && |s| == 15 && AllDigits(s) && Strip(s) == s && Sum(ShiftedParts(Values(s))) == 29
    ensures Passes(s + [c]) <==> c == '1'
  {
    CheckDigitCompletes(s, c);
    MissingOne(c);
  }

  lemma MissingOne(c: char)
    requires DigitChar(c)
    ensures (c - '0') as int == MissingToTen(29) <==> c == '1'
  {
    assert MissingToTen(29) == 1;
  }

  lemma KnownDigits(s: string)
    requires s == "411111111111111"
    ensures AllDigits(s) && Strip(s) == s && Sum(ShiftedParts(Values(s))) == 29
  {
    KnownValues(s);
    DigitsStay(s);
    KnownSum(Values(s));
  }

  lemma KnownValues(s: string)
    requires s == "411111111111111"
    ensures AllDigits(s) && Values(s) == [4, 1, 1, 1, 1, 1, 1, 1, 1, 1, 1, 1, 1, 1, 1]
  {
    assert s[0] == '4' && forall k :: 1 <= k < 15 ==> s[k] == '1';
  }

  lemma KnownSum(ds: seq<int>)
    requires ds == [4, 1, 1, 1, 1, 1, 1, 1, 1, 1, 1, 1, 1, 1, 1]
    ensures Sum(ShiftedParts(ds)) == 29
  {
    FourMore([8, 1, 2, 1, 2, 1, 2, 1, 2, 1, 2], 1, 2, 1, 2);
    FourMore([8, 1, 2, 1, 2, 1, 2], 1, 2, 1, 2);
    FourMore([8, 1, 2], 1, 2, 1, 2);
    assert ShiftedParts(ds) == [8, 1, 2, 1, 2, 1, 2, 1, 2, 1, 2] + [1, 2, 1, 2];
    assert [8, 1, 2, 1, 2, 1, 2, 1, 2, 1, 2] == [8, 1, 2, 1, 2, 1, 2] + [1, 2, 1, 2];
    assert [8, 1, 2, 1, 2, 1, 2] == [8, 1, 2] + [1, 2, 1, 2];
    assert Sum([8, 1, 2]) == 11 by { assert [8, 1, 2][..2] == [8, 1] && [8, 1][..1] == [8] && [8][..0] == []; }
  }

  lemma FourMore(s: seq<int>, a: int, b: int, c: int, d: int)
    ensures Sum(s + [a, b, c, d]) == Sum(s) + a + b + c + d
  {
    assert (s + [a, b, c, d])[..|s| + 3] == s + [a, b, c];
    assert (s + [a, b, c])[..|s| + 2] == s + [a, b];
    assert (s + [a, b])[..|s| + 1] == s + [a];
    assert (s + [a])[..|s|] == s;
    assert Sum(s + [a, b]) == Sum(s) + a + b;
    assert Sum(s + [a, b, c]) == Sum(s) + a + b + c;
  }

  lemma Grouped(s: string)
    requires s == "4111111111111111"
    ensures Passes("4111 1111 1111 1111") <==> Passes(s)
  {
    BlanksAreIgnored("4111", " ", "1111 1111 1111");
    BlanksAreIgnored("41111111", " ", "1111 1111");
    BlanksAreIgnored("411111111111", " ", "1111");
    assert "4111" + " " + "1111 1111 1111" == "4111 1111 1111 1111";
    assert "4111" + "1111 1111 1111" == "41111111" + " " + "1111 1111";
    assert "41111111" + "1111 1111" == "411111111111" + " " + "1111";
    assert "411111111111" + "1111" == s;
  }
}
