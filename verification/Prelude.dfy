/** Small shared vocabulary: optional values, tallies over sequences, ASCII text helpers. */
module Prelude {
  datatype Option<+T> = None | Some(value: T)

  /** Sum of `weight` over a sequence. */
  function Tally<T>(s: seq<T>, weight: T -> int): int {
    if s == [] then 0 else Tally(s[..|s| - 1], weight) + weight(s[|s| - 1])
  }

  lemma TallyAppend<T>(s: seq<T>, x: T, weight: T -> int)
    ensures Tally(s + [x], weight) == Tally(s, weight) + weight(x)
  {
    assert (s + [x])[..|s|] == s;
  }

  lemma {:induction false} TallyUpdate<T>(s: seq<T>, i: nat, x: T, weight: T -> int)
    requires i < |s|
    ensures Tally(s[i := x], weight) == Tally(s, weight) - weight(s[i]) + weight(x)
  {
    var n := |s| - 1;
    if i == n {
      assert s[i := x][..n] == s[..n];
    } else {
      assert s[i := x][..n] == s[..n][i := x];
      TallyUpdate(s[..n], i, x, weight);
    }
  }

  lemma {:induction false} TallySame<T>(s: seq<T>, f: T -> int, g: T -> int)
    requires forall k :: 0 <= k < |s| ==> f(s[k]) == g(s[k])
    ensures Tally(s, f) == Tally(s, g)
  {
    if s != [] {
      TallySame(s[..|s| - 1], f, g);
    }
  }

  /** Every weight counts towards the total when none is negative. */
  lemma {:induction false} TallyCovers<T>(s: seq<T>, i: nat, weight: T -> int)
    requires i < |s|
    requires forall k :: 0 <= k < |s| ==> weight(s[k]) >= 0
    ensures Tally(s, weight) >= weight(s[i])
  {
    TallyNonnegative(s[..|s| - 1], weight);
    if i < |s| - 1 {
      TallyCovers(s[..|s| - 1], i, weight);
    }
  }

  lemma {:induction false} TallyNonnegative<T>(s: seq<T>, weight: T -> int)
    requires forall k :: 0 <= k < |s| ==> weight(s[k]) >= 0
    ensures Tally(s, weight) >= 0
  {
    if s != [] {
      TallyNonnegative(s[..|s| - 1], weight);
    }
  }

  /** A positive total has a positive contributor. */
  lemma {:induction false} TallyWitness<T>(s: seq<T>, weight: T -> int) returns (i: nat)
    requires Tally(s, weight) > 0
    ensures i < |s| && weight(s[i]) > 0
  {
    if weight(s[|s| - 1]) > 0 {
      i := |s| - 1;
    } else {
      i := TallyWitness(s[..|s| - 1], weight);
    }
  }

  /** Two distinct positions of weight one make a total of at least two. */
  lemma {:induction false} TallyPair<T>(s: seq<T>, i: nat, j: nat, weight: T -> int)
    requires i < j < |s| && weight(s[i]) >= 1 && weight(s[j]) >= 1
    requires forall k :: 0 <= k < |s| ==> weight(s[k]) >= 0
    ensures Tally(s, weight) >= 2
  {
    if j == |s| - 1 {
      TallyCovers(s[..j], i, weight);
    } else {
      TallyPair(s[..|s| - 1], i, j, weight);
    }
  }

  function UpperChar(c: char): char {
    if 'a' <= c <= 'z' then c - 'a' + 'A' else c
  }

  function LowerChar(c: char): char {
    if 'A' <= c <= 'Z' then c - 'A' + 'a' else c
  }

  function Upper(s: string): string {
    seq(|s|, i requires 0 <= i < |s| => UpperChar(s[i]))
  }

  function Lower(s: string): string {
    seq(|s|, i requires 0 <= i < |s| => LowerChar(s[i]))
  }

  /** The characters that trimming and the whitespace pattern remove. */
  predicate Blank(c: char) {
    var n := c as int;
    9 <= n <= 13 || n == 32 || n == 160 || n == 0x1680 || 0x2000 <= n <= 0x200a || n == 0x2028 || n == 0x2029
    || n == 0x202f || n == 0x205f || n == 0x3000 || n == 0xfeff
  }

  function TrimStart(s: string): string {
    if s != [] && Blank(s[0]) then TrimStart(s[1..]) else s
  }

  function TrimEnd(s: string): string {
    if s != [] && Blank(s[|s| - 1]) then TrimEnd(s[..|s| - 1]) else s
  }

  function Trim(s: string): string {
    TrimEnd(TrimStart(s))
  }

  /** Changing case moves the letters A to Z and nothing else. */
  lemma CaseMovesLetters(s: string, k: nat)
    requires k < |s|
    ensures |Lower(s)| == |s| && |Upper(s)| == |s|
    ensures Lower(s)[k] == if 'A' <= s[k] <= 'Z' then (s[k] as int + 32) as char else s[k]
    ensures Upper(s)[k] == if 'a' <= s[k] <= 'z' then (s[k] as int - 32) as char else s[k]
  {
  }
}
