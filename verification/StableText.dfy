/** admin.audit.ts: stableStringify, the canonical text that the audit hash covers. Object keys are sorted by a
    total order given as a parameter; strings are escaped as in section 7 of RFC 8259. */
module StableText {

  /** A value handed to the serializer. An object is the list of its own entries in insertion order; a number
      is the token that JSON prints for it. */
  datatype Json =
    | Undefined
    | Null
    | Bool(b: bool)
    | Num(token: string)
    | Str(s: string)
    | Arr(items: seq<Json>)
    | Obj(entries: seq<(string, Json)>)

  predicate NumberChar(c: char) {
    '0' <= c <= '9' || c == '-' || c == '+' || c == '.' || c == 'e' || c == 'E'
  }

  predicate Distinct<T>(entries: seq<(string, T)>) {
    forall i, j :: 0 <= i < j < |entries| ==> entries[i].0 != entries[j].0
  }

  /** Numbers have a token and objects have distinct keys, at every depth. */
  predicate WellFormed(x: Json) {
    match x
    case Num(token) => token != "" && forall k :: 0 <= k < |token| ==> NumberChar(token[k])
    case Arr(items) => forall k :: 0 <= k < |items| ==> WellFormed(items[k])
    case Obj(entries) => Distinct(entries) && forall k :: 0 <= k < |entries| ==> WellFormed(entries[k].1)
    case _ => true
  }

  // ----- what a value means -----

  datatype Value =
    | VUndefined
    | VNull
    | VBool(b: bool)
    | VNum(token: string)
    | VStr(s: string)
    | VArr(items: seq<Value>)
    | VObj(fields: map<string, Value>)

  /** The meaning of a value: an object is a map, whatever the order of its entries. An array holding only
      `undefined` joins to the empty text, so it means the empty array. */
  function Meaning(x: Json): Value {
    match x
    case Undefined => VUndefined
    case Null => VNull
    case Bool(b) => VBool(b)
    case Num(token) => VNum(token)
    case Str(s) => VStr(s)
    case Arr(items) => if items == [Undefined] then VArr([]) else VArr(Meanings(items))
    case Obj(entries) => VObj(Fields(entries))
  }

  function Meanings(items: seq<Json>): (r: seq<Value>)
    ensures |r| == |items| && forall k :: 0 <= k < |items| ==> r[k] == Meaning(items[k])
  {
    if items == [] then [] else [Meaning(items[0])] + Meanings(items[1..])
  }

  function Fields(entries: seq<(string, Json)>): map<string, Value> {
    if entries == [] then map[]
    else match entries[0] case (key, value) => assert value < entries[0]; Fields(entries[1..])[key := Meaning(value)]
  }

  // ----- the text -----

  function HexDigit(n: nat): char
    requires n < 16
  {
    if n < 10 then '0' + n as char else 'a' + (n - 10) as char
  }

  function EscapeChar(c: char): string {
    if c == '\"' then "\\\""
    else if c == '\\' then "\\\\"
    else if c as int == 8 then "\\b"
    else if c as int == 12 then "\\f"
    else if c == '\n' then "\\n"
    else if c == '\r' then "\\r"
    else if c == '\t' then "\\t"
    else if c as int < 32 then ['\\', 'u', '0', '0', HexDigit(c as int / 16), HexDigit(c as int % 16)]
    else [c]
  }

  function Escape(s: string): string {
    if s == "" then "" else EscapeChar(s[0]) + Escape(s[1..])
  }

  function Quote(s: string): string {
    "\"" + Escape(s) + "\""
  }

  function InsertByKey<T>(entries: seq<(string, T)>, e: (string, T), leq: (string, string) -> bool): seq<(string, T)> {
    if entries == [] || leq(entries[|entries| - 1].0, e.0) then entries + [e]
    else InsertByKey(entries[..|entries| - 1], e, leq) + [entries[|entries| - 1]]
  }

  function SortByKey<T>(entries: seq<(string, T)>, leq: (string, string) -> bool): seq<(string, T)> {
    if entries == [] then [] else InsertByKey(SortByKey(entries[..|entries| - 1], leq), entries[|entries| - 1], leq)
  }

  /** The canonical text. The members are rendered first and then sorted by key, which is the same as sorting first. */
  function Stringify(x: Json, leq: (string, string) -> bool): string
    decreases x, 0
  {
    match x
    case Undefined => "undefined"
    case Null => "null"
    case Bool(b) => if b then "true" else "false"
    case Num(token) => token
    case Str(s) => Quote(s)
    case Arr(items) => "[" + JoinItems(items, leq) + "]"
    case Obj(entries) => "{" + JoinMembers(SortByKey(Members(entries, leq), leq)) + "}"
  }

  /** Joining an array turns an undefined element into nothing. */
  function Element(x: Json, leq: (string, string) -> bool): string
    decreases x, 1
  {
    if x.Undefined? then "" else Stringify(x, leq)
  }

  function JoinItems(items: seq<Json>, leq: (string, string) -> bool): string
    decreases items, 2
  {
    if items == [] then ""
    else if |items| == 1 then Element(items[0], leq)
    else Element(items[0], leq) + "," + JoinItems(items[1..], leq)
  }

  function Members(entries: seq<(string, Json)>, leq: (string, string) -> bool): (r: seq<(string, string)>)
    ensures |r| == |entries|
    decreases entries, 2
  {
    if entries == [] then []
    else match entries[0] case (key, value) => assert value < entries[0]; [(key, Stringify(value, leq))] + Members(entries[1..], leq)
  }

  function JoinMembers(members: seq<(string, string)>): string {
    if members == [] then ""
    else if |members| == 1 then Quote(members[0].0) + ":" + members[0].1
    else Quote(members[0].0) + ":" + members[0].1 + "," + JoinMembers(members[1..])
  }

  lemma {:induction false} MembersAt(entries: seq<(string, Json)>, leq: (string, string) -> bool)
    ensures forall k :: 0 <= k < |entries| ==> Members(entries, leq)[k] == (entries[k].0, Stringify(entries[k].1, leq))
  {
    if entries != [] { MembersAt(entries[1..], leq); }
  }

  // ----- sorting -----

  ghost predicate TotalOrder(leq: (string, string) -> bool) {
    && (forall a, b :: leq(a, b) || leq(b, a))
    && (forall a, b :: leq(a, b) && leq(b, a) ==> a == b)
    && (forall a, b, c :: leq(a, b) && leq(b, c) ==> leq(a, c))
  }

  ghost predicate SortedByKey<T>(entries: seq<(string, T)>, leq: (string, string) -> bool) {
    forall i, j :: 0 <= i < j < |entries| ==> leq(entries[i].0, entries[j].0)
  }

  function Keys<T>(entries: seq<(string, T)>): set<string> {
    set k | 0 <= k < |entries| :: entries[k].0
  }

  lemma {:induction false} InsertKeeps<T>(entries: seq<(string, T)>, e: (string, T), leq: (string, string) -> bool)
    ensures multiset(InsertByKey(entries, e, leq)) == multiset(entries) + multiset{e}
    ensures |InsertByKey(entries, e, leq)| == |entries| + 1
  {
    if entries != [] && !leq(entries[|entries| - 1].0, e.0) {
      InsertKeeps(entries[..|entries| - 1], e, leq);
      assert entries == entries[..|entries| - 1] + [entries[|entries| - 1]];
    }
  }

  lemma {:induction false} InsertSorts<T>(entries: seq<(string, T)>, e: (string, T), leq: (string, string) -> bool)
    requires TotalOrder(leq) && SortedByKey(entries, leq)
    ensures SortedByKey(InsertByKey(entries, e, leq), leq)
  {
    if entries != [] {
      var init, last := entries[..|entries| - 1], entries[|entries| - 1];
      if leq(last.0, e.0) {
        forall i | 0 <= i < |entries| ensures leq(entries[i].0, e.0) {
          if i < |init| { assert leq(entries[i].0, last.0); }
        }
      } else {
        InsertSorts(init, e, leq);
        InsertKeeps(init, e, leq);
        var r := InsertByKey(init, e, leq);
        forall i | 0 <= i < |r| ensures leq(r[i].0, last.0) {
          assert r[i] in multiset(r);
          if r[i] != e { assert r[i] in init; }
        }
      }
    }
  }

  lemma {:induction false} SortKeeps<T>(entries: seq<(string, T)>, leq: (string, string) -> bool)
    ensures multiset(SortByKey(entries, leq)) == multiset(entries) && |SortByKey(entries, leq)| == |entries|
  {
    if entries != [] {
      SortKeeps(entries[..|entries| - 1], leq);
      InsertKeeps(SortByKey(entries[..|entries| - 1], leq), entries[|entries| - 1], leq);
      assert entries == entries[..|entries| - 1] + [entries[|entries| - 1]];
    }
  }

  lemma {:induction false} SortSorts<T>(entries: seq<(string, T)>, leq: (string, string) -> bool)
    requires TotalOrder(leq)
    ensures SortedByKey(SortByKey(entries, leq), leq)
  {
    if entries != [] {
      SortSorts(entries[..|entries| - 1], leq);
      InsertSorts(SortByKey(entries[..|entries| - 1], leq), entries[|entries| - 1], leq);
    }
  }

  lemma SameRows<T>(a: seq<(string, T)>, b: seq<(string, T)>)
    requires multiset(a) == multiset(b)
    ensures Keys(a) == Keys(b)
    ensures forall k :: 0 <= k < |a| ==> a[k] in b
  {
    forall k | 0 <= k < |a| ensures a[k] in b { assert a[k] in multiset(a); }
    forall k | 0 <= k < |b| ensures b[k] in a { assert b[k] in multiset(b); }
  }

  lemma SameMultisetDistinct<T>(a: seq<(string, T)>, b: seq<(string, T)>)
    requires multiset(a) == multiset(b) && Distinct(a)
    ensures Distinct(b)
  {
    if !Distinct(b) {
      var i, j :| 0 <= i < j < |b| && b[i].0 == b[j].0;
      assert b[i] in multiset(a) && b[j] in multiset(a);
      assert b[i] == b[j];
      assert b == b[..i] + [b[i]] + b[i + 1..j] + [b[j]] + b[j + 1..];
      assert multiset(b)[b[i]] >= 2;
      TwiceInDistinct(a, b[i]);
    }
  }

  lemma {:induction false} TwiceInDistinct<T>(a: seq<(string, T)>, e: (string, T))
    requires Distinct(a)
    ensures multiset(a)[e] <= 1
  {
    if a != [] {
      var init := a[..|a| - 1];
      TwiceInDistinct(init, e);
      assert a == init + [a[|a| - 1]];
      assert forall x :: x in multiset(init) ==> x in init;
    }
  }

  lemma MembersInit(entries: seq<(string, Json)>, leq: (string, string) -> bool)
    requires entries != []
    ensures Members(entries, leq)[..|entries| - 1] == Members(entries[..|entries| - 1], leq)
    ensures Members(entries, leq)[|entries| - 1] == (entries[|entries| - 1].0, Stringify(entries[|entries| - 1].1, leq))
  {
    MembersAt(entries, leq);
    MembersAt(entries[..|entries| - 1], leq);
  }

  lemma MembersSnoc(entries: seq<(string, Json)>, e: (string, Json), leq: (string, string) -> bool)
    ensures Members(entries + [e], leq) == Members(entries, leq) + [(e.0, Stringify(e.1, leq))]
  {
    MembersAt(entries + [e], leq);
    MembersAt(entries, leq);
  }

  lemma {:induction false} InsertCommutes(entries: seq<(string, Json)>, e: (string, Json), leq: (string, string) -> bool)
    ensures InsertByKey(Members(entries, leq), (e.0, Stringify(e.1, leq)), leq) == Members(InsertByKey(entries, e, leq), leq)
  {
    if entries == [] {
      MembersSnoc(entries, e, leq);
    } else {
      var n := |entries| - 1;
      MembersInit(entries, leq);
      if leq(entries[n].0, e.0) {
        MembersSnoc(entries, e, leq);
      } else {
        InsertCommutes(entries[..n], e, leq);
        MembersSnoc(InsertByKey(entries[..n], e, leq), entries[n], leq);
      }
    }
  }

  /** Rendering and sorting commute. */
  lemma {:induction false} SortCommutes(entries: seq<(string, Json)>, leq: (string, string) -> bool)
    ensures SortByKey(Members(entries, leq), leq) == Members(SortByKey(entries, leq), leq)
  {
    if entries != [] {
      var n := |entries| - 1;
      MembersInit(entries, leq);
      SortCommutes(entries[..n], leq);
      InsertCommutes(SortByKey(entries[..n], leq), entries[n], leq);
    }
  }

  /** Two sorted lists with the same distinct keys have them in the same places. */
  lemma {:induction false} SortedKeysAgree<T, U>(a: seq<(string, T)>, b: seq<(string, U)>, leq: (string, string) -> bool)
    requires TotalOrder(leq) && SortedByKey(a, leq) && SortedByKey(b, leq) && Distinct(a) && Distinct(b) && Keys(a) == Keys(b)
    ensures |a| == |b| && forall k :: 0 <= k < |a| ==> a[k].0 == b[k].0
  {
    SameEmptiness(a);
    SameEmptiness(b);
    if a != [] {
      LastIsGreatest(a, b, leq);
      LastIsGreatest(b, a, leq);
      DropLast(a);
      DropLast(b);
      SortedKeysAgree(a[..|a| - 1], b[..|b| - 1], leq);
    }
  }

  lemma SameEmptiness<T>(b: seq<(string, T)>)
    ensures Keys(b) == {} <==> b == []
  {
    if b != [] { assert b[0].0 in Keys(b); }
  }

  lemma LastIsGreatest<T, U>(a: seq<(string, T)>, b: seq<(string, U)>, leq: (string, string) -> bool)
    requires TotalOrder(leq) && SortedByKey(b, leq) && a != [] && b != [] && Keys(a) == Keys(b)
    ensures leq(a[|a| - 1].0, b[|b| - 1].0)
  {
    assert a[|a| - 1].0 in Keys(a);
    var p :| 0 <= p < |b| && b[p].0 == a[|a| - 1].0;
    assert p < |b| - 1 || leq(b[p].0, b[p].0);
  }

  lemma DropLast<T>(a: seq<(string, T)>)
    requires a != [] && Distinct(a)
    ensures Keys(a[..|a| - 1]) == Keys(a) - {a[|a| - 1].0}
  {
    var m := |a| - 1;
    forall k | k in Keys(a) && k != a[m].0 ensures k in Keys(a[..m]) {
      var i :| 0 <= i < |a| && a[i].0 == k;
      assert a[..m][i].0 == k;
    }
    forall k | k in Keys(a[..m]) ensures k in Keys(a) && k != a[m].0 {
      var i :| 0 <= i < m && a[..m][i].0 == k;
      assert a[i].0 == k;
    }
  }
}
