/** The canonical text can be read back: an independent reader of JSON text (RFC 8259) gets from the text of a value
    exactly what the value means. So two values have the same text exactly when they mean the same, for every total
    order on keys. */
module StableReading {
  import opened StableText

  // ----- a reader -----

  /** What was read and what is left, or no such thing at the front of the text. */
  datatype Read<+T> = Got(value: T, rest: string) | Nothing

  function HexValue(c: char): int {
    if '0' <= c <= '9' then c as int - 48
    else if 'a' <= c <= 'f' then c as int - 87
    else if 'A' <= c <= 'F' then c as int - 55
    else -1
  }

  /** The four hexadecimal digits of an escape; half a surrogate pair is no character. */
  function ReadCode(t: string): Read<char> {
    if |t| < 4 then Nothing
    else
      var a, b, c, d := HexValue(t[0]), HexValue(t[1]), HexValue(t[2]), HexValue(t[3]);
      if a < 0 || b < 0 || c < 0 || d < 0 then Nothing
      else
        var code := 4096 * a + 256 * b + 16 * c + d;
        if 0xD800 <= code < 0xE000 || code >= 0x1_0000 then Nothing else Got(code as char, t[4..])
  }

  /** One character of a string, by the two-character and the hexadecimal escapes of section 7 of RFC 8259. */
  function ReadChar(t: string): (r: Read<char>)
    ensures r.Got? ==> |r.rest| < |t|
  {
    if t == "" || t[0] as int < 0x20 || t[0] == '\"' then Nothing
    else if t[0] != '\\' then Got(t[0], t[1..])
    else if |t| == 1 then Nothing
    else match t[1]
      case '\"' => Got('\"', t[2..])
      case '\\' => Got('\\', t[2..])
      case '/' => Got('/', t[2..])
      case 'b' => Got(8 as char, t[2..])
      case 'f' => Got(12 as char, t[2..])
      case 'n' => Got('\n', t[2..])
      case 'r' => Got('\r', t[2..])
      case 't' => Got('\t', t[2..])
      case 'u' => ReadCode(t[2..])
      case _ => Nothing
  }

  /** The characters up to the closing quote. */
  function ReadChars(t: string): (r: Read<string>)
    ensures r.Got? ==> |r.rest| < |t|
    decreases |t|
  {
    if t != "" && t[0] == '\"' then Got("", t[1..])
    else match ReadChar(t)
      case Nothing => Nothing
      case Got(c, rest) =>
        match ReadChars(rest)
        case Nothing => Nothing
        case Got(s, end) => Got([c] + s, end)
  }

  function ReadString(t: string): (r: Read<string>)
    ensures r.Got? ==> |r.rest| < |t|
  {
    if t != "" && t[0] == '\"' then ReadChars(t[1..]) else Nothing
  }

  function NumberLength(t: string): (n: nat)
    ensures n <= |t|
  {
    if t != "" && NumberChar(t[0]) then 1 + NumberLength(t[1..]) else 0
  }

  function ToMap(fields: seq<(string, Value)>): map<string, Value> {
    if fields == [] then map[] else ToMap(fields[1..])[fields[0].0 := fields[0].1]
  }

  /** A value. The audit text also has the word `undefined`, and between commas an empty element for it. */
  function ReadValue(t: string): (r: Read<Value>)
    ensures r.Got? ==> |r.rest| < |t|
    decreases |t|, 0
  {
    if t == "" then Nothing
    else if t[0] == '\"' then (match ReadString(t) case Nothing => Nothing case Got(s, rest) => Got(VStr(s), rest))
    else if t[0] == '[' then
      if t[1..] != "" && t[1] == ']' then Got(VArr([]), t[2..])
      else (match ReadElements(t[1..]) case Nothing => Nothing case Got(vs, rest) => Got(VArr(vs), rest))
    else if t[0] == '{' then
      if t[1..] != "" && t[1] == '}' then Got(VObj(map[]), t[2..])
      else (match ReadMembers(t[1..])
            case Nothing => Nothing
            case Got(fields, rest) => if Distinct(fields) then Got(VObj(ToMap(fields)), rest) else Nothing)
    else if NumberChar(t[0]) then Got(VNum(t[..NumberLength(t)]), t[NumberLength(t)..])
    else if "null" <= t then Got(VNull, t[4..])
    else if "true" <= t then Got(VBool(true), t[4..])
    else if "false" <= t then Got(VBool(false), t[5..])
    else if "undefined" <= t then Got(VUndefined, t[9..])
    else Nothing
  }

  function ReadElement(t: string): (r: Read<Value>)
    ensures r.Got? ==> |r.rest| <= |t|
    decreases |t|, 1
  {
    if t != "" && (t[0] == ',' || t[0] == ']') then Got(VUndefined, t) else ReadValue(t)
  }

  /** Elements up to the closing bracket. */
  function ReadElements(t: string): (r: Read<seq<Value>>)
    ensures r.Got? ==> |r.rest| < |t|
    decreases |t|, 2
  {
    match ReadElement(t)
    case Nothing => Nothing
    case Got(v, rest) =>
      if rest == "" then Nothing
      else if rest[0] == ']' then Got([v], rest[1..])
      else if rest[0] != ',' then Nothing
      else (match ReadElements(rest[1..]) case Nothing => Nothing case Got(vs, end) => Got([v] + vs, end))
  }

  function ReadMember(t: string): (r: Read<(string, Value)>)
    ensures r.Got? ==> |r.rest| < |t|
    decreases |t|, 1
  {
    match ReadString(t)
    case Nothing => Nothing
    case Got(key, rest) =>
      if rest == "" || rest[0] != ':' then Nothing
      else (match ReadValue(rest[1..]) case Nothing => Nothing case Got(v, end) => Got((key, v), end))
  }

  /** Members up to the closing brace, in the order of the text. */
  function ReadMembers(t: string): (r: Read<seq<(string, Value)>>)
    ensures r.Got? ==> |r.rest| < |t|
    decreases |t|, 2
  {
    match ReadMember(t)
    case Nothing => Nothing
    case Got(field, rest) =>
      if rest == "" then Nothing
      else if rest[0] == '}' then Got([field], rest[1..])
      else if rest[0] != ',' then Nothing
      else (match ReadMembers(rest[1..]) case Nothing => Nothing case Got(fields, end) => Got([field] + fields, end))
  }

  // ----- small pieces -----

  /** Which of the readable forms the text uses: every character stands for itself, except the quote and the backslash
      behind a backslash, five control characters by their letter, and the other control characters by two lower-case
      hexadecimal digits. */
  lemma EscapesAreShortest(c: char)
    ensures EscapeChar(c) ==
      if c == '\"' || c == '\\' then ['\\', c]
      else if c as int >= 0x20 then [c]
      else match c as int
        case 8 => "\\b"
        case 9 => "\\t"
        case 10 => "\\n"
        case 12 => "\\f"
        case 13 => "\\r"
        case n => "\\u00" + ["01"[n / 16], "0123456789abcdef"[n % 16]]
  {
  }

  lemma Regroup(a: string, b: string, c: string)
    ensures (a + b) + c == a + (b + c)
  {
  }

  lemma EscapeSplit(s: string, rest: string)
    requires rest != ""
    ensures s != "" ==> Escape(s) + rest == EscapeChar(s[0]) + (Escape(s[1..]) + rest)
    ensures (Escape(s) + rest)[0] == if s == "" then rest[0] else EscapeChar(s[0])[0]
  {
    if s == "" {
      assert Escape(s) + rest == rest;
    } else {
      var head, tail := EscapeChar(s[0]), Escape(s[1..]);
      assert Escape(s) == head + tail;
      Regroup(head, tail, rest);
      FirstOf(head, tail + rest);
    }
  }

  lemma FirstOf(a: string, b: string)
    requires a != ""
    ensures (a + b)[0] == a[0]
  {
  }

  lemma HexReads(n: nat)
    requires n < 16
    ensures HexValue(HexDigit(n)) == n && HexDigit(n) != '\"'
  {
  }

  lemma Dropped(a: string, b: string)
    ensures (a + b)[|a|..] == b && (forall k :: 0 <= k < |a| ==> (a + b)[k] == a[k])
  {
  }

  lemma EscapeCharReads(c: char, rest: string)
    ensures ReadChar(EscapeChar(c) + rest) == Got(c, rest) && EscapeChar(c)[0] != '\"'
  {
    Dropped(EscapeChar(c), rest);
    if |EscapeChar(c)| == 6 {
      CodeReads(c, rest);
    }
  }

  lemma CodeReads(c: char, rest: string)
    requires |EscapeChar(c)| == 6
    ensures ReadChar(EscapeChar(c) + rest) == Got(c, rest)
  {
    var n := c as int;
    HexReads(n / 16);
    HexReads(n % 16);
    var t := EscapeChar(c) + rest;
    Dropped(EscapeChar(c), rest);
    assert t[2..][4..] == rest;
    assert n == 16 * (n / 16) + n % 16 && n as char == c;
  }

  /** Reading an escaped string up to its closing quote gives the string back, whatever follows. */
  lemma {:induction false} EscapedReads(s: string, rest: string)
    ensures ReadChars(Escape(s) + ("\"" + rest)) == Got(s, rest)
  {
    EscapeSplit(s, "\"" + rest);
    if s == "" {
      assert Escape(s) + ("\"" + rest) == "\"" + rest;
      Dropped("\"", rest);
    } else {
      EscapeCharReads(s[0], Escape(s[1..]) + ("\"" + rest));
      EscapedReads(s[1..], rest);
      assert s == [s[0]] + s[1..];
    }
  }

  /** A quoted string ends at its closing quote and nowhere else. */
  lemma StringReads(s: string, t: string, r: string, q: string)
    requires r != "" && q != "" && r[0] == '\"' && q[0] == '\"'
    requires Escape(s) + r == Escape(t) + q
    ensures s == t && r == q
  {
    EscapedReads(s, r[1..]);
    EscapedReads(t, q[1..]);
    assert r == "\"" + r[1..] && q == "\"" + q[1..];
  }

  lemma QuoteSplit(s: string, r: string)
    ensures Quote(s) + r == "\"" + (Escape(s) + ("\"" + r))
  {
    Regroup("\"" + Escape(s), "\"", r);
    Regroup("\"", Escape(s), "\"" + r);
  }

  lemma QuoteReads(s: string, rest: string)
    ensures ReadString(Quote(s) + rest) == Got(s, rest) && (Quote(s) + rest)[0] == '\"'
  {
    QuoteSplit(s, rest);
    Dropped("\"", Escape(s) + ("\"" + rest));
    EscapedReads(s, rest);
  }

  /** What may follow a value: the end of the text, a comma or a closing bracket. */
  predicate Delimited(r: string) {
    r == "" || r[0] == ',' || r[0] == ']' || r[0] == '}'
  }

  lemma {:induction false} TokenReads(token: string, rest: string)
    requires (forall k :: 0 <= k < |token| ==> NumberChar(token[k])) && Delimited(rest)
    ensures NumberLength(token + rest) == |token|
  {
    if token == "" {
      assert token + rest == rest;
    } else {
      assert (token + rest)[1..] == token[1..] + rest;
      TokenReads(token[1..], rest);
    }
  }

  lemma Head(x: Json, leq: (string, string) -> bool)
    requires WellFormed(x)
    ensures Stringify(x, leq) != "" && !Delimited(Stringify(x, leq))
  {
  }

  // ----- objects as maps -----

  lemma {:induction false} FieldsAt(entries: seq<(string, Json)>)
    requires Distinct(entries)
    ensures Fields(entries).Keys == Keys(entries)
    ensures forall k :: 0 <= k < |entries| ==> entries[k].0 in Fields(entries) && Fields(entries)[entries[k].0] == Meaning(entries[k].1)
  {
    if entries != [] {
      var rest := entries[1..];
      FieldsAt(rest);
      assert entries[0] == (entries[0].0, entries[0].1);
      forall k | 0 <= k < |entries|
        ensures entries[k].0 in Fields(entries) && Fields(entries)[entries[k].0] == Meaning(entries[k].1)
      {
        if k > 0 { assert entries[k] == rest[k - 1]; }
      }
      forall key | key in Fields(entries).Keys ensures key in Keys(entries) {
        if key != entries[0].0 {
          var i :| 0 <= i < |rest| && rest[i].0 == key;
          assert entries[i + 1].0 == key;
        }
      }
    }
  }

  lemma SortedEntries(entries: seq<(string, Json)>, leq: (string, string) -> bool)
    requires TotalOrder(leq) && Distinct(entries)
    ensures var sorted := SortByKey(entries, leq);
      && SortedByKey(sorted, leq) && Distinct(sorted) && Keys(sorted) == Keys(entries)
      && (forall k :: 0 <= k < |sorted| ==> sorted[k] in entries)
      && Fields(sorted) == Fields(entries)
  {
    var sorted := SortByKey(entries, leq);
    SortSorts(entries, leq);
    SortKeeps(entries, leq);
    SameMultisetDistinct(entries, sorted);
    SameRows(sorted, entries);
    SameRowsSameFields(sorted, entries);
  }

  lemma SameRowsSameFields(a: seq<(string, Json)>, b: seq<(string, Json)>)
    requires Distinct(a) && Distinct(b) && Keys(a) == Keys(b)
    requires forall k :: 0 <= k < |a| ==> a[k] in b
    ensures Fields(a) == Fields(b)
  {
    FieldsAt(a);
    FieldsAt(b);
    forall key | key in Fields(a) ensures Fields(a)[key] == Fields(b)[key] {
      var i :| 0 <= i < |a| && a[i].0 == key;
      assert a[i] in b;
    }
  }

  lemma EntrySmaller(x: Json, e: (string, Json))
    requires x.Obj? && e in x.entries
    ensures e.1 < x
  {
    var k :| 0 <= k < |x.entries| && x.entries[k] == e;
    match x.entries[k] { case (key, value) => assert value < x.entries[k]; }
  }

  /** The members as they are read, in the order of their text. */
  function Meant(a: seq<(string, Json)>): (r: seq<(string, Value)>)
    ensures |r| == |a|
  {
    if a == [] then [] else [(a[0].0, Meaning(a[0].1))] + Meant(a[1..])
  }

  lemma {:induction false} MeantAt(a: seq<(string, Json)>)
    ensures forall k :: 0 <= k < |a| ==> Meant(a)[k] == (a[k].0, Meaning(a[k].1))
  {
    if a != [] { MeantAt(a[1..]); }
  }

  lemma {:induction false} MeantIsFields(a: seq<(string, Json)>)
    requires Distinct(a)
    ensures Distinct(Meant(a)) && Keys(Meant(a)) == Keys(a) && ToMap(Meant(a)) == Fields(a)
  {
    MeantAt(a);
    MeantToMap(a);
    SameKeysBySteps(Meant(a), a);
  }

  lemma SameKeysBySteps<T, U>(a: seq<(string, T)>, b: seq<(string, U)>)
    requires |a| == |b| && forall k :: 0 <= k < |a| ==> a[k].0 == b[k].0
    ensures Keys(a) == Keys(b)
  {
    forall key | key in Keys(a) ensures key in Keys(b) {
      var k :| 0 <= k < |a| && a[k].0 == key;
      assert b[k].0 == key;
    }
    forall key | key in Keys(b) ensures key in Keys(a) {
      var k :| 0 <= k < |b| && b[k].0 == key;
      assert a[k].0 == key;
    }
  }

  lemma {:induction false} MeantToMap(a: seq<(string, Json)>)
    ensures ToMap(Meant(a)) == Fields(a)
  {
    if a != [] {
      assert a[0] == (a[0].0, a[0].1);
      assert Meant(a)[1..] == Meant(a[1..]);
      MeantToMap(a[1..]);
    }
  }

  // ----- reading back -----

  /** Reading the text of a value gives its meaning and leaves what follows. */
  lemma {:induction false} ReadsBack(x: Json, r: string, leq: (string, string) -> bool)
    requires TotalOrder(leq) && WellFormed(x) && Delimited(r)
    ensures ReadValue(Stringify(x, leq) + r) == Got(Meaning(x), r)
    decreases x, 1, 0
  {
    match x {
      case Num(token) =>
        TokenReads(token, r);
        Dropped(token, r);
        assert (token + r)[..|token|] == token;
      case Str(s) => QuoteReads(s, r);
      case Arr(items) => ArrayReadsBack(x, r, leq);
      case Obj(entries) => ObjectReadsBack(x, r, leq);
      case _ => WordReads(x, r, leq);
    }
  }

  lemma WordReads(x: Json, r: string, leq: (string, string) -> bool)
    requires x.Undefined? || x.Null? || x.Bool?
    ensures ReadValue(Stringify(x, leq) + r) == Got(Meaning(x), r)
  {
    var word := Stringify(x, leq);
    Dropped(word, r);
    assert word <= word + r;
    assert (word + r)[0] == word[0] && !NumberChar(word[0]);
  }

  lemma {:induction false} ArrayReadsBack(x: Json, r: string, leq: (string, string) -> bool)
    requires TotalOrder(leq) && WellFormed(x) && x.Arr?
    ensures ReadValue(Stringify(x, leq) + r) == Got(Meaning(x), r)
    decreases x, 0, |x.items| + 1
  {
    var a := if x.items == [] then [Undefined] else x.items;
    ArraySplit(x, a, r, leq);
    if a == [Undefined] {
      assert JoinItems(a, leq) == "";
      EmptyArrayReads(r);
    } else {
      ItemsHead(a, "]" + r, leq);
      ItemsReadBack(x, a, r, leq);
      BracketedReads(JoinItems(a, leq) + ("]" + r), Meanings(a), r);
    }
  }

  lemma EmptyArrayReads(r: string)
    ensures ReadValue("[" + ("" + ("]" + r))) == Got(VArr([]), r)
  {
    var t := "[" + ("" + ("]" + r));
    assert t[0] == '[' && t[1] == ']' && t[2..] == r;
  }

  lemma BracketedReads(inner: string, items: seq<Value>, r: string)
    requires ReadElements(inner) == Got(items, r) && inner != "" && inner[0] != ']'
    ensures ReadValue("[" + inner) == Got(VArr(items), r)
  {
    Dropped("[", inner);
    assert ("[" + inner)[1] == inner[0];
  }

  lemma ArraySplit(x: Json, a: seq<Json>, r: string, leq: (string, string) -> bool)
    requires x.Arr? && a == if x.items == [] then [Undefined] else x.items
    ensures Stringify(x, leq) + r == "[" + (JoinItems(a, leq) + ("]" + r))
  {
    Regroup("[" + JoinItems(a, leq), "]", r);
    Regroup("[", JoinItems(a, leq), "]" + r);
  }

  /** The text after the first element. */
  function ItemsTail(items: seq<Json>, rest: string, leq: (string, string) -> bool): string
    requires items != []
  {
    if |items| == 1 then rest else "," + (JoinItems(items[1..], leq) + rest)
  }

  lemma ItemsSplit(items: seq<Json>, rest: string, leq: (string, string) -> bool)
    requires items != []
    ensures JoinItems(items, leq) + rest == Element(items[0], leq) + ItemsTail(items, rest, leq)
  {
    if |items| > 1 { Regroup4(Element(items[0], leq), ",", JoinItems(items[1..], leq), rest); }
  }

  /** Text that begins with a delimiter begins with no element. */
  lemma ElementHead(x: Json, tail: string, leq: (string, string) -> bool)
    requires WellFormed(x) && tail != ""
    ensures !x.Undefined? ==> !Delimited(Element(x, leq) + tail)
    ensures x.Undefined? ==> Element(x, leq) + tail == tail
  {
    if !x.Undefined? {
      Head(x, leq);
      assert (Element(x, leq) + tail)[0] == Stringify(x, leq)[0];
    }
  }

  lemma ItemsHead(items: seq<Json>, rest: string, leq: (string, string) -> bool)
    requires items != [] && WellFormed(items[0]) && rest != "" && rest[0] == ']'
    ensures var tail := ItemsTail(items, rest, leq);
      && tail != "" && Delimited(tail) && tail[0] == (if |items| == 1 then ']' else ',')
      && JoinItems(items, leq) + rest == Element(items[0], leq) + tail
    ensures items[0].Undefined? ==> JoinItems(items, leq) + rest == ItemsTail(items, rest, leq)
    ensures items[0].Undefined? <==> Delimited(JoinItems(items, leq) + rest)
  {
    ItemsSplit(items, rest, leq);
    ElementHead(items[0], ItemsTail(items, rest, leq), leq);
  }

  lemma {:induction false} ItemsReadBack(x: Json, a: seq<Json>, r: string, leq: (string, string) -> bool)
    requires TotalOrder(leq) && a != []
    requires forall k :: 0 <= k < |a| ==> a[k] < x && WellFormed(a[k])
    ensures ReadElements(JoinItems(a, leq) + ("]" + r)) == Got(Meanings(a), r)
    decreases x, 0, |a|
  {
    var rest := "]" + r;
    var tail := ItemsTail(a, rest, leq);
    ItemsHead(a, rest, leq);
    if !a[0].Undefined? { ReadsBack(a[0], tail, leq); }
    assert ReadElement(JoinItems(a, leq) + rest) == Got(Meaning(a[0]), tail);
    if |a| > 1 {
      ItemsReadBack(x, a[1..], r, leq);
      Dropped(",", JoinItems(a[1..], leq) + rest);
    } else {
      Dropped("]", r);
      assert Meanings(a) == [Meaning(a[0])];
    }
  }

  lemma {:induction false} ObjectReadsBack(x: Json, r: string, leq: (string, string) -> bool)
    requires TotalOrder(leq) && WellFormed(x) && x.Obj?
    ensures ReadValue(Stringify(x, leq) + r) == Got(Meaning(x), r)
    decreases x, 0, |x.entries| + 1
  {
    var a := SortByKey(x.entries, leq);
    if a == [] {
      ObjectSplit(x, r, leq);
      EmptyObjectReads(r);
    } else {
      SortedMembersRead(x, a, r, leq);
      ObjectSplit(x, r, leq);
      BracedReads(JoinMembers(Members(a, leq)) + ("}" + r), Meant(a), r);
    }
  }

  lemma EmptyObjectReads(r: string)
    ensures ReadValue("{" + ("" + ("}" + r))) == Got(VObj(map[]), r)
  {
    var t := "{" + ("" + ("}" + r));
    assert t[0] == '{' && t[1] == '}' && t[2..] == r;
  }

  lemma BracedReads(inner: string, fields: seq<(string, Value)>, r: string)
    requires ReadMembers(inner) == Got(fields, r) && inner != "" && inner[0] != '}' && Distinct(fields)
    ensures ReadValue("{" + inner) == Got(VObj(ToMap(fields)), r)
  {
    Dropped("{", inner);
    assert ("{" + inner)[1] == inner[0];
  }

  lemma {:induction false} SortedMembersRead(x: Json, a: seq<(string, Json)>, r: string, leq: (string, string) -> bool)
    requires TotalOrder(leq) && WellFormed(x) && x.Obj? && a == SortByKey(x.entries, leq) && x.entries != []
    ensures var inner := JoinMembers(Members(a, leq)) + ("}" + r);
      && Stringify(x, leq) + r == "{" + inner
      && inner != "" && inner[0] != '}' && ReadMembers(inner) == Got(Meant(a), r)
      && InOrder(Meant(a), x.entries, leq)
    decreases x, 0, |x.entries|, 1
  {
    ObjectSplit(x, r, leq);
    MembersReadInOrder(x, a, r, leq);
    SortedMeant(x.entries, leq);
    FieldsSplit(a, "}" + r, leq);
    QuoteReads(a[0].0, ":" + (Stringify(a[0].1, leq) + FieldsTail(a, "}" + r, leq)));
  }

  lemma SortedMeant(entries: seq<(string, Json)>, leq: (string, string) -> bool)
    requires TotalOrder(leq) && Distinct(entries)
    ensures InOrder(Meant(SortByKey(entries, leq)), entries, leq)
  {
    var a := SortByKey(entries, leq);
    SortedEntries(entries, leq);
    SortKeeps(entries, leq);
    MeantAt(a);
    MeantIsFields(a);
  }

  lemma {:induction false} MembersReadInOrder(x: Json, a: seq<(string, Json)>, r: string, leq: (string, string) -> bool)
    requires TotalOrder(leq) && x.Obj? && a != []
    requires forall k :: 0 <= k < |a| ==> a[k] in x.entries && WellFormed(a[k].1)
    ensures ReadMembers(JoinMembers(Members(a, leq)) + ("}" + r)) == Got(Meant(a), r)
    decreases x, 0, |a|, 0
  {
    var rest := "}" + r;
    MemberReads(x, a, rest, leq);
    TailDelimiter(a, rest, leq);
    if |a| > 1 {
      MembersReadInOrder(x, a[1..], r, leq);
      Dropped(",", JoinMembers(Members(a[1..], leq)) + rest);
    } else {
      Dropped("}", r);
      assert Meant(a) == [(a[0].0, Meaning(a[0].1))];
    }
  }

  lemma {:induction false} MemberReads(x: Json, a: seq<(string, Json)>, rest: string, leq: (string, string) -> bool)
    requires TotalOrder(leq) && x.Obj? && a != [] && a[0] in x.entries && WellFormed(a[0].1)
    requires rest != "" && rest[0] == '}'
    ensures ReadMember(JoinMembers(Members(a, leq)) + rest) == Got((a[0].0, Meaning(a[0].1)), FieldsTail(a, rest, leq))
    decreases x, 0, 0
  {
    var tail := FieldsTail(a, rest, leq);
    FieldsSplit(a, rest, leq);
    EntrySmaller(x, a[0]);
    TailDelimiter(a, rest, leq);
    QuoteReads(a[0].0, ":" + (Stringify(a[0].1, leq) + tail));
    Dropped(":", Stringify(a[0].1, leq) + tail);
    ReadsBack(a[0].1, tail, leq);
  }

  lemma ObjectSplit(x: Json, r: string, leq: (string, string) -> bool)
    requires TotalOrder(leq) && WellFormed(x) && x.Obj?
    ensures var a := SortByKey(x.entries, leq);
      && Stringify(x, leq) + r == "{" + (JoinMembers(Members(a, leq)) + ("}" + r))
      && Fields(a) == Fields(x.entries) && |a| == |x.entries|
      && forall k :: 0 <= k < |a| ==> a[k] in x.entries && WellFormed(a[k].1)
  {
    SortCommutes(x.entries, leq);
    SortKeeps(x.entries, leq);
    SortedEntries(x.entries, leq);
    var j := JoinMembers(Members(SortByKey(x.entries, leq), leq));
    Regroup("{" + j, "}", r);
    Regroup("{", j, "}" + r);
  }

  function FieldsTail(a: seq<(string, Json)>, rest: string, leq: (string, string) -> bool): string
    requires a != []
  {
    if |a| == 1 then rest else "," + (JoinMembers(Members(a[1..], leq)) + rest)
  }

  lemma Regroup6(a: string, b: string, c: string, d: string, e: string, f: string)
    ensures a + b + c + d + e + f == a + (b + (c + (d + (e + f))))
  {
    Regroup(a + b + c + d, e, f);
    Regroup(a + b + c, d, e + f);
    Regroup(a + b, c, d + (e + f));
    Regroup(a, b, c + (d + (e + f)));
  }

  lemma Regroup4(a: string, b: string, c: string, d: string)
    ensures a + b + c + d == a + (b + (c + d))
  {
    Regroup(a + b, c, d);
    Regroup(a, b, c + d);
  }

  lemma FieldsSplit(a: seq<(string, Json)>, rest: string, leq: (string, string) -> bool)
    requires a != []
    ensures JoinMembers(Members(a, leq)) + rest == Quote(a[0].0) + (":" + (Stringify(a[0].1, leq) + FieldsTail(a, rest, leq)))
  {
    MembersHeadTail(a, leq);
    JoinSplit(Members(a, leq), rest);
  }

  lemma MembersHeadTail(a: seq<(string, Json)>, leq: (string, string) -> bool)
    requires a != []
    ensures Members(a, leq) == [(a[0].0, Stringify(a[0].1, leq))] + Members(a[1..], leq)
  {
    assert a[0] == (a[0].0, a[0].1);
  }

  lemma JoinSplit(m: seq<(string, string)>, rest: string)
    requires m != []
    ensures JoinMembers(m) + rest == Quote(m[0].0) + (":" + (m[0].1 + if |m| == 1 then rest else "," + (JoinMembers(m[1..]) + rest)))
  {
    if |m| > 1 {
      Regroup6(Quote(m[0].0), ":", m[0].1, ",", JoinMembers(m[1..]), rest);
    } else {
      Regroup4(Quote(m[0].0), ":", m[0].1, rest);
    }
  }

  lemma TailDelimiter(a: seq<(string, Json)>, r: string, leq: (string, string) -> bool)
    requires a != [] && r != "" && r[0] == '}'
    ensures FieldsTail(a, r, leq) != "" && FieldsTail(a, r, leq)[0] == if |a| == 1 then '}' else ','
  {
  }

  /** Texts that agree up to what follows the values come from values that mean the same. */
  lemma Reads(x: Json, y: Json, r: string, q: string, leq: (string, string) -> bool)
    requires TotalOrder(leq) && WellFormed(x) && WellFormed(y) && Delimited(r) && Delimited(q)
    requires Stringify(x, leq) + r == Stringify(y, leq) + q
    ensures Meaning(x) == Meaning(y) && r == q
  {
    ReadsBack(x, r, leq);
    ReadsBack(y, q, leq);
  }

  /** The whole text of a value reads as its meaning, with nothing left. */
  lemma TextReadsBack(x: Json, leq: (string, string) -> bool)
    requires TotalOrder(leq) && WellFormed(x)
    ensures ReadValue(Stringify(x, leq)) == Got(Meaning(x), "")
  {
    ReadsBack(x, "", leq);
    assert Stringify(x, leq) + "" == Stringify(x, leq);
  }

  /** The members of an object stand in its text in ascending order of their keys, each once, with its value. */
  lemma MembersStandInOrder(entries: seq<(string, Json)>, leq: (string, string) -> bool)
    requires TotalOrder(leq) && WellFormed(Obj(entries)) && entries != []
    ensures exists fields ::
      && Stringify(Obj(entries), leq)[..1] == "{"
      && ReadMembers(Stringify(Obj(entries), leq)[1..]) == Got(fields, "")
      && InOrder(fields, entries, leq)
  {
    var x, a := Obj(entries), SortByKey(entries, leq);
    SortedMembersRead(x, a, "", leq);
    assert Stringify(x, leq) + "" == Stringify(x, leq);
    Dropped("{", JoinMembers(Members(a, leq)) + ("}" + ""));
  }

  ghost predicate InOrder(fields: seq<(string, Value)>, entries: seq<(string, Json)>, leq: (string, string) -> bool) {
    SortedByKey(fields, leq) && Distinct(fields) && |fields| == |entries| && ToMap(fields) == Fields(entries)
  }

  // ----- canonicity -----

  lemma {:induction false} SameText(x: Json, y: Json, leq: (string, string) -> bool)
    requires TotalOrder(leq) && WellFormed(x) && WellFormed(y) && Meaning(x) == Meaning(y)
    ensures Stringify(x, leq) == Stringify(y, leq)
    decreases x, 1, 0
  {
    match x {
      case Arr(items) =>
        if items != [Undefined] && y.items != [Undefined] {
          ItemsSame(x, items, y.items, leq);
        } else {
          EmptyText(items, leq);
          EmptyText(y.items, leq);
        }
      case Obj(entries) => ObjectsSame(x, y, leq);
      case _ =>
    }
  }

  lemma EmptyText(items: seq<Json>, leq: (string, string) -> bool)
    ensures Meaning(Arr(items)) == VArr([]) ==> JoinItems(items, leq) == ""
    ensures items == [Undefined] ==> Meaning(Arr(items)) == VArr([])
  {
    assert |Meanings(items)| == |items|;
  }

  lemma {:induction false} ItemsSame(x: Json, a: seq<Json>, b: seq<Json>, leq: (string, string) -> bool)
    requires TotalOrder(leq) && Meanings(a) == Meanings(b)
    requires forall k :: 0 <= k < |a| ==> a[k] < x && WellFormed(a[k])
    requires forall k :: 0 <= k < |b| ==> WellFormed(b[k])
    ensures JoinItems(a, leq) == JoinItems(b, leq)
    decreases x, 0, |a|
  {
    if a != [] {
      assert Meaning(a[0]) == Meanings(a)[0] == Meanings(b)[0] == Meaning(b[0]);
      SameText(a[0], b[0], leq);
      assert Meanings(a[1..]) == Meanings(a)[1..] && Meanings(b[1..]) == Meanings(b)[1..];
      ItemsSame(x, a[1..], b[1..], leq);
    }
  }

  lemma {:induction false} ObjectsSame(x: Json, y: Json, leq: (string, string) -> bool)
    requires TotalOrder(leq) && WellFormed(x) && WellFormed(y) && x.Obj? && y.Obj? && Meaning(x) == Meaning(y)
    ensures Stringify(x, leq) == Stringify(y, leq)
    decreases x, 0, |x.entries| + 1
  {
    var a, b := SortByKey(x.entries, leq), SortByKey(y.entries, leq);
    SortCommutes(x.entries, leq);
    SortCommutes(y.entries, leq);
    SortedEntries(x.entries, leq);
    SortedEntries(y.entries, leq);
    FieldsAt(a);
    FieldsAt(b);
    SortedKeysAgree(a, b, leq);
    MembersAt(a, leq);
    MembersAt(b, leq);
    forall k | 0 <= k < |a| ensures Members(a, leq)[k] == Members(b, leq)[k] {
      EntrySmaller(x, a[k]);
      assert Meaning(a[k].1) == Fields(a)[a[k].0] == Fields(b)[b[k].0] == Meaning(b[k].1);
      SameText(a[k].1, b[k].1, leq);
    }
    assert Members(a, leq) == Members(b, leq);
  }

  /** The audit text of two values is the same exactly when the values mean the same: key order never matters,
      and nothing else is ever lost, at any depth, for every total order on keys. It reads as that meaning. */
  lemma TextIsCanonical(x: Json, y: Json, leq: (string, string) -> bool)
    requires TotalOrder(leq) && WellFormed(x) && WellFormed(y)
    ensures Stringify(x, leq) == Stringify(y, leq) <==> Meaning(x) == Meaning(y)
    ensures ReadValue(Stringify(x, leq)) == Got(Meaning(x), "")
  {
    TextReadsBack(x, leq);
    if Stringify(x, leq) == Stringify(y, leq) {
      Reads(x, y, "", "", leq);
    }
    if Meaning(x) == Meaning(y) {
      SameText(x, y, leq);
    }
  }

  /** The one loss: an array whose only element is undefined has the text of the empty array. */
  lemma UndefinedElementIsLost(leq: (string, string) -> bool)
    ensures Stringify(Arr([Undefined]), leq) == Stringify(Arr([]), leq) && Arr([Undefined]) != Arr([])
  {
    assert JoinItems([Undefined], leq) == "" && JoinItems([], leq) == "";
  }

  lemma KeyOrderIsIrrelevant(a: seq<(string, Json)>, b: seq<(string, Json)>, leq: (string, string) -> bool)
    requires TotalOrder(leq) && WellFormed(Obj(a)) && WellFormed(Obj(b)) && multiset(a) == multiset(b)
    ensures Stringify(Obj(a), leq) == Stringify(Obj(b), leq)
  {
    SameRows(a, b);
    SameRowsSameFields(a, b);
    SameText(Obj(a), Obj(b), leq);
  }
}
