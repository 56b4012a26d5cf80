/** admin.audit.ts: the per-tenant audit chain. The hash is an injective function of the canonical text, a clock
    reading is the text of its ISO form, and the request context is a parameter. */
module AuditChain {
  import opened Prelude
  import opened StableText
  import opened StableReading

  /** The largest value of the sequence columns. */
  const MAX_SEQUENCE := 2_147_483_647

  datatype Input = Input(
    organizationId: string, actorUserId: Option<string>, action: string, resource: string,
    resourceId: Option<string>, summary: string, metadata: Option<Json>)

  datatype Context = Context(ipAddress: string, userAgent: string)

  datatype Entry = Entry(
    organizationId: string, actorUserId: Option<string>, sequence: nat, action: string, resource: string,
    resourceId: Option<string>, summary: string, metadata: Json, previousHash: Option<string>, hash: string,
    createdAt: string)

  datatype ChainRow = ChainRow(lastHash: Option<string>, sequence: nat)

  datatype Trail = Trail(log: seq<Entry>, chains: map<string, ChainRow>)

  // ----- metadata -----

  predicate Falsy(x: Json) {
    x == Undefined || x == Null || x == Bool(false) || x == Str("") || x == Num("0")
  }

  function Lookup(entries: seq<(string, Json)>, key: string): Json {
    if entries == [] then Undefined else if entries[0].0 == key then entries[0].1 else Lookup(entries[1..], key)
  }

  /** Writing a property: in place when the key exists, at the end otherwise. */
  function Assign(entries: seq<(string, Json)>, key: string, value: Json): seq<(string, Json)> {
    if entries == [] then [(key, value)]
    else if entries[0].0 == key then [(key, value)] + entries[1..]
    else [entries[0]] + Assign(entries[1..], key, value)
  }

  function Base(metadata: Option<Json>): seq<(string, Json)> {
    if metadata.Some? && metadata.value.Obj? then metadata.value.entries else []
  }

  function Supply(base: seq<(string, Json)>, entries: seq<(string, Json)>, key: string, value: string): seq<(string, Json)> {
    if value != "" && Falsy(Lookup(base, key)) then Assign(entries, key, Str(value)) else entries
  }

  function MergeAuditMetadata(metadata: Option<Json>, context: Option<Context>): Json {
    var base := Base(metadata);
    if context.None? then Obj(base)
    else Obj(Supply(base, Supply(base, base, "ipAddress", context.value.ipAddress), "userAgent", context.value.userAgent))
  }

  lemma {:induction false} AssignKeys(entries: seq<(string, Json)>, key: string, value: Json)
    ensures Keys(Assign(entries, key, value)) == Keys(entries) + {key}
  {
    if entries == [] {
      KeysCons((key, value), []);
      assert Assign(entries, key, value) == [(key, value)] + [];
    } else {
      var head, rest := entries[0], entries[1..];
      KeysCons(head, rest);
      assert entries == [head] + rest;
      if head.0 == key {
        KeysCons((key, value), rest);
      } else {
        AssignKeys(rest, key, value);
        KeysCons(head, Assign(rest, key, value));
      }
    }
  }

  lemma {:induction false} AssignWellFormed(entries: seq<(string, Json)>, key: string, value: Json)
    requires WellFormed(Obj(entries)) && WellFormed(value)
    ensures WellFormed(Obj(Assign(entries, key, value)))
  {
    if entries != [] {
      var head, rest := entries[0], entries[1..];
      assert entries == [head] + rest;
      KeysApart(head, rest);
      if head.0 == key {
        ConsWellFormed((key, value), rest);
      } else {
        AssignWellFormed(rest, key, value);
        AssignKeys(rest, key, value);
        ConsWellFormed(head, Assign(rest, key, value));
      }
    }
  }

  lemma FieldsCons(e: (string, Json), rest: seq<(string, Json)>)
    ensures Fields([e] + rest) == Fields(rest)[e.0 := Meaning(e.1)]
  {
    assert e == (e.0, e.1) && ([e] + rest)[1..] == rest;
  }

  lemma {:induction false} AssignFields(entries: seq<(string, Json)>, key: string, value: Json)
    ensures Fields(Assign(entries, key, value)) == Fields(entries)[key := Meaning(value)]
  {
    if entries == [] {
      FieldsCons((key, value), []);
      assert Assign(entries, key, value) == [(key, value)] + [];
    } else {
      var head, rest := entries[0], entries[1..];
      assert entries == [head] + rest;
      FieldsCons(head, rest);
      if head.0 == key {
        FieldsCons((key, value), rest);
      } else {
        AssignFields(rest, key, value);
        FieldsCons(head, Assign(rest, key, value));
      }
    }
  }

  lemma KeysCons<T>(e: (string, T), rest: seq<(string, T)>)
    ensures Keys([e] + rest) == {e.0} + Keys(rest)
  {
    var all := [e] + rest;
    assert all[0] == e && forall k :: 0 <= k < |rest| ==> all[k + 1] == rest[k];
    forall key | key in Keys(all) ensures key in {e.0} + Keys(rest) {
      var k :| 0 <= k < |all| && all[k].0 == key;
      if k > 0 { assert rest[k - 1].0 == key; }
    }
  }

  lemma KeysApart(e: (string, Json), rest: seq<(string, Json)>)
    requires Distinct([e] + rest)
    ensures e.0 !in Keys(rest)
  {
    forall k | 0 <= k < |rest| ensures rest[k].0 != e.0 {
      var all := [e] + rest;
      assert all[0] == e && all[k + 1] == rest[k];
    }
  }

  lemma ConsWellFormed(e: (string, Json), rest: seq<(string, Json)>)
    requires WellFormed(e.1) && WellFormed(Obj(rest)) && e.0 !in Keys(rest)
    ensures WellFormed(Obj([e] + rest))
  {
    var all := [e] + rest;
    forall i, j | 0 <= i < j < |all| ensures all[i].0 != all[j].0 {
      assert all[j] == rest[j - 1] && (i > 0 ==> all[i] == rest[i - 1]);
    }
    forall k | 0 <= k < |all| ensures WellFormed(all[k].1) { assert k > 0 ==> all[k] == rest[k - 1]; }
  }

  predicate FalsyValue(v: Value) {
    v == VUndefined || v == VNull || v == VBool(false) || v == VStr("") || v == VNum("0")
  }

  lemma {:induction false} LookupFields(entries: seq<(string, Json)>, key: string)
    ensures key in Fields(entries) ==> Meaning(Lookup(entries, key)) == Fields(entries)[key]
    ensures key !in Fields(entries) ==> Lookup(entries, key) == Undefined
  {
    if entries != [] {
      FieldsCons(entries[0], entries[1..]);
      assert entries == [entries[0]] + entries[1..];
      LookupFields(entries[1..], key);
    }
  }

  /** The context takes the place of `key` exactly when it has a value and the caller's value is missing or falsy. */
  predicate Supplied(base: map<string, Value>, merged: map<string, Value>, key: string, value: string) {
    if value != "" && (key !in base || FalsyValue(base[key]))
    then key in merged && merged[key] == VStr(value)
    else (key in merged <==> key in base) && (key in base ==> merged[key] == base[key])
  }

  lemma SupplyKeeps(base: seq<(string, Json)>, entries: seq<(string, Json)>, key: string, value: string)
    requires WellFormed(Obj(entries))
    ensures WellFormed(Obj(Supply(base, entries, key, value)))
    ensures Fields(Supply(base, entries, key, value)) ==
      if value != "" && (key !in Fields(base) || FalsyValue(Fields(base)[key])) then Fields(entries)[key := VStr(value)] else Fields(entries)
  {
    AssignWellFormed(entries, key, Str(value));
    AssignFields(entries, key, Str(value));
    LookupFields(base, key);
    assert Falsy(Lookup(base, key)) <==> FalsyValue(Meaning(Lookup(base, key)));
  }

  /** Stored metadata is an object; the request's address and agent only fill gaps the caller left. */
  lemma MergedMetadata(metadata: Option<Json>, context: Option<Context>)
    requires metadata.Some? ==> WellFormed(metadata.value)
    ensures MergeAuditMetadata(metadata, context).Obj? && WellFormed(MergeAuditMetadata(metadata, context))
    ensures var base, merged := Fields(Base(metadata)), Fields(MergeAuditMetadata(metadata, context).entries);
      && Supplied(base, merged, "ipAddress", if context.Some? then context.value.ipAddress else "")
      && Supplied(base, merged, "userAgent", if context.Some? then context.value.userAgent else "")
      && forall key :: key != "ipAddress" && key != "userAgent" ==> Supplied(base, merged, key, "")
  {
    var base := Base(metadata);
    assert WellFormed(Obj(base));
    if context.Some? {
      SupplyKeeps(base, base, "ipAddress", context.value.ipAddress);
      SupplyKeeps(base, Supply(base, base, "ipAddress", context.value.ipAddress), "userAgent", context.value.userAgent);
      assert "ipAddress"[0] != "userAgent"[0];
    }
  }

  /** The stored value of one key: the caller's, unless the request has one and the caller's is missing, undefined,
      null, false, empty or zero. Metadata that is no object counts as empty. */
  lemma CallerComesFirst(metadata: Option<Json>, context: Context, key: string, value: string)
    requires metadata.Some? ==> WellFormed(metadata.value)
    requires (key == "ipAddress" && value == context.ipAddress) || (key == "userAgent" && value == context.userAgent)
    ensures var given := if metadata.Some? && metadata.value.Obj? then Fields(metadata.value.entries) else map[];
      var merged := Fields(MergeAuditMetadata(metadata, Some(context)).entries);
      if value != "" && (key in given ==> given[key] in {VUndefined, VNull, VBool(false), VStr(""), VNum("0")})
      then key in merged && merged[key] == VStr(value)
      else (key in merged <==> key in given) && (key in given ==> merged[key] == given[key])
  {
    MergedMetadata(metadata, Some(context));
    assert "ipAddress"[0] != "userAgent"[0];
  }

  // ----- the hashed text -----

  function Digit(n: nat): char
    requires n < 10
  {
    '0' + n as char
  }

  function Decimal(n: nat): string {
    if n < 10 then [Digit(n)] else Decimal(n / 10) + [Digit(n % 10)]
  }

  lemma {:induction false} DecimalIsNumber(n: nat)
    ensures WellFormed(Num(Decimal(n)))
  {
    if n >= 10 { DecimalIsNumber(n / 10); }
  }

  lemma {:induction false} DecimalInjective(m: nat, n: nat)
    requires Decimal(m) == Decimal(n)
    ensures m == n
  {
    var s, t := Decimal(m), Decimal(n);
    assert s[|s| - 1] == Digit(m % 10) && t[|t| - 1] == Digit(n % 10);
    assert m % 10 == n % 10;
    if m >= 10 && n >= 10 {
      assert Decimal(m / 10) == s[..|s| - 1] && Decimal(n / 10) == t[..|t| - 1];
      DecimalInjective(m / 10, n / 10);
    } else {
      DecimalIsNumber(m / 10);
      DecimalIsNumber(n / 10);
    }
  }

  function OrNull(o: Option<string>): Json {
    if o.Some? then Str(o.value) else Null
  }

  function PayloadKeys(): (r: seq<string>)
    ensures |r| == 10
  {
    ["organizationId", "actorUserId", "sequence", "action", "resource", "resourceId", "summary", "metadata", "previousHash", "createdAt"]
  }

  function PayloadValues(e: Entry): (r: seq<Json>)
    ensures |r| == 10
  {
    [Str(e.organizationId), OrNull(e.actorUserId), Num(Decimal(e.sequence)), Str(e.action), Str(e.resource),
     OrNull(e.resourceId), Str(e.summary), e.metadata, OrNull(e.previousHash), Str(e.createdAt)]
  }

  function Zip(keys: seq<string>, values: seq<Json>): (r: seq<(string, Json)>)
    requires |keys| == |values|
    ensures |r| == |keys| && forall k :: 0 <= k < |keys| ==> r[k] == (keys[k], values[k])
  {
    seq(|keys|, k requires 0 <= k < |keys| => (keys[k], values[k]))
  }

  function Payload(e: Entry): seq<(string, Json)> {
    Zip(PayloadKeys(), PayloadValues(e))
  }

  function Text(e: Entry, leq: (string, string) -> bool): string {
    Stringify(Obj(Payload(e)), leq)
  }

  /** The ten payload keys differ in length or in first letter. */
  function KeyCode(key: string): nat
    requires key != ""
  {
    |key| * 256 + if key[0] as int < 256 then key[0] as int else 0
  }

  lemma PayloadKeysDiffer(i: nat, j: nat)
    requires i < j < |PayloadKeys()|
    ensures PayloadKeys()[i] != PayloadKeys()[j]
  {
    var keys := PayloadKeys();
    var codes := [14 * 256 + 111, 11 * 256 + 97, 8 * 256 + 115, 6 * 256 + 97, 8 * 256 + 114, 10 * 256 + 114, 7 * 256 + 115, 8 * 256 + 109, 12 * 256 + 112, 9 * 256 + 99];
    assert forall k :: 0 <= k < 10 ==> keys[k] != "" && KeyCode(keys[k]) == codes[k];
    assert codes[i] != codes[j];
  }

  lemma PayloadWellFormed(e: Entry)
    requires WellFormed(e.metadata)
    ensures WellFormed(Obj(Payload(e)))
  {
    var p, values := Payload(e), PayloadValues(e);
    DecimalIsNumber(e.sequence);
    assert forall k :: 0 <= k < |values| ==> WellFormed(values[k]);
    forall i, j | 0 <= i < j < |p| ensures p[i].0 != p[j].0 { PayloadKeysDiffer(i, j); }
  }

  /** The same event: everything the caller and the clock supplied, metadata up to key order. */
  predicate SameContent(e: Entry, f: Entry) {
    && e.organizationId == f.organizationId && e.actorUserId == f.actorUserId && e.action == f.action
    && e.resource == f.resource && e.resourceId == f.resourceId && e.summary == f.summary
    && e.createdAt == f.createdAt && Meaning(e.metadata) == Meaning(f.metadata)
  }

  lemma ZipMeaning(keys: seq<string>, a: seq<Json>, b: seq<Json>)
    requires |keys| == |a| == |b| && Distinct(Zip(keys, a)) && Distinct(Zip(keys, b))
    ensures Fields(Zip(keys, a)) == Fields(Zip(keys, b)) <==> Meanings(a) == Meanings(b)
  {
    var p, q := Zip(keys, a), Zip(keys, b);
    FieldsAt(p);
    FieldsAt(q);
    if Fields(p) == Fields(q) {
      forall k | 0 <= k < |keys| ensures Meanings(a)[k] == Meanings(b)[k] {
        assert p[k].0 == keys[k] && q[k].0 == keys[k];
      }
    }
    if Meanings(a) == Meanings(b) {
      forall k | 0 <= k < |keys| ensures p[k].0 == q[k].0 && Meaning(p[k].1) == Meaning(q[k].1) {
        assert Meanings(a)[k] == Meanings(b)[k];
      }
      SamePairs(p, q);
    }
  }

  lemma MeaningsAgree(a: seq<Json>, b: seq<Json>)
    requires |a| == |b|
    ensures Meanings(a) == Meanings(b) <==> forall k :: 0 <= k < |a| ==> Meaning(a[k]) == Meaning(b[k])
  {
    if Meanings(a) == Meanings(b) {
      forall k | 0 <= k < |a| ensures Meaning(a[k]) == Meaning(b[k]) {
        assert Meanings(a)[k] == Meanings(b)[k];
      }
    }
  }

  lemma ValuesMeaning(e: Entry, f: Entry)
    requires forall k :: 0 <= k < 10 ==> Meaning(PayloadValues(e)[k]) == Meaning(PayloadValues(f)[k])
    ensures SameContent(e, f) && e.sequence == f.sequence && e.previousHash == f.previousHash
  {
    var a, b := PayloadValues(e), PayloadValues(f);
    assert Meaning(a[0]) == Meaning(b[0]) && Meaning(a[1]) == Meaning(b[1]) && Meaning(a[2]) == Meaning(b[2]);
    assert Meaning(a[3]) == Meaning(b[3]) && Meaning(a[4]) == Meaning(b[4]) && Meaning(a[5]) == Meaning(b[5]);
    assert Meaning(a[6]) == Meaning(b[6]) && Meaning(a[7]) == Meaning(b[7]) && Meaning(a[8]) == Meaning(b[8]);
    assert Meaning(a[9]) == Meaning(b[9]);
    DecimalInjective(e.sequence, f.sequence);
  }

  lemma ContentMeaning(e: Entry, f: Entry)
    requires SameContent(e, f) && e.sequence == f.sequence && e.previousHash == f.previousHash
    ensures Meanings(PayloadValues(e)) == Meanings(PayloadValues(f))
  {
    var a, b := PayloadValues(e), PayloadValues(f);
    assert b == a[7 := f.metadata];
    MeaningsAgree(a, b);
  }

  lemma PayloadMeaning(e: Entry, f: Entry)
    ensures Meanings(PayloadValues(e)) == Meanings(PayloadValues(f))
      <==> SameContent(e, f) && e.sequence == f.sequence && e.previousHash == f.previousHash
  {
    var a, b := PayloadValues(e), PayloadValues(f);
    if Meanings(a) == Meanings(b) {
      MeaningsAgree(a, b);
      ValuesMeaning(e, f);
    }
    if SameContent(e, f) && e.sequence == f.sequence && e.previousHash == f.previousHash {
      ContentMeaning(e, f);
    }
  }

  /** The hashed text fixes the event, its place and its predecessor, and nothing else. */
  lemma TextFixesEntry(e: Entry, f: Entry, leq: (string, string) -> bool)
    requires TotalOrder(leq) && WellFormed(e.metadata) && WellFormed(f.metadata)
    ensures Text(e, leq) == Text(f, leq) <==> SameContent(e, f) && e.sequence == f.sequence && e.previousHash == f.previousHash
  {
    PayloadWellFormed(e);
    PayloadWellFormed(f);
    TextIsCanonical(Obj(Payload(e)), Obj(Payload(f)), leq);
    ZipMeaning(PayloadKeys(), PayloadValues(e), PayloadValues(f));
    PayloadMeaning(e, f);
  }

  /** The number that a decimal text stands for. */
  function NumberOf(digits: string): int {
    if digits == "" then 0 else 10 * NumberOf(digits[..|digits| - 1]) + (digits[|digits| - 1] as int - 48)
  }

  lemma {:induction false} DecimalStandsFor(n: nat)
    ensures NumberOf(Decimal(n)) == n
  {
    if n >= 10 {
      DecimalStandsFor(n / 10);
      assert Decimal(n)[..|Decimal(n)| - 1] == Decimal(n / 10);
    } else {
      assert Decimal(n)[..0] == "";
    }
  }

  function TextOrNull(o: Option<string>): Value {
    match o
    case None => VNull
    case Some(s) => VStr(s)
  }

  /** What an auditor should find: what was recorded, when and by whom, its number in the chain and the hash before it. */
  function Said(e: Entry, number: string): map<string, Value> {
    map["organizationId" := VStr(e.organizationId), "actorUserId" := TextOrNull(e.actorUserId),
        "sequence" := VNum(number), "action" := VStr(e.action), "resource" := VStr(e.resource),
        "resourceId" := TextOrNull(e.resourceId), "summary" := VStr(e.summary), "metadata" := Meaning(e.metadata),
        "previousHash" := TextOrNull(e.previousHash), "createdAt" := VStr(e.createdAt)]
  }

  /** Reading the hashed text gives an object of these ten members and nothing else, with the number in decimal. */
  lemma HashedTextSays(e: Entry, leq: (string, string) -> bool)
    requires TotalOrder(leq) && WellFormed(e.metadata)
    ensures ReadValue(Text(e, leq)) == Got(VObj(Said(e, Decimal(e.sequence))), "") && NumberOf(Decimal(e.sequence)) == e.sequence
  {
    PayloadWellFormed(e);
    TextReadsBack(Obj(Payload(e)), leq);
    DecimalStandsFor(e.sequence);
    PayloadFields(e);
  }

  lemma PayloadFields(e: Entry)
    requires Distinct(Payload(e))
    ensures Fields(Payload(e)) == Said(e, Decimal(e.sequence))
  {
    var p, said := Payload(e), Said(e, Decimal(e.sequence));
    FieldsAt(p);
    assert forall k :: 0 <= k < 10 ==> p[k].0 in Fields(p);
    forall key | key in said ensures key in Fields(p) && Fields(p)[key] == said[key] {
      SaidBelongs(e, key);
    }
    forall key | key in Fields(p) ensures key in said {
      var k :| 0 <= k < |p| && p[k].0 == key;
    }
  }

  lemma SaidBelongs(e: Entry, key: string)
    requires key in Said(e, Decimal(e.sequence))
    ensures exists k :: 0 <= k < 10 && Payload(e)[k].0 == key && Meaning(Payload(e)[k].1) == Said(e, Decimal(e.sequence))[key]
  {
    var p := Payload(e);
    var k := if key == "organizationId" then 0 else if key == "actorUserId" then 1 else if key == "sequence" then 2
             else if key == "action" then 3 else if key == "resource" then 4 else if key == "resourceId" then 5
             else if key == "summary" then 6 else if key == "metadata" then 7 else if key == "previousHash" then 8 else 9;
    assert p[k].0 == key;
  }

  lemma {:induction false} SamePairs(a: seq<(string, Json)>, b: seq<(string, Json)>)
    requires |a| == |b|
    requires forall k :: 0 <= k < |a| ==> a[k].0 == b[k].0 && Meaning(a[k].1) == Meaning(b[k].1)
    ensures Fields(a) == Fields(b)
  {
    if a != [] {
      assert a == [a[0]] + a[1..] && b == [b[0]] + b[1..];
      FieldsCons(a[0], a[1..]);
      FieldsCons(b[0], b[1..]);
      SamePairs(a[1..], b[1..]);
    }
  }

  // ----- chains -----

  function Head(es: seq<Entry>): Option<string> {
    if es == [] then None else Some(es[|es| - 1].hash)
  }

  /** Entries numbered from one, each naming its predecessor's hash and carrying its own. */
  predicate Chained(es: seq<Entry>, h: string -> string, leq: (string, string) -> bool) {
    es != [] ==>
      var init, last := es[..|es| - 1], es[|es| - 1];
      && Chained(init, h, leq)
      && WellFormed(last.metadata)
      && last.sequence == |es|
      && last.previousHash == Head(init)
      && last.hash == h(Text(last, leq))
  }

  lemma {:induction false} ChainedAt(es: seq<Entry>, k: nat, h: string -> string, leq: (string, string) -> bool)
    requires Chained(es, h, leq) && k < |es|
    ensures es[k].sequence == k + 1 && es[k].hash == h(Text(es[k], leq))
    ensures es[k].previousHash == if k == 0 then None else Some(es[k - 1].hash)
  {
    var init := es[..|es| - 1];
    if k < |init| {
      ChainedAt(init, k, h, leq);
      assert init[k] == es[k] && (k > 0 ==> init[k - 1] == es[k - 1]);
    } else {
      assert k > 0 ==> init[|init| - 1] == es[k - 1];
    }
  }

  ghost predicate Injective(h: string -> string) {
    forall s, t :: h(s) == h(t) ==> s == t
  }

  predicate SameLog(a: seq<Entry>, b: seq<Entry>) {
    |a| == |b| && forall k :: 0 <= k < |a| ==> SameContent(a[k], b[k])
  }

  /** Two chains have the same head exactly when they hold the same events in the same order. A changed,
      removed, added or moved entry gives another head. */
  lemma {:induction false} EqualHeadsAgree(a: seq<Entry>, b: seq<Entry>, h: string -> string, leq: (string, string) -> bool)
    requires TotalOrder(leq) && Injective(h) && Chained(a, h, leq) && Chained(b, h, leq)
    ensures Head(a) == Head(b) <==> SameLog(a, b)
  {
    if a != [] && b != [] {
      var m, n := |a| - 1, |b| - 1;
      EqualHeadsAgree(a[..m], b[..n], h, leq);
      SameLogSnoc(a, b);
      TextFixesEntry(a[m], b[n], leq);
    }
  }

  lemma SameLogSnoc(a: seq<Entry>, b: seq<Entry>)
    requires a != [] && b != []
    ensures SameLog(a, b) <==> |a| == |b| && SameLog(a[..|a| - 1], b[..|b| - 1]) && SameContent(a[|a| - 1], b[|b| - 1])
  {
    var m := |a| - 1;
    if |a| == |b| && SameLog(a[..m], b[..m]) && SameContent(a[m], b[m]) {
      forall k | 0 <= k < |a| ensures SameContent(a[k], b[k]) {
        if k < m { assert a[..m][k] == a[k] && b[..m][k] == b[k]; }
      }
    }
  }

  /** An entry edited in place is caught, whatever hash the editor writes beside it. */
  lemma EditIsCaught(es: seq<Entry>, k: nat, e: Entry, h: string -> string, leq: (string, string) -> bool)
    requires TotalOrder(leq) && Injective(h) && Chained(es, h, leq) && k < |es| && !SameContent(es[k], e)
    ensures !(Chained(es[k := e], h, leq) && Head(es[k := e]) == Head(es))
  {
    if Chained(es[k := e], h, leq) && Head(es[k := e]) == Head(es) {
      EqualHeadsAgree(es, es[k := e], h, leq);
    }
  }

  // ----- persisting -----

  function Of(log: seq<Entry>, org: string): seq<Entry> {
    if log == [] then []
    else Of(log[..|log| - 1], org) + if log[|log| - 1].organizationId == org then [log[|log| - 1]] else []
  }

  function RowOf(t: Trail, org: string): ChainRow {
    if org in t.chains then t.chains[org] else ChainRow(None, 0)
  }

  /** The row a call inserts after the chain row it read. */
  function NewEntry(row: ChainRow, input: Input, context: Option<Context>, now: string, h: string -> string, leq: (string, string) -> bool): Entry {
    var blank := Entry(input.organizationId, input.actorUserId, row.sequence + 1, input.action, input.resource,
      input.resourceId, input.summary, MergeAuditMetadata(input.metadata, context), row.lastHash, "", now);
    blank.(hash := h(Text(blank, leq)))
  }

  /** One committed call, or nothing when the integer column refuses the next sequence. */
  function Persisted(t: Trail, input: Input, context: Option<Context>, now: string, h: string -> string, leq: (string, string) -> bool): Option<Trail> {
    var row := RowOf(t, input.organizationId);
    if row.sequence >= MAX_SEQUENCE then None
    else
      var e := NewEntry(row, input, context, now, h, leq);
      Some(Trail(t.log + [e], t.chains[input.organizationId := ChainRow(Some(e.hash), e.sequence)]))
  }

  /** This tenant's entries form one chain and its cursor row holds that chain's head and length. */
  predicate TenantIntact(t: Trail, org: string, h: string -> string, leq: (string, string) -> bool) {
    Chained(Of(t.log, org), h, leq) && RowOf(t, org) == ChainRow(Head(Of(t.log, org)), |Of(t.log, org)|)
  }

  ghost predicate Intact(t: Trail, h: string -> string, leq: (string, string) -> bool) {
    forall org :: TenantIntact(t, org, h, leq)
  }

  predicate Storable(input: Input) {
    input.metadata.Some? ==> WellFormed(input.metadata.value)
  }

  lemma NewEntryChains(es: seq<Entry>, input: Input, context: Option<Context>, now: string, h: string -> string, leq: (string, string) -> bool)
    requires Chained(es, h, leq) && Storable(input)
    ensures Chained(es + [NewEntry(ChainRow(Head(es), |es|), input, context, now, h, leq)], h, leq)
  {
    var e := NewEntry(ChainRow(Head(es), |es|), input, context, now, h, leq);
    MergedMetadata(input.metadata, context);
    assert (es + [e])[..|es|] == es;
    assert PayloadValues(e) == PayloadValues(e.(hash := ""));
  }

  lemma OfAppend(log: seq<Entry>, e: Entry, org: string)
    ensures Of(log + [e], org) == Of(log, org) + if e.organizationId == org then [e] else []
  {
    assert (log + [e])[..|log|] == log;
  }

  predicate Records(e: Entry, input: Input, context: Option<Context>, now: string) {
    && e.organizationId == input.organizationId && e.actorUserId == input.actorUserId && e.action == input.action
    && e.resource == input.resource && e.resourceId == input.resourceId && e.summary == input.summary
    && e.createdAt == now && e.metadata == MergeAuditMetadata(input.metadata, context)
  }

  /** A call fails only at the column limit; otherwise it appends its event to its own tenant's chain and leaves
      every other tenant's chain alone. */
  lemma PersistedExtendsOneChain(t: Trail, input: Input, context: Option<Context>, now: string, h: string -> string, leq: (string, string) -> bool)
    requires Intact(t, h, leq) && Storable(input)
    ensures var r := Persisted(t, input, context, now, h, leq);
      && (r.None? <==> |Of(t.log, input.organizationId)| >= 2_147_483_647)
      && (r.Some? ==>
          && Intact(r.value, h, leq)
          && (forall org :: org != input.organizationId ==> Of(r.value.log, org) == Of(t.log, org))
          && exists e :: Records(e, input, context, now) && Of(r.value.log, input.organizationId) == Of(t.log, input.organizationId) + [e])
  {
    var r := Persisted(t, input, context, now, h, leq);
    assert TenantIntact(t, input.organizationId, h, leq);
    if r.Some? {
      forall org ensures TenantIntact(r.value, org, h, leq) && (org != input.organizationId ==> Of(r.value.log, org) == Of(t.log, org)) {
        assert TenantIntact(t, org, h, leq);
        if org == input.organizationId { OwnChain(t, input, context, now, h, leq); } else { OtherChain(t, org, input, context, now, h, leq); }
      }
      OwnChain(t, input, context, now, h, leq);
    }
  }

  lemma OwnChain(t: Trail, input: Input, context: Option<Context>, now: string, h: string -> string, leq: (string, string) -> bool)
    requires TenantIntact(t, input.organizationId, h, leq) && Storable(input)
    requires Persisted(t, input, context, now, h, leq).Some?
    ensures var t' := Persisted(t, input, context, now, h, leq).value;
      && TenantIntact(t', input.organizationId, h, leq)
      && exists e :: Records(e, input, context, now) && Of(t'.log, input.organizationId) == Of(t.log, input.organizationId) + [e]
  {
    var mine := Of(t.log, input.organizationId);
    var e := NewEntry(ChainRow(Head(mine), |mine|), input, context, now, h, leq);
    NewEntryChains(mine, input, context, now, h, leq);
    OfAppend(t.log, e, input.organizationId);
    assert Records(e, input, context, now);
  }

  lemma OtherChain(t: Trail, org: string, input: Input, context: Option<Context>, now: string, h: string -> string, leq: (string, string) -> bool)
    requires TenantIntact(t, org, h, leq) && org != input.organizationId
    requires Persisted(t, input, context, now, h, leq).Some?
    ensures var t' := Persisted(t, input, context, now, h, leq).value;
      TenantIntact(t', org, h, leq) && Of(t'.log, org) == Of(t.log, org)
  {
    var t' := Persisted(t, input, context, now, h, leq).value;
    OtherRows(t, org, input, context, now, h, leq);
    SameChainStaysIntact(t, t', org, h, leq);
  }

  lemma OtherRows(t: Trail, org: string, input: Input, context: Option<Context>, now: string, h: string -> string, leq: (string, string) -> bool)
    requires org != input.organizationId && Persisted(t, input, context, now, h, leq).Some?
    ensures var t' := Persisted(t, input, context, now, h, leq).value;
      Of(t'.log, org) == Of(t.log, org) && RowOf(t', org) == RowOf(t, org)
  {
    OfAppend(t.log, NewEntry(RowOf(t, input.organizationId), input, context, now, h, leq), org);
  }

  lemma SameChainStaysIntact(t: Trail, t': Trail, org: string, h: string -> string, leq: (string, string) -> bool)
    requires TenantIntact(t, org, h, leq) && Of(t'.log, org) == Of(t.log, org) && RowOf(t', org) == RowOf(t, org)
    ensures TenantIntact(t', org, h, leq)
  {
  }

  datatype Call = Call(input: Input, context: Option<Context>, now: string)

  function After(calls: seq<Call>, h: string -> string, leq: (string, string) -> bool): Trail {
    if calls == [] then Trail([], map[])
    else
      var t, c := After(calls[..|calls| - 1], h, leq), calls[|calls| - 1];
      var r := Persisted(t, c.input, c.context, c.now, h, leq);
      if r.Some? then r.value else t
  }

  /** Whatever calls ran, by whichever tenants: every chain is whole and its cursor row is right. */
  lemma {:induction false} EveryRunIsChained(calls: seq<Call>, h: string -> string, leq: (string, string) -> bool)
    requires forall k :: 0 <= k < |calls| ==> Storable(calls[k].input)
    ensures Intact(After(calls, h, leq), h, leq)
  {
    if calls != [] {
      var init, c := calls[..|calls| - 1], calls[|calls| - 1];
      assert calls[|calls| - 1] == c;
      EveryRunIsChained(init, h, leq);
      PersistedExtendsOneChain(After(init, h, leq), c.input, c.context, c.now, h, leq);
    }
  }

  class AuditStore {
    var log: seq<Entry>
    var chains: map<string, ChainRow>

    function View(): Trail
      reads this
    {
      Trail(log, chains)
    }

    constructor ()
      ensures View() == Trail([], map[])
    {
      log, chains := [], map[];
    }

    /** The transaction statement by statement: upsert the cursor row, read it, append the entry, move the
        cursor; a sequence the column refuses undoes the upsert. */
    method PersistAuditLog(input: Input, context: Option<Context>, now: string, h: string -> string, leq: (string, string) -> bool)
      returns (persisted: bool)
      modifies this
      ensures var spec := Persisted(old(View()), input, context, now, h, leq);
        match spec
        case Some(t) => persisted && View() == t
        case None => !persisted && View() == old(View())
    {
      var org, saved := input.organizationId, chains;
      if org !in chains { chains := chains[org := ChainRow(None, 0)]; }
      var e := NewEntry(chains[org], input, context, now, h, leq);
      if e.sequence > MAX_SEQUENCE {
        chains := saved;
        return false;
      }
      log := log + [e];
      chains := chains[org := ChainRow(Some(e.hash), e.sequence)];
      assert chains == saved[org := ChainRow(Some(e.hash), e.sequence)];
      return true;
    }
  }
}
