// Values shared by every component: optional and failing results, JSON values,
// and the string order JSON object keys are sorted by.

module Prelude {
  datatype Option<+T> = None | Some(value: T)

  datatype Result<+T, +E> = Ok(value: T) | Err(error: E)
}

/** 64-bit counters that wrap around, one `fetch_add(1)` at a time. */
module Counters {
  const U64: nat := 0x1_0000_0000_0000_0000

  function Bump(counter: nat): nat {
    if counter + 1 == U64 then 0 else counter + 1
  }

  /** Where a counter that started at zero stands after `k` bumps. */
  function CounterAfter(k: nat): (r: nat)
    ensures k < U64 ==> r == k
  {
    if k == 0 then 0 else Bump(CounterAfter(k - 1))
  }
}

/** JSON twice: `Json` keeps object entries in the order a map iterates over them,
    `Value` is what such a tree means once that order is forgotten. */
module JsonValues {
  import Prelude

  datatype Entry = Entry(key: string, value: Json)

  /** A JSON tree as the program walks it. Numbers are opaque tokens. */
  datatype Json =
    | JNull
    | JBool(b: bool)
    | JNumber(token: string)
    | JString(s: string)
    | JArray(items: seq<Json>)
    | JObject(entries: seq<Entry>)

  /** A JSON value up to the order of object entries. */
  datatype Value =
    | Null
    | Bool(b: bool)
    | Number(token: string)
    | String(s: string)
    | Array(items: seq<Value>)
    | Object(fields: map<string, Value>)

  predicate NumberChar(c: char) {
    '0' <= c <= '9' || c == '+' || c == '-' || c == '.' || c == 'E' || c == 'e'
  }

  predicate NumberToken(token: string) {
    token != "" && forall i | 0 <= i < |token| :: NumberChar(token[i])
  }

  predicate DistinctKeys(entries: seq<Entry>) {
    forall i, j | 0 <= i < j < |entries| :: entries[i].key != entries[j].key
  }

  /** What a JSON map type guarantees: no repeated key in any object, proper number tokens. */
  predicate Valid(j: Json) {
    match j
    case JNumber(token) => NumberToken(token)
    case JArray(items) => forall x | x in items :: Valid(x)
    case JObject(entries) => DistinctKeys(entries) && forall e | e in entries :: Valid(e.value)
    case _ => true
  }

  predicate ValidValue(v: Value) {
    match v
    case Number(token) => NumberToken(token)
    case Array(items) => forall x | x in items :: ValidValue(x)
    case Object(fields) => forall k | k in fields :: ValidValue(fields[k])
    case _ => true
  }

  function Denote(j: Json): Value {
    match j
    case JNull => Null
    case JBool(b) => Bool(b)
    case JNumber(token) => Number(token)
    case JString(s) => String(s)
    case JArray(items) => Array(seq(|items|, i requires 0 <= i < |items| => Denote(items[i])))
    case JObject(entries) => Object(DenoteEntries(entries))
  }

  /** Later entries win, as they do when a map is filled entry by entry. */
  function DenoteEntries(entries: seq<Entry>): map<string, Value> {
    if entries == [] then map[]
    else
      var last := entries[|entries| - 1];
      assert entries[..|entries| - 1] < entries;
      DenoteEntries(entries[..|entries| - 1])[last.key := Denote(last.value)]
  }

  lemma {:induction false} DenoteEntriesAt(entries: seq<Entry>)
    requires DistinctKeys(entries)
    ensures forall k :: k in DenoteEntries(entries) <==> exists i :: 0 <= i < |entries| && entries[i].key == k
    ensures forall i | 0 <= i < |entries| ::
              entries[i].key in DenoteEntries(entries)
              && DenoteEntries(entries)[entries[i].key] == Denote(entries[i].value)
  {
    if entries != [] {
      var n := |entries| - 1;
      var front := entries[..n];
      DenoteEntriesAt(front);
      forall k | k in DenoteEntries(front)
        ensures exists i :: 0 <= i < |entries| && entries[i].key == k
      {
        var i :| 0 <= i < |front| && front[i].key == k;
        assert entries[i].key == k;
      }
      forall i | 0 <= i < n
        ensures entries[i].key in DenoteEntries(entries)
        ensures DenoteEntries(entries)[entries[i].key] == Denote(entries[i].value)
      {
        assert front[i] == entries[i];
      }
    }
  }

  /** The value under `key` in an object's entries. */
  function Lookup(entries: seq<Entry>, key: string): (r: Prelude.Option<Json>)
    ensures r.Some? ==> Entry(key, r.value) in entries
    ensures r.None? ==> forall i | 0 <= i < |entries| :: entries[i].key != key
  {
    if entries == [] then Prelude.None
    else
      assert entries == [entries[0]] + entries[1..];
      if entries[0].key == key then
        assert entries[0] == Entry(key, entries[0].value);
        Prelude.Some(entries[0].value)
      else Lookup(entries[1..], key)
  }

  lemma {:induction false} DenoteIsValid(j: Json)
    requires Valid(j)
    ensures ValidValue(Denote(j))
  {
    match j
    case JArray(items) =>
      forall i | 0 <= i < |items| ensures ValidValue(Denote(items[i])) {
        DenoteIsValid(items[i]);
      }
    case JObject(entries) =>
      DenoteEntriesAt(entries);
      forall k | k in DenoteEntries(entries) ensures ValidValue(DenoteEntries(entries)[k]) {
        var i :| 0 <= i < |entries| && entries[i].key == k;
        DenoteIsValid(entries[i].value);
      }
    case _ =>
  }
}

/** Lexicographic order on strings, which is also the byte order of their UTF-8 encodings. */
module StringOrder {
  predicate LexLe(a: string, b: string) {
    a == "" || (b != "" && (a[0] < b[0] || (a[0] == b[0] && LexLe(a[1..], b[1..]))))
  }

  lemma {:induction false} LexLeTotal(a: string, b: string)
    ensures LexLe(a, b) || LexLe(b, a)
  {
    if a != "" && b != "" {
      LexLeTotal(a[1..], b[1..]);
    }
  }

  lemma {:induction false} LexLeAntisymmetric(a: string, b: string)
    requires LexLe(a, b) && LexLe(b, a)
    ensures a == b
  {
    if a != "" && b != "" {
      LexLeAntisymmetric(a[1..], b[1..]);
      assert a == [a[0]] + a[1..] && b == [b[0]] + b[1..];
    }
  }

  lemma {:induction false} LexLeTransitive(a: string, b: string, c: string)
    requires LexLe(a, b) && LexLe(b, c)
    ensures LexLe(a, c)
  {
    if a != "" && b != "" && c != "" && a[0] == b[0] == c[0] {
      LexLeTransitive(a[1..], b[1..], c[1..]);
    }
  }

  /** Strictly ascending, hence free of duplicates. */
  predicate Ascending(keys: seq<string>) {
    forall i, j | 0 <= i < j < |keys| :: LexLe(keys[i], keys[j]) && keys[i] != keys[j]
  }

  lemma {:induction false} SameMembersBothEmpty(a: seq<string>, b: seq<string>)
    requires forall k :: k in a <==> k in b
    ensures a == [] <==> b == []
  {
    var n := |a|;
    assert n > 0 ==> a[n - 1] in b;
    var m := |b|;
    assert m > 0 ==> b[m - 1] in a;
  }

  /** A set has only one ascending enumeration. */
  lemma {:induction false} AscendingUnique(a: seq<string>, b: seq<string>)
    requires Ascending(a) && Ascending(b)
    requires forall k :: k in a <==> k in b
    ensures a == b
  {
    if a == [] || b == [] {
      SameMembersBothEmpty(a, b);
    } else {
      assert a[0] in a;
      assert b[0] in b;
      var i :| 0 <= i < |b| && b[i] == a[0];
      var j :| 0 <= j < |a| && a[j] == b[0];
      if i > 0 && j > 0 {
        LexLeAntisymmetric(a[0], b[0]);
      }
      assert a[0] == b[0];
      forall k ensures k in a[1..] <==> k in b[1..] {
        TailMembers(a, k);
        TailMembers(b, k);
      }
      AscendingUnique(a[1..], b[1..]);
      assert a == [a[0]] + a[1..] && b == [b[0]] + b[1..];
    }
  }

  lemma {:induction false} TailMembers(a: seq<string>, k: string)
    requires Ascending(a) && a != []
    ensures k in a[1..] <==> k in a && k != a[0]
  {}

  /** The ascending enumeration of a set of keys. */
  ghost function Enumerate(keys: set<string>): (r: seq<string>)
    ensures Ascending(r) && forall k :: k in r <==> k in keys
    ensures forall i | 0 <= i < |r| :: r[i] in keys
  {
    if keys == {} then []
    else
      var least := Least(keys);
      [least] + Enumerate(keys - {least})
  }

  ghost function Least(keys: set<string>): (r: string)
    requires keys != {}
    ensures r in keys && forall k | k in keys :: LexLe(r, k)
  {
    var x :| x in keys;
    LexLeTotal(x, x);
    if keys == {x} then x
    else
      var y := Least(keys - {x});
      LeastOfOneMore(keys, x, y);
      if LexLe(x, y) then x else y
  }

  lemma {:induction false} LeastOfOneMore(keys: set<string>, x: string, y: string)
    requires x in keys && y in keys && forall k | k in keys && k != x :: LexLe(y, k)
    ensures LexLe(x, y) ==> forall k | k in keys :: LexLe(x, k)
    ensures !LexLe(x, y) ==> forall k | k in keys :: LexLe(y, k)
  {
    LexLeTotal(x, y);
    LexLeTotal(x, x);
    if LexLe(x, y) {
      forall k | k in keys ensures LexLe(x, k) {
        if k != x { LexLeTransitive(x, y, k); }
      }
    }
  }
}

/** A JSON-RPC notification as the app-server sends it. */
module Notifications {
  import opened JsonValues

  datatype CodexNotification = CodexNotification(method_: string, params: Json)
}
