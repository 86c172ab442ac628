// Duplicate detection for Codex notifications (crates/arky-codex/src/dedup.rs).
//
// A notification is a duplicate exactly when its fingerprint string was seen before,
// so everything rests on that string: it must forget the order of object entries and
// nothing else, even though the method name in front of it is arbitrary text.

module StableJsonText {
  import opened JsonValues
  import opened StringOrder

  // ---------------------------------------------------------------- strings

  const LOWER_HEX: string := "0123456789abcdef"

  /** The letter of a two-character escape, or a blank for characters that have none. */
  function ShortEscape(c: char): char {
    if c == '\"' then '\"'
    else if c == '\\' then '\\'
    else if c == 8 as char then 'b'
    else if c == 12 as char then 'f'
    else if c == '\n' then 'n'
    else if c == '\r' then 'r'
    else if c == '\t' then 't'
    else ' '
  }

  /** How one character is written inside a JSON string literal (section 7 of RFC 8259). */
  function EscapeChar(c: char): string {
    if ShortEscape(c) != ' ' then ['\\', ShortEscape(c)]
    else if c < ' ' then ['\\', 'u', '0', '0', LOWER_HEX[c as int / 16], LOWER_HEX[c as int % 16]]
    else [c]
  }

  function Escape(s: string): string {
    if s == "" then "" else EscapeChar(s[0]) + Escape(s[1..])
  }

  function Quote(s: string): string {
    "\"" + Escape(s) + "\""
  }

  // ---------------------------------------------------------------- printer

  function BoolText(b: bool): string {
    if b then "true" else "false"
  }

  /** Stable sort by key: `entry` goes behind every entry whose key is not greater. */
  function InsertEntry(entry: Entry, sorted: seq<Entry>): (r: seq<Entry>)
    ensures multiset(r) == multiset([entry]) + multiset(sorted)
    ensures |r| == |sorted| + 1
  {
    if sorted == [] || !LexLe(sorted[0].key, entry.key) then [entry] + sorted
    else
      assert sorted == [sorted[0]] + sorted[1..];
      [sorted[0]] + InsertEntry(entry, sorted[1..])
  }

  function SortEntries(entries: seq<Entry>): (r: seq<Entry>)
    ensures multiset(r) == multiset(entries)
    ensures |r| == |entries|
  {
    if entries == [] then []
    else
      assert entries == entries[..|entries| - 1] + [entries[|entries| - 1]];
      InsertEntry(entries[|entries| - 1], SortEntries(entries[..|entries| - 1]))
  }

  lemma {:induction false} SortKeepsMembers(entries: seq<Entry>)
    ensures forall e :: e in SortEntries(entries) <==> e in entries
  {
    forall e ensures e in SortEntries(entries) <==> e in entries {
      assert e in SortEntries(entries) <==> e in multiset(SortEntries(entries));
      assert e in entries <==> e in multiset(entries);
    }
  }

  lemma {:induction false} SortedEntriesBelow(j: Json)
    requires j.JObject?
    ensures forall i | 0 <= i < |SortEntries(j.entries)| :: SortEntries(j.entries)[i].value < j
  {
    SortKeepsMembers(j.entries);
    forall i | 0 <= i < |SortEntries(j.entries)| ensures SortEntries(j.entries)[i].value < j {
      assert SortEntries(j.entries)[i] in j.entries;
    }
  }

  function StableJson(j: Json): string
    decreases j
  {
    match j
    case JNull => "null"
    case JBool(b) => BoolText(b)
    case JNumber(token) => token
    case JString(s) => Quote(s)
    case JArray(items) => "[" + StableItems(j, items) + "]"
    case JObject(entries) =>
      SortedEntriesBelow(j);
      "{" + StableEntries(j, SortEntries(entries)) + "}"
  }

  function StableItems(context: Json, items: seq<Json>): string
    requires forall i | 0 <= i < |items| :: items[i] < context
    decreases context, |items|
  {
    if items == [] then ""
    else if |items| == 1 then StableJson(items[0])
    else StableJson(items[0]) + "," + StableItems(context, items[1..])
  }

  function StableEntries(context: Json, entries: seq<Entry>): string
    requires forall i | 0 <= i < |entries| :: entries[i].value < context
    decreases context, |entries|
  {
    if entries == [] then ""
    else
      var first := Quote(entries[0].key) + ":" + StableJson(entries[0].value);
      if |entries| == 1 then first else first + "," + StableEntries(context, entries[1..])
  }

  // ------------------------------------------------- specification on values

  /** The text of a value: object fields in ascending key order. */
  ghost function ValueText(v: Value): string
    decreases v
  {
    match v
    case Null => "null"
    case Bool(b) => BoolText(b)
    case Number(token) => token
    case String(s) => Quote(s)
    case Array(items) => "[" + ItemsText(v, items) + "]"
    case Object(fields) => "{" + FieldsText(v, Enumerate(fields.Keys)) + "}"
  }

  ghost function ItemsText(context: Value, items: seq<Value>): string
    requires forall i | 0 <= i < |items| :: items[i] < context
    decreases context, |items|
  {
    if items == [] then ""
    else if |items| == 1 then ValueText(items[0])
    else ValueText(items[0]) + "," + ItemsText(context, items[1..])
  }

  ghost function FieldsText(context: Value, keys: seq<string>): string
    requires context.Object? && forall i | 0 <= i < |keys| :: keys[i] in context.fields
    decreases context, |keys|
  {
    if keys == [] then ""
    else
      var first := Quote(keys[0]) + ":" + ValueText(context.fields[keys[0]]);
      if |keys| == 1 then first else first + "," + FieldsText(context, keys[1..])
  }

  // -------------------------------------- the printer forgets the entry order

  ghost function KeysOf(entries: seq<Entry>): (r: seq<string>)
    ensures |r| == |entries| && forall i | 0 <= i < |r| :: r[i] == entries[i].key
  {
    seq(|entries|, i requires 0 <= i < |entries| => entries[i].key)
  }

  lemma {:induction false} AscendingCons(first: Entry, rest: seq<Entry>)
    requires Ascending(KeysOf(rest))
    requires forall i | 0 <= i < |rest| :: LexLe(first.key, rest[i].key) && first.key != rest[i].key
    ensures Ascending(KeysOf([first] + rest))
  {}

  lemma {:induction false} AscendingHead(sorted: seq<Entry>)
    requires sorted != [] && Ascending(KeysOf(sorted))
    ensures Ascending(KeysOf(sorted[1..]))
    ensures forall i | 1 <= i < |sorted| :: LexLe(sorted[0].key, sorted[i].key) && sorted[0].key != sorted[i].key
  {}

  lemma {:induction false} InsertKeepsAscending(entry: Entry, sorted: seq<Entry>)
    requires Ascending(KeysOf(sorted)) && forall i | 0 <= i < |sorted| :: sorted[i].key != entry.key
    ensures Ascending(KeysOf(InsertEntry(entry, sorted)))
  {
    if sorted == [] {
    } else if !LexLe(sorted[0].key, entry.key) {
      LexLeTotal(sorted[0].key, entry.key);
      AscendingHead(sorted);
      forall i | 0 <= i < |sorted| ensures LexLe(entry.key, sorted[i].key) {
        if i > 0 {
          LexLeTransitive(entry.key, sorted[0].key, sorted[i].key);
        }
      }
      AscendingCons(entry, sorted);
    } else {
      var rest := InsertEntry(entry, sorted[1..]);
      AscendingHead(sorted);
      InsertKeepsAscending(entry, sorted[1..]);
      forall j | 0 <= j < |rest| ensures LexLe(sorted[0].key, rest[j].key) && sorted[0].key != rest[j].key {
        assert rest[j] in multiset(rest);
        if rest[j] != entry {
          assert rest[j] in sorted[1..];
        }
      }
      AscendingCons(sorted[0], rest);
    }
  }

  lemma {:induction false} SortIsAscending(entries: seq<Entry>)
    requires DistinctKeys(entries)
    ensures Ascending(KeysOf(SortEntries(entries)))
  {
    if entries != [] {
      var front := entries[..|entries| - 1];
      SortIsAscending(front);
      SortKeepsMembers(front);
      forall i | 0 <= i < |SortEntries(front)| ensures SortEntries(front)[i].key != entries[|entries| - 1].key {
        assert SortEntries(front)[i] in front;
      }
      InsertKeepsAscending(entries[|entries| - 1], SortEntries(front));
    }
  }

  lemma {:induction false} SortedKeysAreTheFields(entries: seq<Entry>, k: string)
    requires DistinctKeys(entries)
    ensures k in KeysOf(SortEntries(entries)) <==> k in DenoteEntries(entries)
  {
    var sorted := SortEntries(entries);
    var keys := KeysOf(sorted);
    SortKeepsMembers(entries);
    DenoteEntriesAt(entries);
    if k in keys {
      var i :| 0 <= i < |keys| && keys[i] == k;
      assert sorted[i] in entries;
    }
    if k in DenoteEntries(entries) {
      var i :| 0 <= i < |entries| && entries[i].key == k;
      assert entries[i] in sorted;
      var n :| 0 <= n < |sorted| && sorted[n] == entries[i];
      assert keys[n] == k;
    }
  }

  /** Sorting enumerates exactly the fields the object denotes, in ascending order. */
  lemma {:induction false} SortEnumeratesFields(entries: seq<Entry>)
    requires DistinctKeys(entries)
    ensures KeysOf(SortEntries(entries)) == Enumerate(DenoteEntries(entries).Keys)
    ensures forall i | 0 <= i < |SortEntries(entries)| ::
              var e := SortEntries(entries)[i];
              e in entries && e.key in DenoteEntries(entries) && DenoteEntries(entries)[e.key] == Denote(e.value)
  {
    var keys := KeysOf(SortEntries(entries));
    SortIsAscending(entries);
    forall k ensures k in keys <==> k in Enumerate(DenoteEntries(entries).Keys) {
      SortedKeysAreTheFields(entries, k);
    }
    AscendingUnique(keys, Enumerate(DenoteEntries(entries).Keys));
    forall i | 0 <= i < |SortEntries(entries)|
      ensures var e := SortEntries(entries)[i];
              e in entries && e.key in DenoteEntries(entries) && DenoteEntries(entries)[e.key] == Denote(e.value)
    {
      SortedEntryIsField(entries, i);
    }
  }

  lemma {:induction false} SortedEntryIsField(entries: seq<Entry>, i: nat)
    requires DistinctKeys(entries) && i < |SortEntries(entries)|
    ensures var e := SortEntries(entries)[i];
            e in entries && e.key in DenoteEntries(entries) && DenoteEntries(entries)[e.key] == Denote(e.value)
  {
    SortKeepsMembers(entries);
    DenoteEntriesAt(entries);
    var e := SortEntries(entries)[i];
    assert e in entries;
    var n :| 0 <= n < |entries| && entries[n] == e;
  }

  /** The printer sees a tree only through what it denotes. */
  lemma {:induction false} StableJsonIsValueText(j: Json)
    requires Valid(j)
    ensures StableJson(j) == ValueText(Denote(j))
    decreases j
  {
    match j
    case JArray(items) => ItemsAgree(j, items, Denote(j), Denote(j).items);
    case JObject(entries) =>
      SortEnumeratesFields(entries);
      SortedEntriesBelow(j);
      EntriesAgree(j, SortEntries(entries), Denote(j), KeysOf(SortEntries(entries)));
    case _ =>
  }

  lemma {:induction false} ItemsAgree(context: Json, items: seq<Json>, vcontext: Value, values: seq<Value>)
    requires forall i | 0 <= i < |items| :: items[i] < context && Valid(items[i])
    requires |values| == |items| && forall i | 0 <= i < |items| :: values[i] < vcontext && values[i] == Denote(items[i])
    ensures StableItems(context, items) == ItemsText(vcontext, values)
    decreases context, |items|
  {
    if items != [] {
      StableJsonIsValueText(items[0]);
      ItemsAgree(context, items[1..], vcontext, values[1..]);
    }
  }

  lemma {:induction false} EntriesAgree(context: Json, entries: seq<Entry>, vcontext: Value, keys: seq<string>)
    requires forall i | 0 <= i < |entries| :: entries[i].value < context && Valid(entries[i].value)
    requires vcontext.Object? && |keys| == |entries|
    requires forall i | 0 <= i < |keys| ::
               keys[i] == entries[i].key && keys[i] in vcontext.fields
               && vcontext.fields[keys[i]] == Denote(entries[i].value)
    ensures StableEntries(context, entries) == FieldsText(vcontext, keys)
    decreases context, |entries|
  {
    if entries != [] {
      StableJsonIsValueText(entries[0].value);
      EntriesAgree(context, entries[1..], vcontext, keys[1..]);
    }
  }
}

/** Reading a printed value back: where one ends is never in doubt. */
module StableJsonUnambiguous {
  import opened JsonValues
  import opened StringOrder
  import opened StableJsonText

  /** What may follow a value inside a larger text. */
  predicate Delimited(rest: string) {
    rest == "" || rest[0] == ',' || rest[0] == ']' || rest[0] == '}'
  }

  /** Texts of equal length can be taken off both sides. */
  lemma {:induction false} Peel(p: string, q: string, x: string, y: string)
    requires |p| == |q| && p + x == q + y
    ensures p == q && x == y
  {
    assert p == (p + x)[..|p|] && q == (q + y)[..|q|];
    assert x == (p + x)[|p|..] && y == (q + y)[|q|..];
  }

  lemma {:induction false} Regroup(a: string, b: string, c: string, x: string)
    ensures (a + b + c) + x == a + (b + (c + x))
  {}

  lemma {:induction false} SameHead(p: string, q: string, x: string, y: string)
    requires p != "" && q != "" && p + x == q + y
    ensures p[0] == q[0]
  {
    assert p[0] == (p + x)[0] && q[0] == (q + y)[0];
  }

  lemma {:induction false} ShortEscapeInjective(c: char, d: char)
    requires ShortEscape(c) == ShortEscape(d) != ' '
    ensures c == d
  {}

  lemma {:induction false} HexUnambiguous(m: nat, n: nat)
    requires m < 16 && n < 16 && LOWER_HEX[m] == LOWER_HEX[n]
    ensures m == n
  {}

  /** An escaped character starts with neither a quote nor anything ambiguous. */
  lemma {:induction false} EscapeCharShape(c: char)
    ensures EscapeChar(c) != "" && EscapeChar(c)[0] != '\"'
    ensures EscapeChar(c)[0] == '\\' <==> ShortEscape(c) != ' ' || c < ' '
    ensures EscapeChar(c)[0] == '\\' ==> |EscapeChar(c)| >= 2 && (EscapeChar(c)[1] == 'u' <==> ShortEscape(c) == ' ')
  {}

  lemma {:induction false} EscapeCharUnambiguous(c: char, d: char, x: string, y: string)
    requires EscapeChar(c) + x == EscapeChar(d) + y
    ensures c == d && x == y
  {
    var p, q := EscapeChar(c), EscapeChar(d);
    EscapeCharShape(c);
    EscapeCharShape(d);
    SameHead(p, q, x, y);
    if p[0] == '\\' {
      assert p[1] == (p + x)[1] && q[1] == (q + y)[1];
      Peel(p, q, x, y);
      if p[1] == 'u' {
        HexUnambiguous(c as int / 16, d as int / 16);
        HexUnambiguous(c as int % 16, d as int % 16);
      } else {
        ShortEscapeInjective(c, d);
      }
    } else {
      Peel(p, q, x, y);
    }
  }

  /** A string's characters and its closing quote, as read from behind the opening one. */
  function StringTail(s: string, x: string): (r: string)
    ensures r == Escape(s) + ("\"" + x)
  {
    if s == "" then "\"" + x
    else
      assert Escape(s) + ("\"" + x) == EscapeChar(s[0]) + (Escape(s[1..]) + ("\"" + x));
      EscapeChar(s[0]) + StringTail(s[1..], x)
  }

  lemma {:induction false} StringTailUnambiguous(s: string, t: string, x: string, y: string)
    requires StringTail(s, x) == StringTail(t, y)
    ensures s == t && x == y
  {
    if s == "" && t == "" {
      Peel("\"", "\"", x, y);
    } else if s == "" {
      EscapeCharShape(t[0]);
      SameHead("\"", EscapeChar(t[0]), x, StringTail(t[1..], y));
    } else if t == "" {
      EscapeCharShape(s[0]);
      SameHead(EscapeChar(s[0]), "\"", StringTail(s[1..], x), y);
    } else {
      EscapeCharUnambiguous(s[0], t[0], StringTail(s[1..], x), StringTail(t[1..], y));
      StringTailUnambiguous(s[1..], t[1..], x, y);
      assert s == [s[0]] + s[1..] && t == [t[0]] + t[1..];
    }
  }

  lemma {:induction false} QuoteUnambiguous(s: string, t: string, x: string, y: string)
    requires Quote(s) + x == Quote(t) + y
    ensures s == t && x == y
  {
    Regroup("\"", Escape(s), "\"", x);
    Regroup("\"", Escape(t), "\"", y);
    Peel("\"", "\"", StringTail(s, x), StringTail(t, y));
    StringTailUnambiguous(s, t, x, y);
  }

  lemma {:induction false} OverhangHead(s: string, t: string, x: string, y: string)
    requires |s| < |t| && s + x == t + y
    ensures x != "" && x[0] == t[|s|]
  {
    assert (s + x)[|s|] == (t + y)[|s|] == t[|s|];
  }

  lemma {:induction false} TokenNotLonger(s: string, t: string, x: string, y: string)
    requires NumberToken(t) && Delimited(x) && s + x == t + y
    ensures |t| <= |s|
  {
    if |s| < |t| {
      OverhangHead(s, t, x, y);
    }
  }

  lemma {:induction false} TokenUnambiguous(s: string, t: string, x: string, y: string)
    requires NumberToken(s) && NumberToken(t) && Delimited(x) && Delimited(y)
    requires s + x == t + y
    ensures s == t && x == y
  {
    TokenNotLonger(s, t, x, y);
    TokenNotLonger(t, s, y, x);
    Peel(s, t, x, y);
  }

  /** The first character tells the kind of value apart. */
  lemma {:induction false} TextHead(v: Value)
    requires ValidValue(v)
    ensures ValueText(v) != ""
    ensures var c := ValueText(v)[0];
            match v
            case Null => c == 'n'
            case Bool(b) => c == if b then 't' else 'f'
            case Number(_) => NumberChar(c)
            case String(_) => c == '\"'
            case Array(_) => c == '['
            case Object(_) => c == '{'
  {}

  lemma {:induction false} ValueUnambiguous(a: Value, b: Value, x: string, y: string)
    requires ValidValue(a) && ValidValue(b) && Delimited(x) && Delimited(y)
    requires ValueText(a) + x == ValueText(b) + y
    ensures a == b && x == y
    decreases a, 1
  {
    TextHead(a);
    TextHead(b);
    SameHead(ValueText(a), ValueText(b), x, y);
    match a
    case Number(token) => TokenUnambiguous(token, b.token, x, y);
    case String(s) => QuoteUnambiguous(s, b.s, x, y);
    case Array(items) =>
      var l, r := ItemsTail(a, items, x), ItemsTail(b, b.items, y);
      Regroup("[", ItemsText(a, items), "]", x);
      Regroup("[", ItemsText(b, b.items), "]", y);
      Peel("[", "[", l, r);
      ItemsUnambiguous(a, items, b, b.items, x, y);
    case Object(fields) => ObjectUnambiguous(a, b, x, y);
    case _ => Peel(ValueText(a), ValueText(b), x, y);
  }

  lemma {:induction false} ObjectUnambiguous(a: Value, b: Value, x: string, y: string)
    requires ValidValue(a) && ValidValue(b) && a.Object? && b.Object?
    requires ValueText(a) + x == ValueText(b) + y
    ensures a == b && x == y
    decreases a, 0
  {
    var ka, kb := Enumerate(a.fields.Keys), Enumerate(b.fields.Keys);
    var l, r := FieldsTail(a, ka, x), FieldsTail(b, kb, y);
    Regroup("{", FieldsText(a, ka), "}", x);
    Regroup("{", FieldsText(b, kb), "}", y);
    Peel("{", "{", l, r);
    FieldsUnambiguous(a, ka, b, kb, x, y);
    SameFields(a.fields, b.fields, ka);
  }

  lemma {:induction false} SameFields(f: map<string, Value>, g: map<string, Value>, keys: seq<string>)
    requires keys == Enumerate(f.Keys) && keys == Enumerate(g.Keys)
    requires forall i | 0 <= i < |keys| :: f[keys[i]] == g[keys[i]]
    ensures f == g
  {
    forall k ensures k in f <==> k in g {
      assert k in keys <==> k in f.Keys;
      assert k in keys <==> k in g.Keys;
    }
    forall k | k in f ensures f[k] == g[k] {
      assert k in keys;
    }
  }

  /** Comma-separated items and their closing bracket, as read from behind the opening one. */
  ghost function ItemsTail(context: Value, items: seq<Value>, x: string): (r: string)
    requires forall i | 0 <= i < |items| :: items[i] < context
    ensures r == ItemsText(context, items) + ("]" + x)
    decreases |items|
  {
    if items == [] then "]" + x else ValueText(items[0]) + AfterItem(context, items, x)
  }

  /** What follows the first item: the closing bracket, or a comma and the other items. */
  ghost function AfterItem(context: Value, items: seq<Value>, x: string): (r: string)
    requires items != [] && forall i | 0 <= i < |items| :: items[i] < context
    ensures r != "" && r[0] == if |items| == 1 then ']' else ','
    ensures ItemsText(context, items) + ("]" + x) == ValueText(items[0]) + r
    decreases |items|, 0
  {
    if |items| == 1 then "]" + x
    else
      assert ItemsText(context, items) + ("]" + x)
          == ValueText(items[0]) + ("," + (ItemsText(context, items[1..]) + ("]" + x)));
      "," + ItemsTail(context, items[1..], x)
  }

  lemma {:induction false} ItemsUnambiguous(ca: Value, us: seq<Value>, cb: Value, vs: seq<Value>, x: string, y: string)
    requires forall i | 0 <= i < |us| :: us[i] < ca && ValidValue(us[i])
    requires forall i | 0 <= i < |vs| :: vs[i] < cb && ValidValue(vs[i])
    requires ItemsTail(ca, us, x) == ItemsTail(cb, vs, y)
    ensures us == vs && x == y
    decreases ca, 0, |us|
  {
    ItemsTailHead(ca, us, x);
    ItemsTailHead(cb, vs, y);
    if us == [] {
      Peel("]", "]", x, y);
    } else {
      var rx, ry := AfterItem(ca, us, x), AfterItem(cb, vs, y);
      ValueUnambiguous(us[0], vs[0], rx, ry);
      if |us| == 1 {
        Peel("]", "]", x, y);
      } else {
        var ut, vt := us[1..], vs[1..];
        Peel(",", ",", ItemsTail(ca, ut, x), ItemsTail(cb, vt, y));
        ItemsUnambiguous(ca, ut, cb, vt, x, y);
        assert us == [us[0]] + ut && vs == [vs[0]] + vt;
      }
    }
  }

  lemma {:induction false} ItemsTailHead(context: Value, items: seq<Value>, x: string)
    requires forall i | 0 <= i < |items| :: items[i] < context && ValidValue(items[i])
    ensures ItemsTail(context, items, x) != ""
    ensures ItemsTail(context, items, x)[0] == ']' <==> items == []
  {}

  /** Comma-separated fields and their closing brace, as read from behind the opening one. */
  ghost function FieldsTail(context: Value, keys: seq<string>, x: string): (r: string)
    requires context.Object? && forall i | 0 <= i < |keys| :: keys[i] in context.fields
    ensures r == FieldsText(context, keys) + ("}" + x)
    decreases |keys|
  {
    if keys == [] then "}" + x
    else
      var value := ValueText(context.fields[keys[0]]);
      assert Quote(keys[0]) + (":" + (value + AfterField(context, keys, x)))
          == (Quote(keys[0]) + ":" + value) + AfterField(context, keys, x);
      Quote(keys[0]) + (":" + (value + AfterField(context, keys, x)))
  }

  ghost function AfterField(context: Value, keys: seq<string>, x: string): (r: string)
    requires context.Object? && keys != [] && forall i | 0 <= i < |keys| :: keys[i] in context.fields
    ensures r != "" && r[0] == if |keys| == 1 then '}' else ','
    ensures FieldsText(context, keys) + ("}" + x)
         == (Quote(keys[0]) + ":" + ValueText(context.fields[keys[0]])) + r
    decreases |keys|, 0
  {
    if |keys| == 1 then "}" + x
    else
      var first := Quote(keys[0]) + ":" + ValueText(context.fields[keys[0]]);
      assert FieldsText(context, keys) + ("}" + x) == first + ("," + (FieldsText(context, keys[1..]) + ("}" + x)));
      "," + FieldsTail(context, keys[1..], x)
  }

  lemma {:induction false} FieldsUnambiguous(ca: Value, ka: seq<string>, cb: Value, kb: seq<string>, x: string,
          y: string)
    requires ca.Object? && cb.Object? && ValidValue(ca) && ValidValue(cb)
    requires forall i | 0 <= i < |ka| :: ka[i] in ca.fields
    requires forall i | 0 <= i < |kb| :: kb[i] in cb.fields
    requires FieldsTail(ca, ka, x) == FieldsTail(cb, kb, y)
    ensures ka == kb && (forall i | 0 <= i < |ka| :: ca.fields[ka[i]] == cb.fields[ka[i]]) && x == y
    decreases ca, 0, |ka|
  {
    FieldsTailHead(ca, ka, x);
    FieldsTailHead(cb, kb, y);
    if ka == [] {
      Peel("}", "}", x, y);
    } else {
      var rx, ry := AfterField(ca, ka, x), AfterField(cb, kb, y);
      var va, vb := ca.fields[ka[0]], cb.fields[kb[0]];
      QuoteUnambiguous(ka[0], kb[0], ":" + (ValueText(va) + rx), ":" + (ValueText(vb) + ry));
      Peel(":", ":", ValueText(va) + rx, ValueText(vb) + ry);
      ValueUnambiguous(va, vb, rx, ry);
      if |ka| == 1 {
        Peel("}", "}", x, y);
      } else {
        var ta, tb := ka[1..], kb[1..];
        Peel(",", ",", FieldsTail(ca, ta, x), FieldsTail(cb, tb, y));
        FieldsUnambiguous(ca, ta, cb, tb, x, y);
        assert ka == [ka[0]] + ta && kb == [kb[0]] + tb;
        AgreeCons(ca.fields, cb.fields, ka);
      }
    }
  }

  lemma {:induction false} AgreeCons(f: map<string, Value>, g: map<string, Value>, keys: seq<string>)
    requires keys != [] && forall i | 0 <= i < |keys| :: keys[i] in f && keys[i] in g
    requires f[keys[0]] == g[keys[0]]
    requires forall i | 0 <= i < |keys[1..]| :: f[keys[1..][i]] == g[keys[1..][i]]
    ensures forall i | 0 <= i < |keys| :: f[keys[i]] == g[keys[i]]
  {
    forall i | 0 <= i < |keys| ensures f[keys[i]] == g[keys[i]] {
      if i > 0 {
        assert keys[i] == keys[1..][i - 1];
      }
    }
  }

  lemma {:induction false} FieldsTailHead(context: Value, keys: seq<string>, x: string)
    requires context.Object? && forall i | 0 <= i < |keys| :: keys[i] in context.fields
    ensures FieldsTail(context, keys, x) != ""
    ensures FieldsTail(context, keys, x)[0] == '}' <==> keys == []
  {}

  /** Two JSON trees print alike exactly when they are equal up to the order of object entries. */
  lemma {:induction false} StableJsonCanonical(a: Json, b: Json)
    requires Valid(a) && Valid(b)
    ensures StableJson(a) == StableJson(b) <==> Denote(a) == Denote(b)
  {
    StableJsonIsValueText(a);
    StableJsonIsValueText(b);
    DenoteIsValid(a);
    DenoteIsValid(b);
    if StableJson(a) == StableJson(b) {
      ValueUnambiguous(Denote(a), Denote(b), "", "");
    }
  }
}

/** `method:params` fingerprints, the set that stores them, and what that set answers. */
module Fingerprints {
  import opened JsonValues
  import opened Notifications
  import opened StringOrder
  import opened StableJsonText
  import opened StableJsonUnambiguous

  function FingerprintNotification(n: CodexNotification): string {
    n.method_ + ":" + StableJson(n.params)
  }

  /** Same method and same params up to the order of object entries. */
  ghost predicate SameNotification(m: CodexNotification, n: CodexNotification) {
    m.method_ == n.method_ && Denote(m.params) == Denote(n.params)
  }

  // ---------------------------------------------------------------- lexer

  /** Where a left-to-right reader of JSON text stands. `Broken` absorbs what no printed
      value contains: a backslash outside a string, an unknown escape, a colon outside
      every bracket. */
  datatype Lexer =
    | Outside(depth: int)
    | Inside(depth: int)
    | Escaped(depth: int)
    | Broken

  predicate EscapeLetter(c: char) {
    c == '\"' || c == '\\' || c == 'b' || c == 'f' || c == 'n' || c == 'r' || c == 't' || c == 'u'
  }

  ghost function Step(st: Lexer, c: char): Lexer {
    match st
    case Outside(d) =>
      if c == '\"' then Inside(d)
      else if c == '\\' then Broken
      else if c == ':' then if d >= 1 then st else Broken
      else if c == '[' || c == '{' then Outside(d + 1)
      else if c == ']' || c == '}' then Outside(d - 1)
      else st
    case Inside(d) =>
      if c == '\"' then Outside(d) else if c == '\\' then Escaped(d) else st
    case Escaped(d) => if EscapeLetter(c) then Inside(d) else Broken
    case Broken => Broken
  }

  ghost function Scan(st: Lexer, s: string): Lexer
    decreases |s|
  {
    if s == "" then st else Scan(Step(st, s[0]), s[1..])
  }

  lemma {:induction false} ScanConcat(st: Lexer, s: string, t: string)
    ensures Scan(st, s + t) == Scan(Scan(st, s), t)
    decreases |s|
  {
    if s == "" {
      assert s + t == t;
    } else {
      assert (s + t)[0] == s[0] && (s + t)[1..] == s[1..] + t;
      ScanConcat(Step(st, s[0]), s[1..], t);
    }
  }

  lemma {:induction false} ScanBroken(s: string)
    ensures Scan(Broken, s) == Broken
  {
    if s != "" {
      ScanBroken(s[1..]);
    }
  }

  /** Characters that leave a reader outside strings where it is. */
  predicate Plain(c: char) {
    c != '\"' && c != '\\' && c != ':' && c != '[' && c != ']' && c != '{' && c != '}'
  }

  lemma {:induction false} ScanPlain(d: int, s: string)
    requires forall i | 0 <= i < |s| :: Plain(s[i])
    ensures Scan(Outside(d), s) == Outside(d)
  {
    if s != "" {
      ScanPlain(d, s[1..]);
    }
  }

  lemma {:induction false} ScanEscapeChar(d: int, c: char)
    ensures Scan(Inside(d), EscapeChar(c)) == Inside(d)
  {
    var e := EscapeChar(c);
    if |e| == 1 {
      assert Scan(Inside(d), e) == Scan(Step(Inside(d), e[0]), e[1..]);
    } else if |e| == 2 {
      assert e == [e[0]] + [e[1]];
      ScanConcat(Inside(d), [e[0]], [e[1]]);
    } else {
      assert e == "\\u" + "00" + [e[4], e[5]];
      ScanConcat(Inside(d), "\\u" + "00", [e[4], e[5]]);
      ScanConcat(Inside(d), "\\u", "00");
      ScanInsideTwo(d, '0', '0');
      ScanInsideTwo(d, e[4], e[5]);
      assert "\\u" == ['\\'] + ['u'];
      ScanConcat(Inside(d), ['\\'], ['u']);
      assert "00" == ['0', '0'];
    }
  }

  lemma {:induction false} ScanInsideTwo(d: int, a: char, b: char)
    requires a != '\"' && a != '\\' && b != '\"' && b != '\\'
    ensures Scan(Inside(d), [a, b]) == Inside(d)
  {
    assert [a, b] == [a] + [b];
    ScanConcat(Inside(d), [a], [b]);
  }

  lemma {:induction false} ScanEscape(d: int, s: string)
    ensures Scan(Inside(d), Escape(s)) == Inside(d)
  {
    if s != "" {
      ScanEscapeChar(d, s[0]);
      ScanConcat(Inside(d), EscapeChar(s[0]), Escape(s[1..]));
      ScanEscape(d, s[1..]);
    }
  }

  lemma {:induction false} ScanQuote(d: int, s: string)
    ensures Scan(Outside(d), Quote(s)) == Outside(d)
  {
    ScanConcat(Outside(d), "\"" + Escape(s), "\"");
    ScanConcat(Outside(d), "\"", Escape(s));
    ScanEscape(d, s);
  }

  lemma {:induction false} ScanScalar(d: nat, v: Value)
    requires ValidValue(v) && !v.Array? && !v.Object?
    ensures Scan(Outside(d), ValueText(v)) == Outside(d)
  {
    match v
    case Null => ScanPlain(d, "null");
    case Bool(b) => ScanPlain(d, BoolText(b));
    case Number(token) => ScanPlain(d, token);
    case String(s) => ScanQuote(d, s);
  }

  /** A reader that starts outside strings leaves a printed value where it entered it. */
  lemma {:induction false} ScanValue(d: nat, v: Value)
    requires ValidValue(v)
    ensures Scan(Outside(d), ValueText(v)) == Outside(d)
    decreases v, 1
  {
    match v
    case Array(items) =>
      ScanItems(d + 1, v, items);
      ScanBracketed(d, "[", ItemsText(v, items), "]");
    case Object(fields) => ScanObject(d, v);
    case _ => ScanScalar(d, v);
  }

  lemma {:induction false} ScanObject(d: nat, v: Value)
    requires ValidValue(v) && v.Object?
    ensures Scan(Outside(d), ValueText(v)) == Outside(d)
    decreases v, 0
  {
    var keys := Enumerate(v.fields.Keys);
    ScanFields(d + 1, v, keys);
    ScanBracketed(d, "{", FieldsText(v, keys), "}");
  }

  lemma {:induction false} ScanBracketed(d: nat, open: string, body: string, close: string)
    requires (open == "[" && close == "]") || (open == "{" && close == "}")
    requires Scan(Outside(d + 1), body) == Outside(d + 1)
    ensures Scan(Outside(d), open + body + close) == Outside(d)
  {
    ScanConcat(Outside(d), open + body, close);
    ScanConcat(Outside(d), open, body);
    assert Scan(Outside(d), open) == Scan(Step(Outside(d), open[0]), "");
    assert Scan(Outside(d + 1), close) == Scan(Step(Outside(d + 1), close[0]), "");
  }

  lemma {:induction false} ScanItems(d: nat, context: Value, items: seq<Value>)
    requires forall i | 0 <= i < |items| :: items[i] < context && ValidValue(items[i])
    ensures Scan(Outside(d), ItemsText(context, items)) == Outside(d)
    decreases context, 0, |items|
  {
    if items != [] {
      ScanValue(d, items[0]);
      if |items| > 1 {
        var rest := ItemsText(context, items[1..]);
        ScanConcat(Outside(d), ValueText(items[0]) + ",", rest);
        ScanConcat(Outside(d), ValueText(items[0]), ",");
        ScanItems(d, context, items[1..]);
      }
    }
  }

  lemma {:induction false} ScanFields(d: nat, context: Value, keys: seq<string>)
    requires d >= 1 && ValidValue(context)
    requires context.Object? && forall i | 0 <= i < |keys| :: keys[i] in context.fields
    ensures Scan(Outside(d), FieldsText(context, keys)) == Outside(d)
    decreases context, 0, |keys|
  {
    if keys != [] {
      var value := context.fields[keys[0]];
      var first := Quote(keys[0]) + ":" + ValueText(value);
      ScanQuote(d, keys[0]);
      ScanConcat(Outside(d), Quote(keys[0]) + ":", ValueText(value));
      ScanConcat(Outside(d), Quote(keys[0]), ":");
      ScanValue(d, value);
      if |keys| > 1 {
        ScanConcat(Outside(d), first + ",", FieldsText(context, keys[1..]));
        ScanConcat(Outside(d), first, ",");
        ScanFields(d, context, keys[1..]);
      }
    }
  }

  /** One reader inside a string and one outside. */
  ghost predicate Opposite(a: Lexer, b: Lexer) {
    (a.Inside? && b.Outside?) || (a.Outside? && b.Inside?)
  }

  /** Readers that start opposite end opposite, unless one of them breaks. */
  lemma {:induction false} OppositeToTheEnd(a: Lexer, b: Lexer, s: string)
    requires Opposite(a, b)
    requires Scan(a, s) != Broken && Scan(b, s) != Broken
    ensures Opposite(Scan(a, s), Scan(b, s))
    decreases |s|
  {
    if s != "" {
      if s[0] == '\\' || s[0] == ':' {
        ScanBroken(s[1..]);
      }
      OppositeToTheEnd(Step(a, s[0]), Step(b, s[0]), s[1..]);
    }
  }

  /** A printed value never ends in a colon followed by another complete printed value. */
  lemma {:induction false} NoValueAfterColon(v: Value, w: Value, before: string)
    requires ValidValue(v) && ValidValue(w)
    ensures ValueText(v) != before + ":" + ValueText(w)
  {
    if ValueText(v) == before + ":" + ValueText(w) {
      ScanValue(0, v);
      ScanValue(0, w);
      ScanConcat(Outside(0), before + ":", ValueText(w));
      ScanConcat(Outside(0), before, ":");
      var at := Scan(Outside(0), before);
      var after := Step(at, ':');
      assert Scan(at, ":") == after;
      ScanBroken(ValueText(w));
      if after.Outside? {
        ScanValue(after.depth, w);
      } else {
        OppositeToTheEnd(after, Outside(0), ValueText(w));
      }
    }
  }

  lemma {:induction false} FingerprintNotShorter(m: string, v: Value, n: string, w: Value)
    requires ValidValue(v) && ValidValue(w)
    requires m + ":" + ValueText(v) == n + ":" + ValueText(w)
    ensures |n| <= |m|
  {
    if |m| < |n| {
      var whole := m + ":" + ValueText(v);
      var before := n[|m| + 1..];
      assert n == whole[..|n|];
      assert whole[|m| + 1..] == ValueText(v);
      assert (n + ":" + ValueText(w))[|m| + 1..] == before + ":" + ValueText(w);
      NoValueAfterColon(v, w, before);
    }
  }

  /** Fingerprints are equal exactly for notifications that are the same, whatever
      colons the methods contain. */
  lemma {:induction false} FingerprintInjective(m: CodexNotification, n: CodexNotification)
    requires Valid(m.params) && Valid(n.params)
    ensures FingerprintNotification(m) == FingerprintNotification(n) <==> SameNotification(m, n)
  {
    StableJsonIsValueText(m.params);
    StableJsonIsValueText(n.params);
    DenoteIsValid(m.params);
    DenoteIsValid(n.params);
    if FingerprintNotification(m) == FingerprintNotification(n) {
      ColonSplits(m.method_, Denote(m.params), n.method_, Denote(n.params));
    }
  }

  lemma {:induction false} ColonSplits(m: string, v: Value, n: string, w: Value)
    requires ValidValue(v) && ValidValue(w)
    requires m + ":" + ValueText(v) == n + ":" + ValueText(w)
    ensures m == n && v == w
  {
    FingerprintNotShorter(m, v, n, w);
    FingerprintNotShorter(n, w, m, v);
    Peel(m + ":", n + ":", ValueText(v), ValueText(w));
    Peel(m, n, ":", ":");
    ValueUnambiguous(v, w, "", "");
  }

  // ---------------------------------------------------------------- deduper

  /** The answers of a run of `Record` calls, as the string set computes them. */
  ghost function RecordRun(fingerprints: set<string>, run: seq<CodexNotification>): (r: seq<bool>)
    ensures |r| == |run|
    decreases |run|
  {
    if run == [] then []
    else
      var f := FingerprintNotification(run[0]);
      [f !in fingerprints] + RecordRun(fingerprints + {f}, run[1..])
  }

  lemma {:induction false} RecordRunAt(fingerprints: set<string>, run: seq<CodexNotification>, i: nat)
    requires i < |run|
    ensures RecordRun(fingerprints, run)[i]
       <==> FingerprintNotification(run[i]) !in fingerprints
            && forall j | 0 <= j < i :: FingerprintNotification(run[j]) != FingerprintNotification(run[i])
    decreases |run|
  {
    if i > 0 {
      var f := FingerprintNotification(run[0]);
      RecordRunAt(fingerprints + {f}, run[1..], i - 1);
      assert forall j | 0 < j < i :: run[j] == run[1..][j - 1];
      assert forall j | 0 <= j < i - 1 :: run[1..][j] == run[j + 1];
    }
  }

  /** Over any run, a notification is let through exactly on its first occurrence. */
  lemma {:induction false} RecordsFirstOccurrences(run: seq<CodexNotification>, i: nat)
    requires i < |run| && forall j | 0 <= j < |run| :: Valid(run[j].params)
    ensures RecordRun({}, run)[i] <==> forall j | 0 <= j < i :: !SameNotification(run[j], run[i])
  {
    RecordRunAt({}, run, i);
    forall j | 0 <= j < i
      ensures FingerprintNotification(run[j]) == FingerprintNotification(run[i]) <==> SameNotification(run[j], run[i])
    {
      FingerprintInjective(run[j], run[i]);
    }
  }

  class FingerprintDeduper {
    var fingerprints: set<string>
    /** Everything recorded so far, in order. */
    ghost var seen: seq<CodexNotification>

    ghost predicate Sound()
      reads this
    {
      && (forall i | 0 <= i < |seen| :: Valid(seen[i].params) && FingerprintNotification(seen[i]) in fingerprints)
      && (forall f | f in fingerprints :: exists i :: 0 <= i < |seen| && FingerprintNotification(seen[i]) == f)
    }

    constructor ()
      ensures Sound() && seen == []
    {
      fingerprints := {};
      seen := [];
    }

    /** True exactly when no notification recorded before is the same as this one. */
    method Record(n: CodexNotification) returns (isNew: bool)
      requires Sound() && Valid(n.params)
      modifies this
      ensures Sound() && seen == old(seen) + [n]
      ensures fingerprints == old(fingerprints) + {FingerprintNotification(n)}
      ensures isNew <==> forall i | 0 <= i < |old(seen)| :: !SameNotification(old(seen)[i], n)
    {
      var fingerprint := FingerprintNotification(n);
      isNew := fingerprint !in fingerprints;
      forall i | 0 <= i < |seen|
        ensures FingerprintNotification(seen[i]) == fingerprint <==> SameNotification(seen[i], n)
      {
        FingerprintInjective(seen[i], n);
      }
      fingerprints := fingerprints + {fingerprint};
      seen := seen + [n];
      assert seen[|seen| - 1] == n;
      assert forall i | 0 <= i < |old(seen)| :: seen[i] == old(seen)[i];
    }
  }
}
