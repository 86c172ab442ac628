// Dotted-key flattening of configuration overrides (crates/arky-codex/src/provider.rs).

module Flatten {
  import opened Prelude
  import opened JsonValues
  import opened NestedMaps

  /** A leaf of an object: a value that is not an object, with the keys leading to it. */
  datatype JsonLeaf = JsonLeaf(path: Path, value: Json)

  function Below(key: string, leaves: seq<JsonLeaf>): (r: seq<JsonLeaf>)
    ensures |r| == |leaves|
    ensures forall i | 0 <= i < |r| :: r[i] == JsonLeaf([key] + leaves[i].path, leaves[i].value)
  {
    seq(|leaves|, i requires 0 <= i < |leaves| => JsonLeaf([key] + leaves[i].path, leaves[i].value))
  }

  function LeavesOfEntry(entry: Entry): seq<JsonLeaf> {
    match entry.value
    case JObject(nested) => Below(entry.key, Leaves(nested))
    case other => [JsonLeaf([entry.key], other)]
  }

  /** All leaves, in the order the map is walked. */
  function Leaves(entries: seq<Entry>): seq<JsonLeaf> {
    if entries == [] then []
    else
      assert entries[..|entries| - 1] < entries;
      Leaves(entries[..|entries| - 1]) + LeavesOfEntry(entries[|entries| - 1])
  }

  function Dotted(prefix: string, path: Path): string
    decreases |path|
  {
    if path == [] then prefix else Dotted(prefix + "." + path[0], path[1..])
  }

  /** The overrides after inserting leaves under their dotted keys, one after the other. */
  function Put(overrides: map<string, Json>, prefix: string, leaves: seq<JsonLeaf>): map<string, Json> {
    if leaves == [] then overrides
    else
      var last := leaves[|leaves| - 1];
      Put(overrides, prefix, leaves[..|leaves| - 1])[Dotted(prefix, last.path) := last.value]
  }

  lemma {:induction false} PutConcat(overrides: map<string, Json>, prefix: string, a: seq<JsonLeaf>, b: seq<JsonLeaf>)
    ensures Put(overrides, prefix, a + b) == Put(Put(overrides, prefix, a), prefix, b)
    decreases |b|
  {
    if b == [] {
      assert a + b == a;
    } else {
      PutConcat(overrides, prefix, a, b[..|b| - 1]);
      assert (a + b)[..|a + b| - 1] == a + b[..|b| - 1];
    }
  }

  lemma {:induction false} PutBelow(overrides: map<string, Json>, prefix: string, key: string, leaves: seq<JsonLeaf>)
    ensures Put(overrides, prefix, Below(key, leaves)) == Put(overrides, prefix + "." + key, leaves)
  {
    if leaves != [] {
      var n := |leaves| - 1;
      PutBelow(overrides, prefix, key, leaves[..n]);
      assert Below(key, leaves)[..n] == Below(key, leaves[..n]);
      assert ([key] + leaves[n].path)[1..] == leaves[n].path;
    }
  }

  /** `flatten_override_object` */
  method FlattenOverrideObject(prefix: string, object_: seq<Entry>,
          overrides: map<string, Json>) returns (now: map<string, Json>)
    ensures now == Put(overrides, prefix, Leaves(object_))
    decreases object_
  {
    now := overrides;
    var i := 0;
    while i < |object_|
      invariant 0 <= i <= |object_|
      invariant now == Put(overrides, prefix, Leaves(object_[..i]))
    {
      var dottedKey := prefix + "." + object_[i].key;
      OneEntryMore(overrides, prefix, object_, i);
      match object_[i].value {
      case JObject(nested) =>
        PutBelow(now, prefix, object_[i].key, Leaves(nested));
        now := FlattenOverrideObject(dottedKey, nested, now);
      case other =>
        PutOne(now, prefix, object_[i].key, other);
        now := now[dottedKey := other];
      }
      i := i + 1;
    }
    assert object_[..i] == object_;
  }

  lemma {:induction false} OneEntryMore(overrides: map<string, Json>, prefix: string, entries: seq<Entry>, i: nat)
    requires i < |entries|
    ensures Put(overrides, prefix, Leaves(entries[..i + 1]))
         == Put(Put(overrides, prefix, Leaves(entries[..i])), prefix, LeavesOfEntry(entries[i]))
  {
    assert entries[..i + 1][..i] == entries[..i];
    PutConcat(overrides, prefix, Leaves(entries[..i]), LeavesOfEntry(entries[i]));
  }

  lemma {:induction false} PutOne(overrides: map<string, Json>, prefix: string, key: string, value: Json)
    ensures Put(overrides, prefix, [JsonLeaf([key], value)]) == overrides[prefix + "." + key := value]
  {
    var leaf := JsonLeaf([key], value);
    assert [leaf][..0] == [];
    assert [key][1..] == [];
    assert Dotted(prefix, [key]) == prefix + "." + key;
    assert Put(overrides, prefix, [leaf]) == Put(overrides, prefix, [])[Dotted(prefix, [key]) := value];
  }

  // ------------------------------------------------ keys without dots

  predicate DotFree(key: string) {
    forall i | 0 <= i < |key| :: key[i] != '.'
  }

  predicate DotFreePath(path: Path) {
    forall i | 0 <= i < |path| :: DotFree(path[i])
  }

  /** What comes up to the first dot. */
  function Head(text: string): string {
    if text == "" || text[0] == '.' then "" else [text[0]] + Head(text[1..])
  }

  /** `key` followed by nothing or by a dot. */
  lemma {:induction false} HeadOf(key: string, rest: string)
    requires DotFree(key) && (rest == "" || rest[0] == '.')
    ensures Head(key + rest) == key
  {
    if key == "" {
      assert key + rest == rest;
    } else {
      HeadOf(key[1..], rest);
      assert (key + rest)[1..] == key[1..] + rest;
    }
  }

  /** The keys of a path, each after a dot. */
  function Dots(path: Path): string {
    if path == [] then "" else "." + path[0] + Dots(path[1..])
  }

  lemma {:induction false} DottedIsPrefixAndDots(prefix: string, path: Path)
    ensures Dotted(prefix, path) == prefix + Dots(path)
    decreases |path|
  {
    if path == [] {
      assert prefix + "" == prefix;
    } else {
      DottedIsPrefixAndDots(prefix + "." + path[0], path[1..]);
      assert (prefix + "." + path[0]) + Dots(path[1..]) == prefix + ("." + path[0] + Dots(path[1..]));
    }
  }

  /** The path a text of keys after dots spells. */
  function SplitDots(text: string): Path
    decreases |text|
  {
    if text == "" then []
    else
      var head := Head(text[1..]);
      HeadIsPrefix(text[1..]);
      [head] + SplitDots(text[1 + |head|..])
  }

  lemma {:induction false} HeadIsPrefix(text: string)
    ensures |Head(text)| <= |text|
  {
    if text != "" && text[0] != '.' {
      HeadIsPrefix(text[1..]);
    }
  }

  lemma {:induction false} SplitDotsStep(key: string, rest: string)
    requires DotFree(key) && (rest == "" || rest[0] == '.')
    ensures SplitDots("." + key + rest) == [key] + SplitDots(rest)
  {
    var text := "." + key + rest;
    HeadOf(key, rest);
    assert text[1..] == key + rest;
    assert text[1 + |key|..] == rest;
  }

  lemma {:induction false} DotsStartWithDot(path: Path)
    ensures Dots(path) == "" || Dots(path)[0] == '.'
  {}

  lemma {:induction false} SplitDotsInverts(path: Path)
    requires DotFreePath(path)
    ensures SplitDots(Dots(path)) == path
  {
    if path != [] {
      SplitDotsInverts(path[1..]);
      DotsStartWithDot(path[1..]);
      SplitDotsStep(path[0], Dots(path[1..]));
      assert path == [path[0]] + path[1..];
    }
  }

  /** Distinct paths of dot-free keys never meet on a dotted key. */
  lemma {:induction false} DottedInjective(prefix: string, p: Path, q: Path)
    requires DotFreePath(p) && DotFreePath(q)
    ensures Dotted(prefix, p) == Dotted(prefix, q) <==> p == q
  {
    DottedIsPrefixAndDots(prefix, p);
    DottedIsPrefixAndDots(prefix, q);
    if Dotted(prefix, p) == Dotted(prefix, q) {
      assert (prefix + Dots(p))[|prefix|..] == Dots(p) && (prefix + Dots(q))[|prefix|..] == Dots(q);
      SplitDotsInverts(p);
      SplitDotsInverts(q);
    }
  }

  /** A head is followed by nothing or by a dot, and has none itself. */
  lemma {:induction false} HeadStops(text: string)
    ensures DotFree(Head(text)) && |Head(text)| <= |text|
    ensures Head(text) + text[|Head(text)|..] == text
    ensures Spelled(text[|Head(text)|..])
  {
    if text != "" && text[0] != '.' {
      HeadStops(text[1..]);
    }
  }

  /** Nothing, or keys after dots. */
  predicate Spelled(text: string) {
    text == "" || text[0] == '.'
  }

  /** The first key of a text of keys after dots, and the rest. */
  lemma {:induction false} FirstKey(text: string) returns (key: string, rest: string)
    requires Spelled(text) && text != ""
    ensures DotFree(key) && Spelled(rest) && |rest| < |text|
    ensures text == "." + key + rest && SplitDots(text) == [key] + SplitDots(rest)
  {
    HeadStops(text[1..]);
    key := Head(text[1..]);
    rest := text[1..][|key|..];
    assert text == "." + (key + rest);
    assert text == "." + key + rest;
    SplitDotsStep(key, rest);
  }

  lemma {:induction false} SplitDotsConcat(a: string, b: string)
    requires Spelled(a) && Spelled(b)
    ensures SplitDots(a + b) == SplitDots(a) + SplitDots(b)
    decreases |a|
  {
    if a == "" {
      assert a + b == b;
    } else {
      var key, rest := FirstKey(a);
      SplitDotsConcat(rest, b);
      SplitDotsBefore(key, rest, b);
      Regroup([key], SplitDots(rest), SplitDots(b));
    }
  }

  lemma {:induction false} Regroup<T>(x: seq<T>, y: seq<T>, z: seq<T>)
    ensures (x + y) + z == x + (y + z)
  {}

  lemma {:induction false} SplitDotsBefore(key: string, rest: string, b: string)
    requires DotFree(key) && Spelled(rest) && Spelled(b)
    ensures SplitDots("." + key + rest + b) == [key] + SplitDots(rest + b)
  {
    Regroup("." + key, rest, b);
    SplitDotsStep(key, rest + b);
  }

  /** Splitting yields dot-free keys, and spelling them out again yields the text. */
  lemma {:induction false} DotsInvertSplit(text: string)
    requires Spelled(text)
    ensures DotFreePath(SplitDots(text)) && Dots(SplitDots(text)) == text
    decreases |text|
  {
    if text != "" {
      var key, rest := FirstKey(text);
      DotsInvertSplit(rest);
      assert ([key] + SplitDots(rest))[1..] == SplitDots(rest);
    }
  }

  /** A path with every key split at its dots. */
  function SplitKeys(path: Path): Path {
    if path == [] then [] else SplitDots("." + path[0]) + SplitKeys(path[1..])
  }

  lemma {:induction false} SplitDotsOfPath(path: Path)
    ensures SplitDots(Dots(path)) == SplitKeys(path) && DotFreePath(SplitKeys(path))
  {
    DotsStartWithDot(path);
    DotsInvertSplit(Dots(path));
    if path != [] {
      DotsStartWithDot(path[1..]);
      SplitDotsConcat("." + path[0], Dots(path[1..]));
      SplitDotsOfPath(path[1..]);
    }
  }

  /** Two paths meet on a dotted key exactly when splitting their keys at the dots gives the
      same path. */
  lemma {:induction false} DottedMeetExactly(prefix: string, p: Path, q: Path)
    ensures Dotted(prefix, p) == Dotted(prefix, q) <==> SplitKeys(p) == SplitKeys(q)
  {
    DottedIsPrefixAndDots(prefix, p);
    DottedIsPrefixAndDots(prefix, q);
    SplitDotsOfPath(p);
    SplitDotsOfPath(q);
    DotsStartWithDot(p);
    DotsStartWithDot(q);
    DotsInvertSplit(Dots(p));
    DotsInvertSplit(Dots(q));
    if Dotted(prefix, p) == Dotted(prefix, q) {
      assert (prefix + Dots(p))[|prefix|..] == Dots(p) && (prefix + Dots(q))[|prefix|..] == Dots(q);
    }
  }

  /** A path meets the path of its split keys, which is another one exactly when some key of
      it has a dot. */
  lemma {:induction false} DotsCollide(prefix: string, path: Path)
    ensures Dotted(prefix, SplitKeys(path)) == Dotted(prefix, path)
    ensures SplitKeys(path) != path <==> !DotFreePath(path)
  {
    SplitDotsOfPath(path);
    SplitDotsInverts(SplitKeys(path));
    SplitDotsOfPath(SplitKeys(path));
    DottedMeetExactly(prefix, SplitKeys(path), path);
    if DotFreePath(path) {
      SplitDotsInverts(path);
    }
  }

  predicate DotFreeKeys(entries: seq<Entry>) {
    forall e | e in entries :: DotFree(e.key) && (e.value.JObject? ==> DotFreeKeys(e.value.entries))
  }

  /** Leaves of an object: pairwise incomparable paths of dot-free keys, none of them empty. */
  predicate ProperLeaves(leaves: seq<JsonLeaf>) {
    && (forall i | 0 <= i < |leaves| ::
          leaves[i].path != [] && DotFreePath(leaves[i].path) && !leaves[i].value.JObject?)
    && forall i, j | 0 <= i < j < |leaves| :: !Comparable(leaves[i].path, leaves[j].path)
  }

  predicate FirstKeys(leaves: seq<JsonLeaf>, key: string) {
    forall i | 0 <= i < |leaves| :: leaves[i].path != [] && leaves[i].path[0] == key
  }

  lemma {:induction false} BelowIsProper(key: string, leaves: seq<JsonLeaf>)
    requires ProperLeaves(leaves) && DotFree(key)
    ensures ProperLeaves(Below(key, leaves)) && FirstKeys(Below(key, leaves), key)
  {
    var r := Below(key, leaves);
    forall i, j | 0 <= i < j < |r| ensures !Comparable(r[i].path, r[j].path) {
      assert r[i].path[1..] == leaves[i].path && r[j].path[1..] == leaves[j].path;
      TailsIncomparable(r[i].path, r[j].path);
    }
  }

  /** The leaves of the entries before another one start with other keys. */
  predicate KeysAmong(leaves: seq<JsonLeaf>, entries: seq<Entry>) {
    forall i | 0 <= i < |leaves| ::
      leaves[i].path != [] && exists j :: 0 <= j < |entries| && entries[j].key == leaves[i].path[0]
  }

  lemma {:induction false} EntryLeavesAreProper(entry: Entry)
    requires Valid(entry.value) && DotFree(entry.key) && (entry.value.JObject? ==> DotFreeKeys(entry.value.entries))
    ensures ProperLeaves(LeavesOfEntry(entry)) && FirstKeys(LeavesOfEntry(entry), entry.key)
    decreases entry, 0
  {
    match entry.value
    case JObject(nested) =>
      LeavesAreProper(nested);
      BelowIsProper(entry.key, Leaves(nested));
    case _ =>
  }

  lemma {:induction false} LeavesAreProper(entries: seq<Entry>)
    requires Valid(JObject(entries)) && DotFreeKeys(entries)
    ensures ProperLeaves(Leaves(entries)) && KeysAmong(Leaves(entries), entries)
    decreases entries, 1
  {
    if entries != [] {
      var n := |entries| - 1;
      var front, last := entries[..n], entries[n];
      assert forall e | e in front :: e in entries;
      assert last in entries;
      LeavesAreProper(front);
      EntryLeavesAreProper(last);
      JoinLeaves(entries, Leaves(front), LeavesOfEntry(last));
    }
  }

  lemma {:induction false} JoinLeaves(entries: seq<Entry>, a: seq<JsonLeaf>, b: seq<JsonLeaf>)
    requires entries != [] && DistinctKeys(entries)
    requires ProperLeaves(a) && KeysAmong(a, entries[..|entries| - 1])
    requires ProperLeaves(b) && FirstKeys(b, entries[|entries| - 1].key)
    ensures ProperLeaves(a + b) && KeysAmong(a + b, entries)
  {}

  /** A leaf of `leaves` has dotted key `key`. */
  predicate Flattens(leaves: seq<JsonLeaf>, prefix: string, key: string) {
    exists i | 0 <= i < |leaves| :: Dotted(prefix, leaves[i].path) == key
  }

  lemma {:induction false} PutHas(overrides: map<string, Json>, prefix: string, leaves: seq<JsonLeaf>, i: nat)
    requires ProperLeaves(leaves) && i < |leaves|
    ensures var now := Put(overrides, prefix, leaves);
            Dotted(prefix, leaves[i].path) in now && now[Dotted(prefix, leaves[i].path)] == leaves[i].value
  {
    var n := |leaves| - 1;
    if i < n {
      PutHas(overrides, prefix, leaves[..n], i);
      DottedInjective(prefix, leaves[i].path, leaves[n].path);
    }
  }

  lemma {:induction false} PutElsewhere(overrides: map<string, Json>, prefix: string, leaves: seq<JsonLeaf>,
          key: string)
    requires !Flattens(leaves, prefix, key)
    ensures var now := Put(overrides, prefix, leaves);
            (key in now <==> key in overrides) && (key in overrides ==> now[key] == overrides[key])
  {
    if leaves != [] {
      var n := |leaves| - 1;
      assert forall j | 0 <= j < n :: leaves[..n][j] == leaves[j];
      PutElsewhere(overrides, prefix, leaves[..n], key);
      assert Dotted(prefix, leaves[n].path) != key;
    }
  }

  /** The result is the old map updated with exactly the prefixed leaf paths: each leaf is
      under its own dotted key, and every other key is as before. */
  lemma {:induction false} FlattenUpdatesExactlyTheLeaves(prefix: string, entries: seq<Entry>,
          overrides: map<string, Json>, key: string)
    requires Valid(JObject(entries)) && DotFreeKeys(entries)
    ensures var leaves, now := Leaves(entries), Put(overrides, prefix, Leaves(entries));
            && (forall i | 0 <= i < |leaves| ::
                  Dotted(prefix, leaves[i].path) in now && now[Dotted(prefix, leaves[i].path)] == leaves[i].value)
            && (!Flattens(leaves, prefix, key) ==> (key in now <==> key in overrides)
                                                   && (key in overrides ==> now[key] == overrides[key]))
  {
    LeavesAreProper(entries);
    var leaves := Leaves(entries);
    forall i | 0 <= i < |leaves|
      ensures var now := Put(overrides, prefix, leaves);
              Dotted(prefix, leaves[i].path) in now && now[Dotted(prefix, leaves[i].path)] == leaves[i].value
    {
      PutHas(overrides, prefix, leaves, i);
    }
    if !Flattens(leaves, prefix, key) {
      PutElsewhere(overrides, prefix, leaves, key);
    }
  }

  // ------------------------------------------------ unflattening

  function Meaning(leaf: JsonLeaf): Leaf {
    Leaf(leaf.path, Denote(leaf.value))
  }

  function Meanings(leaves: seq<JsonLeaf>): (r: seq<Leaf>)
    ensures |r| == |leaves| && forall i | 0 <= i < |r| :: r[i] == Meaning(leaves[i])
  {
    seq(|leaves|, i requires 0 <= i < |leaves| => Meaning(leaves[i]))
  }

  /** No nested object is empty; an empty one leaves no trace in the flat map. */
  predicate NoEmptyObjects(entries: seq<Entry>) {
    forall e | e in entries :: e.value.JObject? ==> e.value.entries != [] && NoEmptyObjects(e.value.entries)
  }

  function PrependKey(key: string, leaves: seq<Leaf>): (r: seq<Leaf>)
    ensures |r| == |leaves| && forall i | 0 <= i < |r| :: r[i] == Leaf([key] + leaves[i].path, leaves[i].value)
  {
    seq(|leaves|, i requires 0 <= i < |leaves| => Leaf([key] + leaves[i].path, leaves[i].value))
  }

  /** Insertions that all start with one key happen inside the object under that key. */
  lemma {:induction false} InsertAllBelow(fields: map<string, Value>, key: string, leaves: seq<Leaf>)
    requires forall i | 0 <= i < |leaves| :: leaves[i].path != []
    ensures ObjectAt(InsertAll(fields, PrependKey(key, leaves)), key) == InsertAll(ObjectAt(fields, key), leaves)
    ensures InsertAll(fields, PrependKey(key, leaves))
         == if leaves == [] then fields else fields[key := Object(InsertAll(ObjectAt(fields, key), leaves))]
  {
    if leaves != [] {
      var front, last := leaves[..|leaves| - 1], leaves[|leaves| - 1];
      assert leaves == front + [last];
      InsertAllBelow(fields, key, front);
      OneMoreBelow(fields, key, front, last);
    }
  }

  lemma {:induction false} OneMoreBelow(fields: map<string, Value>, key: string, front: seq<Leaf>, last: Leaf)
    requires last.path != [] && forall i | 0 <= i < |front| :: front[i].path != []
    requires ObjectAt(InsertAll(fields, PrependKey(key, front)), key) == InsertAll(ObjectAt(fields, key), front)
    requires InsertAll(fields, PrependKey(key, front))
          == if front == [] then fields else fields[key := Object(InsertAll(ObjectAt(fields, key), front))]
    ensures InsertAll(fields, PrependKey(key, front + [last]))
         == fields[key := Object(InsertAll(ObjectAt(fields, key), front + [last]))]
  {
    var below := PrependKey(key, front);
    assert PrependKey(key, front + [last]) == below + [Leaf([key] + last.path, last.value)];
    InsertAllSnoc(fields, below, Leaf([key] + last.path, last.value));
    InsertAllSnoc(ObjectAt(fields, key), front, last);
    InsertOneBelow(InsertAll(fields, below), key, last);
    UpdateOver(fields, InsertAll(fields, below), key, Object(InsertAll(ObjectAt(fields, key), front)),
               Object(InsertAll(ObjectAt(fields, key), front + [last])));
  }

  lemma {:induction false} UpdateOver(fields: map<string, Value>, now: map<string, Value>, key: string, x: Value,
          y: Value)
    requires now == fields || now == fields[key := x]
    ensures now[key := y] == fields[key := y]
  {}

  lemma {:induction false} InsertOneBelow(fields: map<string, Value>, key: string, leaf: Leaf)
    requires leaf.path != []
    ensures Insert(fields, [key] + leaf.path, leaf.value)
         == fields[key := Object(Insert(ObjectAt(fields, key), leaf.path, leaf.value))]
  {}

  lemma {:induction false} MeaningsBelow(key: string, leaves: seq<JsonLeaf>)
    ensures Meanings(Below(key, leaves)) == PrependKey(key, Meanings(leaves))
  {}

  lemma {:induction false} LeavesExist(entries: seq<Entry>)
    requires NoEmptyObjects(entries)
    ensures entries != [] ==> Leaves(entries) != []
    decreases entries
  {
    if entries != [] {
      var last := entries[|entries| - 1];
      assert last in entries;
      match last.value
      case JObject(nested) => LeavesExist(nested);
      case _ =>
    }
  }

  /** Inserting what one entry left puts its meaning back. */
  lemma {:induction false} UnflattenEntry(fields: map<string, Value>, entry: Entry)
    requires entry.key !in fields && Valid(entry.value) && DotFree(entry.key)
    requires entry.value.JObject? ==>
               DotFreeKeys(entry.value.entries) && NoEmptyObjects(entry.value.entries) && entry.value.entries != []
    ensures ProperLeaves(LeavesOfEntry(entry))
    ensures InsertAll(fields, Meanings(LeavesOfEntry(entry))) == fields[entry.key := Denote(entry.value)]
    decreases entry, 0
  {
    EntryLeavesAreProper(entry);
    match entry.value
    case JObject(nested) =>
      UnflattenEntries(nested);
      LeavesExist(nested);
      MeaningsBelow(entry.key, Leaves(nested));
      InsertAllBelow(fields, entry.key, Meanings(Leaves(nested)));
    case other =>
      var leaf := Leaf([entry.key], Denote(other));
      assert Meanings(LeavesOfEntry(entry)) == [] + [leaf];
      InsertAllSnoc(fields, [], leaf);
  }

  lemma {:induction false} MeaningsConcat(a: seq<JsonLeaf>, b: seq<JsonLeaf>)
    ensures Meanings(a + b) == Meanings(a) + Meanings(b)
  {}

  lemma {:induction false} InsertAllConcat(fields: map<string, Value>, a: seq<Leaf>, b: seq<Leaf>)
    requires forall i | 0 <= i < |a| :: a[i].path != []
    requires forall i | 0 <= i < |b| :: b[i].path != []
    ensures InsertAll(fields, a + b) == InsertAll(InsertAll(fields, a), b)
    decreases |b|
  {
    if b == [] {
      assert a + b == a;
    } else {
      var front, last := b[..|b| - 1], b[|b| - 1];
      InsertAllConcat(fields, a, front);
      assert a + b == (a + front) + [last] && b == front + [last];
      InsertAllSnoc(fields, a + front, last);
      InsertAllSnoc(InsertAll(fields, a), front, last);
    }
  }

  lemma {:induction false} UnflattenEntries(entries: seq<Entry>)
    requires Valid(JObject(entries)) && DotFreeKeys(entries) && NoEmptyObjects(entries)
    ensures ProperLeaves(Leaves(entries))
    ensures InsertAll(map[], Meanings(Leaves(entries))) == DenoteEntries(entries)
    decreases entries, 1
  {
    LeavesAreProper(entries);
    if entries != [] {
      var n := |entries| - 1;
      var front, last := entries[..n], entries[n];
      assert forall e | e in front :: e in entries;
      assert last in entries;
      LeavesAreProper(front);
      UnflattenEntries(front);
      KeyIsNew(entries);
      UnflattenEntry(DenoteEntries(front), last);
      MeaningsConcat(Leaves(front), LeavesOfEntry(last));
      InsertAllConcat(map[], Meanings(Leaves(front)), Meanings(LeavesOfEntry(last)));
    }
  }

  lemma {:induction false} KeyIsNew(entries: seq<Entry>)
    requires entries != [] && DistinctKeys(entries)
    ensures entries[|entries| - 1].key !in DenoteEntries(entries[..|entries| - 1])
  {
    var front := entries[..|entries| - 1];
    DenoteEntriesAt(front);
  }

  /** The path a flat key stands for: without the prefix, split at its dots. */
  function PathOf(prefix: string, key: string): Path {
    if prefix <= key then SplitDots(key[|prefix|..]) else []
  }

  /** The leaves of a flat map, in the order `keys` lists its keys. */
  function Listed(prefix: string, flat: map<string, Json>, keys: seq<string>): (r: seq<Leaf>)
    requires forall i | 0 <= i < |keys| :: keys[i] in flat
    ensures |r| == |keys| && forall i | 0 <= i < |r| :: r[i] == Leaf(PathOf(prefix, keys[i]), Denote(flat[keys[i]]))
  {
    seq(|keys|, i requires 0 <= i < |keys| => Leaf(PathOf(prefix, keys[i]), Denote(flat[keys[i]])))
  }

  predicate Enumerates(keys: seq<string>, all: set<string>) {
    && (forall i, j | 0 <= i < j < |keys| :: keys[i] != keys[j])
    && (forall i | 0 <= i < |keys| :: keys[i] in all)
    && (forall k | k in all :: k in keys)
  }

  /** The dotted keys of the leaves, in order. */
  function DottedKeys(prefix: string, leaves: seq<JsonLeaf>): (r: seq<string>)
    ensures |r| == |leaves| && forall i | 0 <= i < |r| :: r[i] == Dotted(prefix, leaves[i].path)
  {
    seq(|leaves|, i requires 0 <= i < |leaves| => Dotted(prefix, leaves[i].path))
  }

  lemma {:induction false} DottedKeysEnumerate(prefix: string, leaves: seq<JsonLeaf>)
    requires ProperLeaves(leaves)
    ensures Enumerates(DottedKeys(prefix, leaves), Put(map[], prefix, leaves).Keys)
  {
    var keys, flat := DottedKeys(prefix, leaves), Put(map[], prefix, leaves);
    forall i, j | 0 <= i < j < |keys| ensures keys[i] != keys[j] {
      DottedInjective(prefix, leaves[i].path, leaves[j].path);
    }
    forall i | 0 <= i < |keys| ensures keys[i] in flat {
      PutHas(map[], prefix, leaves, i);
    }
    forall k | k in flat ensures k in keys {
      if !Flattens(leaves, prefix, k) {
        PutElsewhere(map[], prefix, leaves, k);
      }
      var i :| 0 <= i < |leaves| && Dotted(prefix, leaves[i].path) == k;
      assert keys[i] == k;
    }
  }

  lemma {:induction false} ListedInWalkOrder(prefix: string, leaves: seq<JsonLeaf>)
    requires ProperLeaves(leaves)
    ensures Enumerates(DottedKeys(prefix, leaves), Put(map[], prefix, leaves).Keys)
    ensures Listed(prefix, Put(map[], prefix, leaves), DottedKeys(prefix, leaves)) == Meanings(leaves)
  {
    DottedKeysEnumerate(prefix, leaves);
    var keys, flat := DottedKeys(prefix, leaves), Put(map[], prefix, leaves);
    forall i | 0 <= i < |leaves| ensures Listed(prefix, flat, keys)[i] == Meaning(leaves[i]) {
      PutHas(map[], prefix, leaves, i);
      DottedIsPrefixAndDots(prefix, leaves[i].path);
      assert (prefix + Dots(leaves[i].path))[|prefix|..] == Dots(leaves[i].path);
      SplitDotsInverts(leaves[i].path);
    }
  }

  lemma {:induction false} IndexIn<T>(s: seq<T>, x: T) returns (i: nat)
    requires x in s
    ensures i < |s| && s[i] == x
  {
    i :| 0 <= i < |s| && s[i] == x;
  }

  lemma {:induction false} ListedConcat(prefix: string, flat: map<string, Json>, a: seq<string>, b: seq<string>)
    requires forall i | 0 <= i < |a| :: a[i] in flat
    requires forall i | 0 <= i < |b| :: b[i] in flat
    ensures forall i | 0 <= i < |a + b| :: (a + b)[i] in flat
    ensures Listed(prefix, flat, a + b) == Listed(prefix, flat, a) + Listed(prefix, flat, b)
  {}

  lemma {:induction false} ListedMoved(prefix: string, flat: map<string, Json>, x: seq<string>, last: string,
          z: seq<string>)
    requires last in flat
    requires forall i | 0 <= i < |x| :: x[i] in flat
    requires forall i | 0 <= i < |z| :: z[i] in flat
    ensures forall i | 0 <= i < |x + [last] + z| :: (x + [last] + z)[i] in flat
    ensures forall i | 0 <= i < |x + z| :: (x + z)[i] in flat
    ensures multiset(Listed(prefix, flat, x + [last] + z))
         == multiset(Listed(prefix, flat, x + z)) + multiset(Listed(prefix, flat, [last]))
  {
    ListedConcat(prefix, flat, x, [last]);
    ListedConcat(prefix, flat, x + [last], z);
    ListedConcat(prefix, flat, x, z);
  }

  lemma {:induction false} SameAfterMove(prefix: string, flat: map<string, Json>, x: seq<string>, last: string,
          z: seq<string>, front: seq<string>)
    requires last in flat
    requires forall i | 0 <= i < |x| :: x[i] in flat
    requires forall i | 0 <= i < |z| :: z[i] in flat
    requires forall i | 0 <= i < |x + z| :: (x + z)[i] in flat
    requires forall i | 0 <= i < |front| :: front[i] in flat
    requires multiset(Listed(prefix, flat, x + z)) == multiset(Listed(prefix, flat, front))
    ensures forall i | 0 <= i < |x + [last] + z| :: (x + [last] + z)[i] in flat
    ensures forall i | 0 <= i < |front + [last]| :: (front + [last])[i] in flat
    ensures multiset(Listed(prefix, flat, x + [last] + z)) == multiset(Listed(prefix, flat, front + [last]))
  {
    ListedMoved(prefix, flat, x, last, z);
    ListedConcat(prefix, flat, front, [last]);
  }

  lemma {:induction false} FirstEnumerated(a: seq<string>, all: set<string>)
    requires Enumerates(a, all)
    ensures a != [] ==> a[0] in all
  {}

  lemma {:induction false} EnumerationOfNothing(a: seq<string>, all: set<string>)
    requires Enumerates(a, all) && Enumerates([], all)
    ensures a == []
  {
    FirstEnumerated(a, all);
    assert all == {};
  }

  lemma {:induction false} SplitAround(a: seq<string>, i: nat)
    requires i < |a|
    ensures a == a[..i] + [a[i]] + a[i + 1..]
  {}

  /** Two enumerations of one set list the same leaves up to order. */
  lemma {:induction false} EnumerationsListTheSame(prefix: string, flat: map<string, Json>, a: seq<string>,
          b: seq<string>, all: set<string>)
    requires Enumerates(a, all) && Enumerates(b, all) && all <= flat.Keys
    ensures multiset(Listed(prefix, flat, a)) == multiset(Listed(prefix, flat, b))
    decreases |b|
  {
    if b == [] {
      EnumerationOfNothing(a, all);
    } else {
      var n := |b| - 1;
      var i := IndexIn(a, b[n]);
      EnumerationWithout(a, i, all);
      EnumerationWithout(b, n, all);
      EnumerationsListTheSame(prefix, flat, a[..i] + a[i + 1..], b[..n] + b[n + 1..], all - {b[n]});
      SplitAround(a, i);
      SplitAround(b, n);
      assert b[n + 1..] == [] && b[..n] + [] == b[..n];
      assert b == b[..n] + [b[n]];
      SameAfterMove(prefix, flat, a[..i], b[n], a[i + 1..], b[..n]);
    }
  }

  lemma {:induction false} EnumerationWithout(a: seq<string>, i: nat, all: set<string>)
    requires Enumerates(a, all) && i < |a|
    ensures Enumerates(a[..i] + a[i + 1..], all - {a[i]})
  {}

  /** The last of the leaves that meet on a dotted key is the one found there. */
  lemma {:induction false} LastMeetingLeafWins(overrides: map<string, Json>, prefix: string, leaves: seq<JsonLeaf>,
          i: nat) returns (j: nat)
    requires i < |leaves|
    ensures i <= j < |leaves| && Dotted(prefix, leaves[j].path) == Dotted(prefix, leaves[i].path)
    ensures var now, key := Put(overrides, prefix, leaves), Dotted(prefix, leaves[i].path);
            key in now && now[key] == leaves[j].value
  {
    var n := |leaves| - 1;
    if Dotted(prefix, leaves[n].path) == Dotted(prefix, leaves[i].path) {
      j := n;
    } else {
      j := LastMeetingLeafWins(overrides, prefix, leaves[..n], i);
    }
  }

  predicate Found(now: map<string, Json>, prefix: string, leaf: JsonLeaf) {
    Dotted(prefix, leaf.path) in now && now[Dotted(prefix, leaf.path)] == leaf.value
  }

  predicate MeetInOneValue(a: JsonLeaf, b: JsonLeaf) {
    SplitKeys(a.path) == SplitKeys(b.path) ==> a.value == b.value
  }

  /** Every leaf of an object is found under its dotted key exactly when leaves that meet
      there have the same value. */
  lemma {:induction false} LeavesSurviveExactly(prefix: string, entries: seq<Entry>, overrides: map<string, Json>)
    ensures var leaves, now := Leaves(entries), Put(overrides, prefix, Leaves(entries));
            (forall i | 0 <= i < |leaves| :: Found(now, prefix, leaves[i]))
            <==> (forall i, j | 0 <= i < j < |leaves| :: MeetInOneValue(leaves[i], leaves[j]))
  {
    var leaves, now := Leaves(entries), Put(overrides, prefix, Leaves(entries));
    if forall i | 0 <= i < |leaves| :: Found(now, prefix, leaves[i]) {
      forall i, j | 0 <= i < j < |leaves| ensures MeetInOneValue(leaves[i], leaves[j]) {
        DottedMeetExactly(prefix, leaves[i].path, leaves[j].path);
      }
    } else {
      var i :| 0 <= i < |leaves| && !Found(now, prefix, leaves[i]);
      var j := LastMeetingLeafWins(overrides, prefix, leaves, i);
      DottedMeetExactly(prefix, leaves[i].path, leaves[j].path);
      assert !MeetInOneValue(leaves[i], leaves[j]);
    }
  }

  /** For dot-free keys and no empty nested object, the keys of the flat map can be listed in
      any order: splitting them at their dots and inserting the values gives the object. */
  lemma {:induction false} UnflattenInAnyOrder(prefix: string, entries: seq<Entry>, keys: seq<string>)
    requires Valid(JObject(entries)) && DotFreeKeys(entries) && NoEmptyObjects(entries)
    requires Enumerates(keys, Put(map[], prefix, Leaves(entries)).Keys)
    ensures var listed := Listed(prefix, Put(map[], prefix, Leaves(entries)), keys);
            Insertable(listed) && InsertAll(map[], listed) == DenoteEntries(entries)
  {
    var leaves, flat := Leaves(entries), Put(map[], prefix, Leaves(entries));
    LeavesAreProper(entries);
    UnflattenEntries(entries);
    ListedInWalkOrder(prefix, leaves);
    EnumerationsListTheSame(prefix, flat, keys, DottedKeys(prefix, leaves), flat.Keys);
    InsertableReordered(Meanings(leaves), Listed(prefix, flat, keys));
    InsertionOrderDoesNotMatter(map[], Listed(prefix, flat, keys), Meanings(leaves));
  }

  // ------------------------------------------------ what unflattening can give back

  /** A tree whose keys have no dots and whose nested objects are not empty. */
  predicate Tidy(v: Value) {
    match v
    case Object(fields) =>
      forall k | k in fields ::
        DotFree(k) && Tidy(fields[k]) && (fields[k].Object? ==> fields[k].fields != map[])
    case _ => true
  }

  lemma {:induction false} InsertKeepsTidy(fields: map<string, Value>, path: Path, value: Value)
    requires Tidy(Object(fields)) && path != [] && DotFreePath(path) && !value.Object?
    ensures Tidy(Object(Insert(fields, path, value))) && Insert(fields, path, value) != map[]
    decreases |path|
  {
    assert path[0] in Insert(fields, path, value);
    if |path| > 1 {
      InsertKeepsTidy(ObjectAt(fields, path[0]), path[1..], value);
    }
  }

  /** What inserts a leaf into such a tree and leaves it one. */
  predicate TidyLeaf(leaf: Leaf) {
    leaf.path != [] && DotFreePath(leaf.path) && !leaf.value.Object?
  }

  lemma {:induction false} InsertAllIsTidy(leaves: seq<Leaf>)
    requires forall i | 0 <= i < |leaves| :: TidyLeaf(leaves[i])
    ensures forall i | 0 <= i < |leaves| :: leaves[i].path != []
    ensures Tidy(Object(InsertAll(map[], leaves)))
  {
    if leaves != [] {
      var front, last := leaves[..|leaves| - 1], leaves[|leaves| - 1];
      InsertAllIsTidy(front);
      assert leaves == front + [last];
      InsertAllSnoc(map[], front, last);
      InsertKeepsTidy(InsertAll(map[], front), last.path, last.value);
    }
  }

  /** Every value in the flat map is a leaf's, under that leaf's dotted key. */
  lemma {:induction false} PutHolds(prefix: string, leaves: seq<JsonLeaf>, key: string)
    requires key in Put(map[], prefix, leaves)
    ensures exists i :: 0 <= i < |leaves| && key == Dotted(prefix, leaves[i].path)
                        && Put(map[], prefix, leaves)[key] == leaves[i].value
  {
    var n := |leaves| - 1;
    if key == Dotted(prefix, leaves[n].path) {
      assert Put(map[], prefix, leaves)[key] == leaves[n].value;
    } else {
      PutHolds(prefix, leaves[..n], key);
      var i :| 0 <= i < n && key == Dotted(prefix, leaves[..n][i].path)
               && Put(map[], prefix, leaves[..n])[key] == leaves[..n][i].value;
      assert leaves[i] == leaves[..n][i];
    }
  }

  predicate TrueLeaf(leaf: JsonLeaf) {
    leaf.path != [] && !leaf.value.JObject?
  }

  lemma {:induction false} LeavesAreTrue(entries: seq<Entry>)
    ensures forall i | 0 <= i < |Leaves(entries)| :: TrueLeaf(Leaves(entries)[i])
  {
    if entries != [] {
      var last := entries[|entries| - 1];
      LeavesAreTrue(entries[..|entries| - 1]);
      match last.value
      case JObject(nested) =>
        LeavesAreTrue(nested);
        assert forall i | 0 <= i < |LeavesOfEntry(last)| :: TrueLeaf(LeavesOfEntry(last)[i]);
      case _ =>
    }
  }

  lemma {:induction false} ListedAreTidy(prefix: string, entries: seq<Entry>, keys: seq<string>)
    requires forall i | 0 <= i < |keys| :: keys[i] in Put(map[], prefix, Leaves(entries))
    ensures var listed := Listed(prefix, Put(map[], prefix, Leaves(entries)), keys);
            forall i | 0 <= i < |listed| :: TidyLeaf(listed[i])
  {
    var leaves, flat := Leaves(entries), Put(map[], prefix, Leaves(entries));
    var listed := Listed(prefix, flat, keys);
    LeavesAreTrue(entries);
    forall i | 0 <= i < |listed| ensures TidyLeaf(listed[i]) {
      PutHolds(prefix, leaves, keys[i]);
      var j :| 0 <= j < |leaves| && keys[i] == Dotted(prefix, leaves[j].path) && flat[keys[i]] == leaves[j].value;
      KeySpellsPath(prefix, leaves[j].path);
      assert TrueLeaf(leaves[j]);
    }
  }

  lemma {:induction false} KeySpellsPath(prefix: string, path: Path)
    ensures PathOf(prefix, Dotted(prefix, path)) == SplitKeys(path) && DotFreePath(SplitKeys(path))
    ensures path != [] ==> SplitKeys(path) != []
  {
    DottedIsPrefixAndDots(prefix, path);
    assert (prefix + Dots(path))[|prefix|..] == Dots(path);
    SplitDotsOfPath(path);
  }

  lemma {:induction false} TidyMeaning(entries: seq<Entry>)
    requires Valid(JObject(entries)) && Tidy(Object(DenoteEntries(entries)))
    ensures DotFreeKeys(entries) && NoEmptyObjects(entries)
  {
    DenoteEntriesAt(entries);
    forall e | e in entries
      ensures DotFree(e.key)
      ensures e.value.JObject? ==>
                e.value.entries != [] && DotFreeKeys(e.value.entries) && NoEmptyObjects(e.value.entries)
    {
      var i :| 0 <= i < |entries| && entries[i] == e;
      assert DenoteEntries(entries)[e.key] == Denote(e.value);
      match e.value
      case JObject(nested) => TidyMeaning(nested);
      case _ =>
    }
  }

  /** Reading the flat map back, in whatever order its keys are listed, by splitting them at
      their dots and inserting the values: it gives the object again exactly when no key has a
      dot and no nested object is empty. */
  lemma {:induction false} FlattenRoundTrips(prefix: string, entries: seq<Entry>, keys: seq<string>)
    requires Valid(JObject(entries)) && Enumerates(keys, Put(map[], prefix, Leaves(entries)).Keys)
    ensures var listed := Listed(prefix, Put(map[], prefix, Leaves(entries)), keys);
            && (forall i | 0 <= i < |listed| :: TidyLeaf(listed[i]))
            && (InsertAll(map[], listed) == DenoteEntries(entries)
                <==> DotFreeKeys(entries) && NoEmptyObjects(entries))
  {
    var listed := Listed(prefix, Put(map[], prefix, Leaves(entries)), keys);
    ListedAreTidy(prefix, entries, keys);
    InsertAllIsTidy(listed);
    if DotFreeKeys(entries) && NoEmptyObjects(entries) {
      UnflattenInAnyOrder(prefix, entries, keys);
    } else if InsertAll(map[], listed) == DenoteEntries(entries) {
      TidyMeaning(entries);
      assert false;
    }
  }
}
