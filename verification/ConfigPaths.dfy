// Nested configuration maps written path by path (crates/arky-config/src/loader.rs).

/** Reading and inserting along key paths. */
module NestedMaps {
  import opened Prelude
  import opened JsonValues

  type Path = seq<string>

  function Get(v: Value, path: Path): Option<Value> {
    if path == [] then Some(v)
    else if v.Object? && path[0] in v.fields then Get(v.fields[path[0]], path[1..])
    else None
  }

  /** `ensure_object` on the entry for a key, absent or not. */
  function ObjectAt(fields: map<string, Value>, key: string): map<string, Value> {
    if key in fields && fields[key].Object? then fields[key].fields else map[]
  }

  /** `insert_path_value`: whatever is in the way of the path becomes an object. */
  function Insert(fields: map<string, Value>, path: Path, value: Value): map<string, Value>
    requires path != []
    decreases |path|
  {
    if |path| == 1 then fields[path[0] := value]
    else fields[path[0] := Object(Insert(ObjectAt(fields, path[0]), path[1..], value))]
  }

  predicate Comparable(p: Path, q: Path) {
    p <= q || q <= p
  }

  lemma {:induction false} GetInsideObject(fields: map<string, Value>, path: Path)
    requires path != []
    ensures Get(Object(fields), path)
         == if |path| == 1 then if path[0] in fields then Some(fields[path[0]]) else None
            else Get(Object(ObjectAt(fields, path[0])), path[1..])
  {}

  /** Reading a path just inserted returns the inserted value. */
  lemma {:induction false} GetInserted(fields: map<string, Value>, path: Path, value: Value)
    requires path != []
    ensures Get(Object(Insert(fields, path, value)), path) == Some(value)
    decreases |path|
  {
    GetInsideObject(Insert(fields, path, value), path);
    if |path| > 1 {
      GetInserted(ObjectAt(fields, path[0]), path[1..], value);
    }
  }

  lemma {:induction false} TailsIncomparable(p: Path, q: Path)
    requires p != [] && q != [] && p[0] == q[0]
    ensures Comparable(p, q) <==> Comparable(p[1..], q[1..])
    ensures p <= q <==> p[1..] <= q[1..]
  {}

  /** Reading any path incomparable with an inserted one is unchanged. */
  lemma {:induction false} GetElsewhere(fields: map<string, Value>, path: Path, value: Value, other: Path)
    requires path != [] && !Comparable(path, other)
    ensures Get(Object(Insert(fields, path, value)), other) == Get(Object(fields), other)
    decreases |path|
  {
    GetInsideObject(Insert(fields, path, value), other);
    GetInsideObject(fields, other);
    if path[0] == other[0] {
      TailsIncomparable(path, other);
      GetElsewhere(ObjectAt(fields, path[0]), path[1..], value, other[1..]);
    }
  }

  /** What an insertion puts under its first key. */
  function Under(fields: map<string, Value>, path: Path, value: Value): Value
    requires path != []
  {
    if |path| == 1 then value else Object(Insert(ObjectAt(fields, path[0]), path[1..], value))
  }

  lemma {:induction false} InsertIsUpdate(fields: map<string, Value>, path: Path, value: Value)
    requires path != []
    ensures Insert(fields, path, value) == fields[path[0] := Under(fields, path, value)]
  {}

  /** An insertion under one key does not see the others. */
  lemma {:induction false} UnderIsLocal(fields: map<string, Value>, path: Path, value: Value, key: string, other: Value)
    requires path != [] && path[0] != key
    ensures Under(fields[key := other], path, value) == Under(fields, path, value)
  {}

  lemma {:induction false} DistinctKeysCommute(fields: map<string, Value>, p: Path, v: Value, q: Path, w: Value)
    requires p != [] && q != [] && p[0] != q[0]
    ensures Insert(Insert(fields, p, v), q, w) == Insert(Insert(fields, q, w), p, v)
  {
    var x, y := Under(fields, p, v), Under(fields, q, w);
    InsertIsUpdate(fields, p, v);
    InsertIsUpdate(fields, q, w);
    InsertIsUpdate(fields[p[0] := x], q, w);
    InsertIsUpdate(fields[q[0] := y], p, v);
    UnderIsLocal(fields, q, w, p[0], x);
    UnderIsLocal(fields, p, v, q[0], y);
  }

  lemma {:induction false} TwiceUnderOneKey(fields: map<string, Value>, p: Path, v: Value, q: Path, w: Value)
    requires |p| > 1 && |q| > 1 && p[0] == q[0]
    ensures Insert(Insert(fields, p, v), q, w)
         == fields[p[0] := Object(Insert(Insert(ObjectAt(fields, p[0]), p[1..], v), q[1..], w))]
  {}

  /** Insertions along incomparable paths commute. */
  lemma {:induction false} IncomparableCommute(fields: map<string, Value>, p: Path, v: Value, q: Path, w: Value)
    requires p != [] && q != [] && !Comparable(p, q)
    ensures Insert(Insert(fields, p, v), q, w) == Insert(Insert(fields, q, w), p, v)
    decreases |p|
  {
    if p[0] == q[0] {
      TailsIncomparable(p, q);
      IncomparableCommute(ObjectAt(fields, p[0]), p[1..], v, q[1..], w);
      TwiceUnderOneKey(fields, p, v, q, w);
      TwiceUnderOneKey(fields, q, w, p, v);
    } else {
      DistinctKeysCommute(fields, p, v, q, w);
    }
  }

  /** Inserting what is already there changes nothing, and changes something otherwise. */
  lemma {:induction false} InsertIsIdleExactlyWhenPresent(fields: map<string, Value>, path: Path, value: Value)
    requires path != []
    ensures Insert(fields, path, value) == fields <==> Get(Object(fields), path) == Some(value)
    decreases |path|
  {
    GetInserted(fields, path, value);
    GetInsideObject(fields, path);
    if |path| == 1 {
      if path[0] in fields && fields[path[0]] == value {
        assert fields[path[0] := value] == fields;
      }
    } else {
      var inside := ObjectAt(fields, path[0]);
      InsertIsIdleExactlyWhenPresent(inside, path[1..], value);
      if Get(Object(fields), path) == Some(value) {
        EmptyHasNothing(path[1..]);
        assert path[0] in fields && fields[path[0]] == Object(inside);
        assert fields[path[0] := Object(inside)] == fields;
      }
    }
  }

  lemma {:induction false} EmptyHasNothing(path: Path)
    requires path != []
    ensures Get(Object(map[]), path) == None
  {}

  /** A shorter path inserted last wins; inserted first, the longer one is written into it. */
  lemma {:induction false} PrefixOrder(fields: map<string, Value>, p: Path, v: Value, q: Path, w: Value)
    requires p != [] && p <= q
    ensures Insert(Insert(fields, q, w), p, v) == Insert(fields, p, v)
    ensures Insert(Insert(fields, p, v), q, w) == Insert(fields, p, v) <==> Get(v, q[|p|..]) == Some(w)
    decreases |p|
  {
    var k := p[0];
    assert q[0] == k;
    InsertIsIdleExactlyWhenPresent(Insert(fields, p, v), q, w);
    GetBelow(Insert(fields, p, v), p, q[|p|..]);
    GetInserted(fields, p, v);
    assert p + q[|p|..] == q;
    if |p| == 1 {
      assert Insert(Insert(fields, q, w), p, v) == Insert(fields, p, v);
    } else {
      TailsIncomparable(p, q);
      PrefixOrder(ObjectAt(fields, k), p[1..], v, q[1..], w);
      assert ObjectAt(Insert(fields, q, w), k) == Insert(ObjectAt(fields, k), q[1..], w);
      assert Insert(Insert(fields, q, w), p, v) == Insert(fields, p, v);
    }
  }

  lemma {:induction false} GetBelow(fields: map<string, Value>, p: Path, rest: Path)
    requires p != []
    ensures Get(Object(fields), p + rest) == match Get(Object(fields), p) case Some(v) => Get(v, rest) case None => None
    decreases |p|
  {
    GetInsideObject(fields, p);
    GetInsideObject(fields, p + rest);
    assert (p + rest)[1..] == p[1..] + rest;
    if |p| > 1 {
      GetBelow(ObjectAt(fields, p[0]), p[1..], rest);
    } else {
      assert (p + rest)[1..] == rest;
      if p[0] in fields && rest != [] && !fields[p[0]].Object? {
        EmptyHasNothing(rest);
      } else if p[0] !in fields && rest != [] {
        EmptyHasNothing(rest);
      }
    }
  }

  /** Two insertions commute exactly when their paths are incomparable, or when the longer
      one's value is already in the shorter one's. */
  lemma {:induction false} CommuteExactly(fields: map<string, Value>, p: Path, v: Value, q: Path, w: Value)
    requires p != [] && q != []
    ensures Insert(Insert(fields, p, v), q, w) == Insert(Insert(fields, q, w), p, v)
            <==> !Comparable(p, q)
                 || (p <= q && Get(v, q[|p|..]) == Some(w))
                 || (q <= p && Get(w, p[|q|..]) == Some(v))
  {
    if !Comparable(p, q) {
      IncomparableCommute(fields, p, v, q, w);
    } else if p <= q {
      PrefixOrder(fields, p, v, q, w);
    } else {
      PrefixOrder(fields, q, w, p, v);
    }
  }

  datatype Leaf = Leaf(path: Path, value: Value)

  predicate Insertable(leaves: seq<Leaf>) {
    && (forall i | 0 <= i < |leaves| :: leaves[i].path != [])
    && forall i, j | 0 <= i < j < |leaves| :: !Comparable(leaves[i].path, leaves[j].path)
  }

  function InsertAll(fields: map<string, Value>, leaves: seq<Leaf>): map<string, Value>
    requires forall i | 0 <= i < |leaves| :: leaves[i].path != []
  {
    if leaves == [] then fields
    else
      var last := leaves[|leaves| - 1];
      Insert(InsertAll(fields, leaves[..|leaves| - 1]), last.path, last.value)
  }

  function Without(leaves: seq<Leaf>, i: nat): (r: seq<Leaf>)
    requires i < |leaves|
    ensures |r| == |leaves| - 1 && forall j | 0 <= j < |r| :: r[j] == leaves[if j < i then j else j + 1]
  {
    leaves[..i] + leaves[i + 1..]
  }

  lemma {:induction false} InsertAllSnoc(fields: map<string, Value>, leaves: seq<Leaf>, last: Leaf)
    requires last.path != [] && forall i | 0 <= i < |leaves| :: leaves[i].path != []
    ensures InsertAll(fields, leaves + [last]) == Insert(InsertAll(fields, leaves), last.path, last.value)
  {}

  /** An insertion can be postponed to the end. */
  lemma {:induction false} Postpone(fields: map<string, Value>, leaves: seq<Leaf>, i: nat)
    requires Insertable(leaves) && i < |leaves|
    ensures InsertAll(fields, leaves) == Insert(InsertAll(fields, Without(leaves, i)), leaves[i].path, leaves[i].value)
    decreases |leaves|
  {
    var n := |leaves| - 1;
    var front, last := leaves[..n], leaves[n];
    assert leaves == front + [last];
    InsertAllSnoc(fields, front, last);
    if i == n {
      assert Without(leaves, i) == front;
    } else {
      Postpone(fields, front, i);
      assert Without(leaves, i) == Without(front, i) + [last];
      PostponeOne(fields, Without(front, i), leaves[i], last);
    }
  }

  lemma {:induction false} PostponeOne(fields: map<string, Value>, others: seq<Leaf>, moved: Leaf, last: Leaf)
    requires forall i | 0 <= i < |others| :: others[i].path != []
    requires moved.path != [] && last.path != [] && !Comparable(moved.path, last.path)
    ensures Insert(Insert(InsertAll(fields, others), moved.path, moved.value), last.path, last.value)
         == Insert(InsertAll(fields, others + [last]), moved.path, moved.value)
  {
    InsertAllSnoc(fields, others, last);
    IncomparableCommute(InsertAll(fields, others), moved.path, moved.value, last.path, last.value);
  }

  lemma {:induction false} TwiceInMultiset(a: seq<Leaf>, i: nat, j: nat)
    requires i < j < |a| && a[i] == a[j]
    ensures multiset(a)[a[i]] >= 2
  {
    assert a == (a[..i] + [a[i]]) + (a[i + 1..j] + ([a[j]] + a[j + 1..]));
  }

  lemma {:induction false} LastIsNew(a: seq<Leaf>)
    requires Insertable(a) && a != []
    ensures a[|a| - 1] !in a[..|a| - 1]
  {}

  lemma {:induction false} OnceInMultiset(a: seq<Leaf>, x: Leaf)
    requires Insertable(a)
    ensures multiset(a)[x] <= 1
  {
    if a != [] {
      var front, last := a[..|a| - 1], a[|a| - 1];
      assert a == front + [last];
      OnceInMultiset(front, x);
      LastIsNew(a);
    }
  }

  /** Incomparability does not depend on the order. */
  lemma {:induction false} InsertableReordered(a: seq<Leaf>, b: seq<Leaf>)
    requires Insertable(a) && multiset(a) == multiset(b)
    ensures Insertable(b)
  {
    forall i | 0 <= i < |b| ensures b[i] in a {
      assert b[i] in multiset(b);
    }
    forall i, j | 0 <= i < j < |b| ensures !Comparable(b[i].path, b[j].path) {
      OnceInMultiset(a, b[i]);
      if b[i] == b[j] {
        TwiceInMultiset(b, i, j);
      }
      var k :| 0 <= k < |a| && a[k] == b[i];
      var l :| 0 <= l < |a| && a[l] == b[j];
      assert k != l;
    }
  }

  lemma {:induction false} MultisetWithout(a: seq<Leaf>, i: nat)
    requires i < |a|
    ensures multiset(Without(a, i)) == multiset(a) - multiset{a[i]}
  {
    assert a == a[..i] + ([a[i]] + a[i + 1..]);
    assert Without(a, i) == a[..i] + a[i + 1..];
  }

  lemma {:induction false} SameWithout(a: seq<Leaf>, b: seq<Leaf>, i: nat)
    requires b != [] && i < |a| && a[i] == b[|b| - 1] && multiset(a) == multiset(b)
    ensures multiset(Without(a, i)) == multiset(b[..|b| - 1])
  {
    MultisetWithout(a, i);
    MultisetWithout(b, |b| - 1);
    assert Without(b, |b| - 1) == b[..|b| - 1];
  }

  /** Inserting pairwise incomparable paths gives the same tree in every order. */
  lemma {:induction false} InsertionOrderDoesNotMatter(fields: map<string, Value>, a: seq<Leaf>, b: seq<Leaf>)
    requires Insertable(a) && multiset(a) == multiset(b)
    ensures Insertable(b)
    ensures InsertAll(fields, a) == InsertAll(fields, b)
    decreases |b|
  {
    InsertableReordered(a, b);
    if b == [] {
      assert |multiset(a)| == 0;
    } else {
      var last := b[|b| - 1];
      assert last in multiset(b);
      var i :| 0 <= i < |a| && a[i] == last;
      Postpone(fields, a, i);
      SameWithout(a, b, i);
      InsertionOrderDoesNotMatter(fields, Without(a, i), b[..|b| - 1]);
    }
  }
}

/** Overrides from environment variables. */
module EnvOverrides {
  import opened Prelude
  import opened JsonValues
  import opened NestedMaps

  function Lower(c: char): char {
    if 'A' <= c <= 'Z' then (c as int + 32) as char else c
  }

  function ToLower(s: string): string {
    seq(|s|, i requires 0 <= i < |s| => Lower(s[i]))
  }

  /** `split("__")`, with `segment` read so far and not yet closed. */
  function SplitFrom(segment: string, rest: string): seq<string>
    decreases |rest|
  {
    if rest == "" then [segment]
    else if |rest| >= 2 && rest[0] == '_' && rest[1] == '_' then [segment] + SplitFrom("", rest[2..])
    else SplitFrom(segment + [rest[0]], rest[1..])
  }

  function NonEmpty(segments: seq<string>): (r: seq<string>)
    ensures forall i | 0 <= i < |r| :: r[i] != ""
  {
    if segments == [] then []
    else (if segments[0] == "" then [] else [segments[0]]) + NonEmpty(segments[1..])
  }

  function Join(segments: seq<string>): string {
    if segments == [] then ""
    else if |segments| == 1 then segments[0]
    else segments[0] + "__" + Join(segments[1..])
  }

  /** Lower-cased segments, except that everything after an `env` segment is one raw name. */
  function Normalized(raw: seq<string>): Path {
    if raw == [] then []
    else if ToLower(raw[0]) == "env" && |raw| > 1 then ["env", Join(raw[1..])]
    else [ToLower(raw[0])] + Normalized(raw[1..])
  }

  function NormalizeEnvPath(key: string): Path {
    Normalized(NonEmpty(SplitFrom("", key)))
  }

  lemma {:induction false} OneSegmentMore(raw: seq<string>, index: nat)
    requires index < |raw|
    ensures Normalized(raw[index..])
         == if ToLower(raw[index]) == "env" && index + 1 < |raw| then ["env", Join(raw[index + 1..])]
            else [ToLower(raw[index])] + Normalized(raw[index + 1..])
  {
    assert raw[index..][1..] == raw[index + 1..];
  }

  predicate EndsInEnv(segments: Path) {
    segments != [] && segments[|segments| - 1] == "env"
  }

  /** The loop of `normalize_env_path`. */
  method NormalizeSegments(raw: seq<string>) returns (segments: Path)
    ensures segments == Normalized(raw)
  {
    segments := [];
    var index := 0;
    assert raw[0..] == raw;
    while index < |raw|
      invariant 0 <= index <= |raw|
      invariant Normalized(raw) == segments + if EndsInEnv(segments) && index < |raw| then [Join(raw[index..])]
                                              else Normalized(raw[index..])
    {
      if EndsInEnv(segments) {
        segments := segments + [Join(raw[index..])];
        return;
      }
      OneSegmentMore(raw, index);
      ghost var before := segments;
      segments := segments + [ToLower(raw[index])];
      index := index + 1;
      Regrouped(before, segments[|before|], raw, index);
    }
  }

  lemma {:induction false} Regrouped(before: Path, segment: string, raw: seq<string>, index: nat)
    requires index <= |raw|
    ensures before + ([segment] + Normalized(raw[index..])) == (before + [segment]) + Normalized(raw[index..])
    ensures before + [segment, Join(raw[index..])] == (before + [segment]) + [Join(raw[index..])]
  {}

  /** The variables that name a path under the prefix, with their values read. */
  function LeavesOf(prefix: string, vars_: seq<(string, string)>, read: string -> Value): seq<Leaf> {
    if vars_ == [] then []
    else
      var (key, raw) := vars_[|vars_| - 1];
      LeavesOf(prefix, vars_[..|vars_| - 1], read)
      + if prefix <= key && NormalizeEnvPath(key[|prefix|..]) != []
        then [Leaf(NormalizeEnvPath(key[|prefix|..]), read(raw))] else []
  }

  lemma {:induction false} LeavesHavePaths(prefix: string, vars_: seq<(string, string)>, read: string -> Value)
    ensures forall i | 0 <= i < |LeavesOf(prefix, vars_, read)| :: LeavesOf(prefix, vars_, read)[i].path != []
  {
    if vars_ != [] {
      LeavesHavePaths(prefix, vars_[..|vars_| - 1], read);
    }
  }

  /** The loop of `load_env_overrides`; `read` reads a value as JSON or else as text. */
  method LoadEnvOverrides(prefix: string, overrides: seq<(string, string)>, read: string -> Value)
    returns (root: map<string, Value>)
    ensures forall i | 0 <= i < |LeavesOf(prefix + "_", overrides, read)| :: LeavesOf(prefix + "_", overrides,
        read)[i].path != []
    ensures root == InsertAll(map[], LeavesOf(prefix + "_", overrides, read))
  {
    var stem := prefix + "_";
    root := map[];
    var i := 0;
    LeavesHavePaths(stem, overrides, read);
    while i < |overrides|
      invariant 0 <= i <= |overrides|
      invariant forall j | 0 <= j < |LeavesOf(stem, overrides[..i], read)| :: LeavesOf(stem, overrides[..i],
          read)[j].path != []
      invariant root == InsertAll(map[], LeavesOf(stem, overrides[..i], read))
    {
      var (key, raw) := overrides[i];
      assert overrides[..i + 1][..i] == overrides[..i];
      LeavesHavePaths(stem, overrides[..i + 1], read);
      if stem <= key {
        var segments := NormalizeSegments(NonEmpty(SplitFrom("", key[|stem|..])));
        if segments != [] {
          InsertAllSnoc(map[], LeavesOf(stem, overrides[..i], read), Leaf(segments, read(raw)));
          root := Insert(root, segments, read(raw));
        } else {
          assert LeavesOf(stem, overrides[..i], read) + [] == LeavesOf(stem, overrides[..i], read);
        }
      } else {
        assert LeavesOf(stem, overrides[..i], read) + [] == LeavesOf(stem, overrides[..i], read);
      }
      i := i + 1;
    }
    assert overrides[..i] == overrides;
  }

  lemma {:induction false} LeavesConcat(prefix: string, a: seq<(string, string)>, b: seq<(string, string)>,
          read: string -> Value)
    ensures LeavesOf(prefix, a + b, read) == LeavesOf(prefix, a, read) + LeavesOf(prefix, b, read)
    decreases |b|
  {
    if b == [] {
      assert a + b == a;
    } else {
      LeavesConcat(prefix, a, b[..|b| - 1], read);
      assert (a + b)[..|a + b| - 1] == a + b[..|b| - 1];
    }
  }

  lemma {:induction false} MultisetOfParts<T>(x: seq<T>, last: T, z: seq<T>, front: seq<T>)
    requires multiset(x + [last] + z) == multiset(front + [last])
    ensures multiset(x + z) == multiset(front)
  {
    assert multiset(x + [last] + z) == multiset(x + z) + multiset{last};
    assert multiset(front + [last]) == multiset(front) + multiset{last};
    assert multiset(x + z) == multiset(x + [last] + z) - multiset{last};
  }

  lemma {:induction false} MoveToEnd(prefix: string, x: seq<(string, string)>, last: (string, string),
          z: seq<(string, string)>, read: string -> Value)
    ensures multiset(LeavesOf(prefix, x + [last] + z, read))
         == multiset(LeavesOf(prefix, x + z, read)) + multiset(LeavesOf(prefix, [last], read))
  {
    LeavesConcat(prefix, x + [last], z, read);
    LeavesConcat(prefix, x, [last], read);
    LeavesConcat(prefix, x, z, read);
  }

  /** The leaves of a reordering are a reordering of the leaves. */
  lemma {:induction false} SameVariablesSameLeaves(prefix: string, a: seq<(string, string)>, b: seq<(string, string)>,
          read: string -> Value)
    requires multiset(a) == multiset(b)
    ensures multiset(LeavesOf(prefix, a, read)) == multiset(LeavesOf(prefix, b, read))
    decreases |b|
  {
    if b == [] {
      assert |multiset(a)| == 0;
    } else {
      var front, last := b[..|b| - 1], b[|b| - 1];
      assert last in multiset(b);
      var i :| 0 <= i < |a| && a[i] == last;
      var x, z := a[..i], a[i + 1..];
      assert a == x + [last] + z && b == front + [last];
      MultisetOfParts(x, last, z, front);
      SameVariablesSameLeaves(prefix, x + z, front, read);
      MoveToEnd(prefix, x, last, z, read);
      LeavesConcat(prefix, front, [last], read);
    }
  }

  /** Variables whose paths are pairwise incomparable give the same overrides in whatever
      order the environment lists them. */
  lemma {:induction false} EnvironmentOrderDoesNotMatter(prefix: string, a: seq<(string, string)>,
          b: seq<(string, string)>, read: string -> Value)
    requires multiset(a) == multiset(b)
    requires Insertable(LeavesOf(prefix, a, read))
    ensures Insertable(LeavesOf(prefix, b, read))
    ensures InsertAll(map[], LeavesOf(prefix, a, read)) == InsertAll(map[], LeavesOf(prefix, b, read))
  {
    SameVariablesSameLeaves(prefix, a, b, read);
    InsertableReordered(LeavesOf(prefix, a, read), LeavesOf(prefix, b, read));
    InsertionOrderDoesNotMatter(map[], LeavesOf(prefix, a, read), LeavesOf(prefix, b, read));
  }

  lemma {:induction false} PathsOfTwo()
    ensures NormalizeEnvPath("A") == ["a"] && NormalizeEnvPath("A__B") == ["a", "b"]
  {
    assert "A__B"[1..] == "__B" && "" + ['A'] == "A" && "__B"[2..] == "B" && "B"[1..] == "" && "" + ['B'] == "B";
    assert SplitFrom("", "B") == ["B"] && SplitFrom("A", "__B") == ["A"] + ["B"];
    assert SplitFrom("", "A__B") == ["A", "B"] && SplitFrom("", "A") == ["A"];
    assert NonEmpty(["A"][1..]) == [] && NonEmpty(["B"]) == ["B"] && ["A", "B"][1..] == ["B"];
    assert ToLower("A") == "a" && ToLower("B") == "b";
    assert Normalized(["B"]) == ["b"];
  }

  lemma {:induction false} OneLeaf(key: string, raw: string, read: string -> Value)
    requires NormalizeEnvPath(key) != []
    ensures LeavesOf("X_", [("X_" + key, raw)], read) == [Leaf(NormalizeEnvPath(key), read(raw))]
  {
    assert [("X_" + key, raw)][..0] == [] && ("X_" + key)[|"X_"|..] == key;
  }

  /** A variable and one inside it: which comes last decides whether the inner one is kept. */
  lemma {:induction false} OrderCanMatter(read: string -> Value)
    requires read("text") == String("text")
    ensures var outer, inner := Leaf(["a"], String("text")), Leaf(["a", "b"], read("1"));
            && LeavesOf("X_", [("X_A", "text")] + [("X_A__B", "1")], read) == [outer] + [inner]
            && LeavesOf("X_", [("X_A__B", "1")] + [("X_A", "text")], read) == [inner] + [outer]
            && InsertAll(map[], [outer] + [inner]) != InsertAll(map[], [inner] + [outer])
  {
    PathsOfTwo();
    assert "X_" + "A" == "X_A" && "X_" + "A__B" == "X_A__B";
    OneLeaf("A", "text", read);
    OneLeaf("A__B", "1", read);
    LeavesConcat("X_", [("X_A", "text")], [("X_A__B", "1")], read);
    LeavesConcat("X_", [("X_A__B", "1")], [("X_A", "text")], read);
    OuterAndInner(String("text"), read("1"));
  }

  lemma {:induction false} InsertOne(fields: map<string, Value>, first: Leaf)
    requires first.path != []
    ensures InsertAll(fields, [first]) == Insert(fields, first.path, first.value)
  {
    assert [first][..0] == [] && InsertAll(fields, []) == fields;
  }

  lemma {:induction false} OuterAndInner(v: Value, w: Value)
    requires !v.Object?
    ensures InsertAll(map[], [Leaf(["a"], v)] + [Leaf(["a", "b"], w)])
         != InsertAll(map[], [Leaf(["a", "b"], w)] + [Leaf(["a"], v)])
  {
    CommuteExactly(map[], ["a"], v, ["a", "b"], w);
    assert ["a"] <= ["a", "b"] && Get(v, ["a", "b"][1..]) == None && !(["a", "b"] <= ["a"]);
    InsertOne(map[], Leaf(["a"], v));
    InsertOne(map[], Leaf(["a", "b"], w));
    InsertAllSnoc(map[], [Leaf(["a"], v)], Leaf(["a", "b"], w));
    InsertAllSnoc(map[], [Leaf(["a", "b"], w)], Leaf(["a"], v));
  }
}
