/**
 The diff and merge of the config store's patch protocol, over JSON-like values: structural
 equality, the top-level-key difference of two documents, and applying patch operations.
 */
module StorePatch {
  import opened Options

  datatype Json =
    | Null
    | Bool(b: bool)
    | Number(n: real)
    | Text(s: string)
    | Array(items: seq<Json>)
    | Object(fields: map<string, Json>)

  datatype PatchOp = Set(key: string, value: Json) | Remove(key: string) | Replace(document: Json)

  /** The names every plain object answers to without owning them. A membership test on an
      object sees them; enumerating its keys does not. Their values are functions, which no
      JSON value equals. */
  const INHERITED: set<string> := {
    "constructor", "hasOwnProperty", "isPrototypeOf", "propertyIsEnumerable", "toLocaleString", "toString", "valueOf",
    "__defineGetter__", "__defineSetter__", "__lookupGetter__", "__lookupSetter__"
  }

  /** The source's membership test. */
  predicate Has(fields: map<string, Json>, key: string) {
    key in fields || key in INHERITED
  }

  // ---- equality ----

  /** Structural equality, element by element and key by key, is equality. */
  method DeepEqual(a: Json, b: Json) returns (same: bool)
    ensures same <==> a == b
    decreases a
  {
    if a.Array? || b.Array? {
      if !a.Array? || !b.Array? || |a.items| != |b.items| {
        return false;
      }
      for i := 0 to |a.items|
        invariant a.items[..i] == b.items[..i]
      {
        var eq := DeepEqual(a.items[i], b.items[i]);
        if !eq {
          return false;
        }
      }
      return true;
    }
    if a.Object? && b.Object? {
      if |a.fields| != |b.fields| {
        return false;
      }
      var keys := a.fields.Keys;
      while keys != {}
        invariant keys <= a.fields.Keys
        invariant forall k :: k in a.fields.Keys - keys ==> k in b.fields && a.fields[k] == b.fields[k]
        decreases keys
      {
        var k :| k in keys;
        // an inherited name passes the test, but its function equals no JSON value
        if !Has(b.fields, k) || k !in b.fields {
          return false;
        }
        var eq := DeepEqual(a.fields[k], b.fields[k]);
        if !eq {
          return false;
        }
        keys := keys - {k};
      }
      SameSize(a.fields.Keys, b.fields.Keys);
      return true;
    }
    return a == b;
  }

  lemma SameSize(x: set<string>, y: set<string>)
    requires x <= y && |x| == |y|
    ensures x == y
  {
    assert y == x + (y - x);
    assert |y| == |x| + |y - x|;
  }

  // ---- applying operations ----

  function ApplyOp(base: Json, op: PatchOp): Json {
    if op.Replace? then op.document
    else
      var fields := if base.Object? then base.fields else map[];
      Object(if op.Set? then fields[op.key := op.value] else fields - {op.key})
  }

  function ApplyOps(current: Json, ops: seq<PatchOp>): Json {
    if ops == [] then current else ApplyOp(ApplyOps(current, ops[..|ops| - 1]), ops[|ops| - 1])
  }

  method ApplyPatch(current: Json, ops: seq<PatchOp>) returns (base: Json)
    ensures base == ApplyOps(current, ops)
  {
    base := current;
    for i := 0 to |ops|
      invariant base == ApplyOps(current, ops[..i])
    {
      assert ops[..i + 1][..i] == ops[..i];
      if ops[i].Replace? {
        base := ops[i].document;
      } else {
        if !base.Object? {
          base := Object(map[]);
        }
        base := if ops[i].Set? then Object(base.fields[ops[i].key := ops[i].value])
                else Object(base.fields - {ops[i].key});
      }
    }
    assert ops[..|ops|] == ops;
  }

  lemma {:induction false} ApplyAppend(d: Json, a: seq<PatchOp>, b: seq<PatchOp>)
    ensures ApplyOps(d, a + b) == ApplyOps(ApplyOps(d, a), b)
  {
    if b == [] {
      assert a + b == a;
    } else {
      ApplyAppend(d, a, b[..|b| - 1]);
      assert (a + b)[..|a + b| - 1] == a + b[..|b| - 1];
    }
  }

  // ---- key patches ----

  function Lookup(d: Json, key: string): Option<Json> {
    if d.Object? && key in d.fields then Some(d.fields[key]) else None
  }

  predicate KeyOps(ops: seq<PatchOp>) {
    forall i :: 0 <= i < |ops| ==> !ops[i].Replace?
  }

  /** What a key patch does to one key: its last word about it. */
  function OnKey(v: Option<Json>, ops: seq<PatchOp>, key: string): Option<Json>
    requires KeyOps(ops)
  {
    if ops == [] then v
    else
      var op := ops[|ops| - 1];
      if op.key != key then OnKey(v, ops[..|ops| - 1], key) else if op.Set? then Some(op.value) else None
  }

  predicate Mentions(ops: seq<PatchOp>, key: string)
    requires KeyOps(ops)
  {
    exists i :: 0 <= i < |ops| && ops[i].key == key
  }

  /** A key patch is a key-by-key rewrite: what it leaves at a key depends on that key alone. */
  lemma {:induction false} PatchByKey(d: Json, ops: seq<PatchOp>, key: string)
    requires KeyOps(ops)
    ensures Lookup(ApplyOps(d, ops), key) == OnKey(Lookup(d, key), ops, key)
    ensures ops != [] ==> ApplyOps(d, ops).Object?
  {
    if ops != [] {
      PatchByKey(d, ops[..|ops| - 1], key);
    }
  }

  lemma {:induction false} UnmentionedKey(v: Option<Json>, ops: seq<PatchOp>, key: string)
    requires KeyOps(ops) && !Mentions(ops, key)
    ensures OnKey(v, ops, key) == v
  {
    if ops != [] {
      assert ops[|ops| - 1].key != key;
      assert forall i :: 0 <= i < |ops| - 1 ==> ops[..|ops| - 1][i] == ops[i];
      UnmentionedKey(v, ops[..|ops| - 1], key);
    }
  }

  lemma SameLookups(a: Json, b: Json)
    requires a.Object? && b.Object? && forall k :: Lookup(a, k) == Lookup(b, k)
    ensures a == b
  {
    forall k ensures k in a.fields <==> k in b.fields
             ensures k in a.fields ==> a.fields[k] == b.fields[k] {
      assert Lookup(a, k) == Lookup(b, k);
    }
    assert a.fields == b.fields;
  }

  /** Patches that mention no common key commute on any document. */
  lemma DisjointPatchesCommute(d: Json, a: seq<PatchOp>, b: seq<PatchOp>)
    requires KeyOps(a) && KeyOps(b) && forall k :: !(Mentions(a, k) && Mentions(b, k))
    ensures ApplyOps(ApplyOps(d, a), b) == ApplyOps(ApplyOps(d, b), a)
  {
    if a != [] && b != [] {
      forall k ensures Lookup(ApplyOps(ApplyOps(d, a), b), k) == Lookup(ApplyOps(ApplyOps(d, b), a), k) {
        PatchByKey(d, a, k);
        PatchByKey(ApplyOps(d, a), b, k);
        PatchByKey(d, b, k);
        PatchByKey(ApplyOps(d, b), a, k);
        if !Mentions(a, k) {
          UnmentionedKey(Lookup(d, k), a, k);
          UnmentionedKey(Lookup(ApplyOps(d, b), k), a, k);
        } else {
          UnmentionedKey(Lookup(d, k), b, k);
          UnmentionedKey(Lookup(ApplyOps(d, a), k), b, k);
        }
      }
      PatchByKey(ApplyOps(d, a), b, "");
      PatchByKey(ApplyOps(d, b), a, "");
      SameLookups(ApplyOps(ApplyOps(d, a), b), ApplyOps(ApplyOps(d, b), a));
    }
  }

  // ---- the difference ----

  /** The keys a difference reports: those whose value differs, except a removed key that the
      new object still answers to. */
  predicate Reported(next: map<string, Json>, prev: map<string, Json>, k: string) {
    Lookup(Object(next), k) != Lookup(Object(prev), k) && (k in next || k !in INHERITED)
  }

  /** ops says of every reported key what it is in next, once, and nothing else. */
  ghost predicate IsKeyDiff(next: map<string, Json>, prev: map<string, Json>, ops: seq<PatchOp>) {
    DiffSoFar(next, prev, ops, next.Keys + prev.Keys)
  }

  /** A document pair gets a key difference when both are plain objects, and otherwise a whole
      replacement exactly when they differ. */
  ghost predicate IsDiff(next: Json, prev: Json, ops: seq<PatchOp>) {
    if next.Object? && prev.Object? then IsKeyDiff(next.fields, prev.fields, ops)
    else ops == if next == prev then [] else [Replace(next)]
  }

  method DiffKeys(next: Json, prev: Json) returns (ops: seq<PatchOp>)
    ensures IsDiff(next, prev, ops)
  {
    if !next.Object? || !prev.Object? {
      var same := DeepEqual(next, prev);
      return if same then [] else [Replace(next)];
    }
    ops := [];
    var keys := next.fields.Keys;
    while keys != {}
      invariant keys <= next.fields.Keys
      invariant DiffSoFar(next.fields, prev.fields, ops, next.fields.Keys - keys)
      decreases keys
    {
      var k :| k in keys;
      var changed := true;
      if Has(prev.fields, k) && k in prev.fields {
        var same := DeepEqual(next.fields[k], prev.fields[k]);
        changed := !same;
      }
      assert next.fields.Keys - (keys - {k}) == next.fields.Keys - keys + {k};
      if changed {
        ExtendDiff(next.fields, prev.fields, ops, next.fields.Keys - keys, k, Set(k, next.fields[k]));
        ops := ops + [Set(k, next.fields[k])];
      }
      keys := keys - {k};
    }
    keys := prev.fields.Keys;
    while keys != {}
      invariant keys <= prev.fields.Keys
      invariant DiffSoFar(next.fields, prev.fields, ops, next.fields.Keys + (prev.fields.Keys - keys))
      decreases keys
    {
      var k :| k in keys;
      ghost var seen := next.fields.Keys + (prev.fields.Keys - keys);
      assert next.fields.Keys + (prev.fields.Keys - (keys - {k})) == seen + {k};
      if !Has(next.fields, k) {
        ExtendDiff(next.fields, prev.fields, ops, seen, k, Remove(k));
        ops := ops + [Remove(k)];
      } else if k in next.fields {
        assert seen + {k} == seen;
      }
      keys := keys - {k};
    }
  }

  /** The difference restricted to the keys looked at so far. */
  ghost predicate DiffSoFar(next: map<string, Json>, prev: map<string, Json>, ops: seq<PatchOp>, seen: set<string>) {
    && KeyOps(ops)
    && (forall i :: 0 <= i < |ops| ==>
          var k := ops[i].key;
          && k in seen
          && Reported(next, prev, k)
          && (ops[i].Set? <==> k in next)
          && (k in next ==> ops[i] == Set(k, next[k])))
    && (forall i, j :: 0 <= i < j < |ops| ==> ops[i].key != ops[j].key)
    && (forall k :: k in seen && Reported(next, prev, k) ==> Mentions(ops, k))
  }

  lemma ExtendDiff(next: map<string, Json>, prev: map<string, Json>, ops: seq<PatchOp>, seen: set<string>, k: string,
                   op: PatchOp)
    requires DiffSoFar(next, prev, ops, seen) && k !in seen && Reported(next, prev, k)
    requires op == if k in next then Set(k, next[k]) else Remove(k)
    ensures DiffSoFar(next, prev, ops + [op], seen + {k})
  {
    var out := ops + [op];
    assert out[|ops|].key == k;
    forall x | x in seen + {k} && Reported(next, prev, x) ensures Mentions(out, x) {
      if x != k {
        var i :| 0 <= i < |ops| && ops[i].key == x;
        assert out[i].key == x;
      }
    }
  }

  lemma {:induction false} DiffOnKey(v: Option<Json>, next: map<string, Json>, ops: seq<PatchOp>, key: string)
    requires KeyOps(ops) && Mentions(ops, key)
    requires forall i :: 0 <= i < |ops| ==>
                         ops[i] == if ops[i].key in next then Set(ops[i].key, next[ops[i].key]) else Remove(ops[i].key)
    ensures OnKey(v, ops, key) == Lookup(Object(next), key)
  {
    var n := |ops| - 1;
    if ops[n].key != key {
      var i :| 0 <= i < |ops| && ops[i].key == key;
      assert ops[..n][i].key == key;
      DiffOnKey(v, next, ops[..n], key);
    }
  }

  /** Applied to any document, a difference brings the reported keys to their new values and
      leaves every other key of that document alone. */
  lemma DiffMerges(current: Json, next: map<string, Json>, prev: map<string, Json>, ops: seq<PatchOp>, key: string)
    requires IsKeyDiff(next, prev, ops)
    ensures Lookup(ApplyOps(current, ops), key) ==
            if Reported(next, prev, key) then Lookup(Object(next), key) else Lookup(current, key)
  {
    PatchByKey(current, ops, key);
    if Mentions(ops, key) {
      DiffOnKey(Lookup(current, key), next, ops, key);
    } else {
      UnmentionedKey(Lookup(current, key), ops, key);
    }
  }

  /** No key was removed that objects inherit. */
  predicate Exact(next: Json, prev: Json) {
    next.Object? && prev.Object? ==> forall k :: k in prev.fields && k !in next.fields ==> k !in INHERITED
  }

  /** Applying the difference to the document it was taken against gives the new document
      exactly when no removed key is an inherited name. */
  lemma DiffRoundTrip(next: Json, prev: Json, ops: seq<PatchOp>)
    requires IsDiff(next, prev, ops)
    ensures ApplyOps(prev, ops) == next <==> Exact(next, prev)
  {
    if next.Object? && prev.Object? {
      forall k ensures Lookup(ApplyOps(prev, ops), k) ==
                       if Reported(next.fields, prev.fields, k) then Lookup(next, k) else Lookup(prev, k) {
        DiffMerges(prev, next.fields, prev.fields, ops, k);
      }
      PatchByKey(prev, ops, "");
      if Exact(next, prev) {
        SameLookups(ApplyOps(prev, ops), next);
      } else {
        var k :| k in prev.fields && k !in next.fields && k in INHERITED;
        assert Lookup(ApplyOps(prev, ops), k) == Lookup(prev, k) != Lookup(next, k);
      }
    } else if ops != [] {
      assert ops[..0] == [];
    }
  }

  /** A difference is empty exactly when nothing is to be reported; with no inherited name
      removed, exactly for a no-op edit. */
  lemma DiffEmpty(next: Json, prev: Json, ops: seq<PatchOp>)
    requires IsDiff(next, prev, ops)
    ensures next.Object? && prev.Object? ==> (ops == [] <==> forall k :: !Reported(next.fields, prev.fields, k))
    ensures Exact(next, prev) ==> (ops == [] <==> next == prev)
  {
    if next.Object? && prev.Object? {
      if ops == [] {
        assert forall k :: !Mentions(ops, k);
        assert forall k :: Reported(next.fields, prev.fields, k) ==> k in next.fields.Keys + prev.fields.Keys;
        if Exact(next, prev) {
          assert forall k :: Lookup(next, k) == Lookup(prev, k);
          SameLookups(next, prev);
        }
      } else {
        assert Reported(next.fields, prev.fields, ops[0].key);
      }
    }
  }

  /** A document that loses a key named as every object's own text conversion is not seen to lose it. */
  lemma LostNameUnseen(v: Json, ops: seq<PatchOp>)
    requires IsDiff(Object(map[]), Object(map["toString" := v]), ops)
    ensures ops == [] && ApplyOps(Object(map["toString" := v]), ops) != Object(map[])
  {
    var was: map<string, Json> := map["toString" := v];
    assert "toString" in was && "toString" in INHERITED;
    DiffEmpty(Object(map[]), Object(was), ops);
  }

  // ---- reconciling a tracked object ----

  /** An object brought to a value key by key: inherited names it had stay. */
  function Replaced(was: map<string, Json>, value: map<string, Json>): map<string, Json> {
    (map k | k in was && k in INHERITED :: was[k]) + value
  }

  /** The result is the value exactly when no inherited name is left over. */
  lemma ReplacedIff(was: map<string, Json>, value: map<string, Json>)
    ensures Replaced(was, value) == value <==> Exact(Object(value), Object(was))
  {
    forall k ensures k in Replaced(was, value) <==> k in value || (k in was && k in INHERITED) {
    }
    if Exact(Object(value), Object(was)) {
      assert Replaced(was, value) == value;
    }
  }

  /** An object callers keep a reference to: its fields are edited, it is never replaced. */
  class Tracked {
    var fields: map<string, Json>

    constructor (fields: map<string, Json>)
      ensures this.fields == fields
    {
      this.fields := fields;
    }

    /** Delete every key the value does not answer to; nothing answers to no key. */
    method DropStale(value: Option<map<string, Json>>)
      modifies this
      ensures fields == map k | k in old(fields) && value.Some? && Has(value.value, k) :: old(fields)[k]
    {
      ghost var was := fields;
      var keys := fields.Keys;
      while keys != {}
        invariant keys <= was.Keys && fields.Keys <= was.Keys
        invariant forall k :: k in was ==> (k in fields <==> k in keys || (value.Some? && Has(value.value, k)))
        invariant forall k :: k in fields ==> fields[k] == was[k]
        decreases keys
      {
        var k :| k in keys;
        if value.None? || !Has(value.value, k) {
          fields := fields - {k};
        }
        keys := keys - {k};
      }
    }

    /** Bring this object's keys and values to those of value; nothing means no keys. */
    method ReplaceInPlace(value: Option<map<string, Json>>)
      modifies this
      ensures fields == if value.Some? then Replaced(old(fields), value.value) else map[]
    {
      hide Has;
      ghost var was := fields;
      DropStale(value);
      if value.None? {
        return;
      }
      ghost var left := fields;
      var keys := value.value.Keys;
      while keys != {}
        invariant keys <= value.value.Keys && fields.Keys == left.Keys + (value.value.Keys - keys)
        invariant forall k :: k in fields ==>
                              fields[k] == if k in value.value.Keys - keys then value.value[k] else left[k]
        decreases keys
      {
        var k :| k in keys;
        fields := fields[k := value.value[k]];
        keys := keys - {k};
      }
      KeptOver(was, value.value);
    }
  }

  lemma KeptOver(was: map<string, Json>, value: map<string, Json>)
    ensures (map k | k in was && Has(value, k) :: was[k]) + value == Replaced(was, value)
  {
  }
}
