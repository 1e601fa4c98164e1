/**
 The store-schema migrations as the list of file operations they perform. A run is a list of
 tasks over the names of the store; each task looks at the store as it is then and writes at
 most one document and clears at most one. A crash cuts the list of operations anywhere.
 */
module Migrations {
  import opened Options
  import opened CalibrationRecords

  datatype Dir = Flat | Extrinsic | Intrinsic | Triples | Schema
  datatype Path = Path(dir: Dir, name: string)

  /** The shapes of document the migrations tell apart. */
  datatype Doc =
    | Dataset(data: seq<int>)
    | Calibration(fields: map<string, string>)
    | Record(record: CalibrationRecord)
    | Version(number: int)
    | Other(content: string)

  type Store = map<Path, Doc>

  datatype Op = Write(path: Path, doc: Doc) | Clear(path: Path)

  /** What the migrations get from outside: the content hash, the creation stamp of a legacy
      document (its date, its file time or the clock), and the order in which a directory
      lists its names. */
  datatype Env = Env(hash: Inner -> string, created: (Path, Doc) -> string, order: seq<string>)

  const SCHEMA_PATH := Path(Schema, "schema")

  function Apply(s: Store, op: Op): Store {
    match op
    case Write(p, d) => s[p := d]
    case Clear(p) => s - {p}
  }

  function ApplyAll(s: Store, ops: seq<Op>): Store
    decreases ops
  {
    if ops == [] then s else ApplyAll(Apply(s, ops[0]), ops[1..])
  }

  /** The version on disk; absent or unreadable means 0. */
  function VersionOf(s: Store): int {
    if SCHEMA_PATH in s && s[SCHEMA_PATH].Version? then s[SCHEMA_PATH].number else 0
  }

  // ---- tasks ----

  datatype Task =
    | WrapDataset(name: string)
    | Bump1
    | MoveFlat(name: string)
    | WrapCalibration(name: string)
    | ReKeyAssociations(dir: Dir, name: string)
    | ReKeyTriple(name: string)
    | Bump2

  function DirOf(inner: Inner): Dir {
    if inner.IntrinsicInner? then Intrinsic else Extrinsic
  }

  function LegacyExtrinsic(env: Env, name: string, d: Doc): CalibrationRecord
    requires d.Dataset?
  {
    var inner := ExtrinsicInner(d.data);
    CalibrationRecord(env.hash(inner), inner,
                      Outer(env.created(Path(Extrinsic, name), d), [Association(name, None, None)], ""))
  }

  function LegacyIntrinsic(env: Env, name: string, d: Doc): CalibrationRecord
    requires d.Calibration?
  {
    var inner := IntrinsicInner(d.fields - {"date"});
    CalibrationRecord(env.hash(inner), inner,
                      Outer(env.created(Path(Intrinsic, name), d), [Association(name, None, None)], ""))
  }

  /** Put a record at q: union its associations onto a record already there, or write it. */
  function MergeOps(s: Store, q: Path, rec: CalibrationRecord): seq<Op> {
    if q in s && s[q].Record? then
      var merged := AddAll(s[q].record, rec.outer.associations);
      if merged != s[q].record then [Write(q, Record(merged))] else []
    else [Write(q, Record(rec))]
  }

  /** A record under its recomputed id, associations re-keyed. */
  function Placed(env: Env, rec: CalibrationRecord): CalibrationRecord {
    ReKeyRecord(rec.(id := env.hash(rec.inner)))
  }

  function PlacedPath(env: Env, dir: Dir, rec: CalibrationRecord): Path {
    Path(dir, env.hash(rec.inner))
  }

  /** The file operations of one task on the store as it is when the task runs. */
  function Item(env: Env, target: int, s: Store, t: Task): seq<Op> {
    match t
    case WrapDataset(name) =>
      var p := Path(Extrinsic, name);
      if VersionOf(s) != 0 || target <= 0 || p !in s || IsRaw(name) || !s[p].Dataset? || s[p].data == [] then []
      else
        var rec := LegacyExtrinsic(env, name, s[p]);
        MergeOps(s, Path(Flat, rec.id), rec) + [Clear(p)]
    case Bump1 =>
      if VersionOf(s) == 0 && target > 0 then [Write(SCHEMA_PATH, Version(1))] else []
    case MoveFlat(name) =>
      var p := Path(Flat, name);
      if !Upgrading(target, s) || p !in s || !s[p].Record? then []
      else
        var rec := s[p].record;
        MergeOps(s, PlacedPath(env, DirOf(rec.inner), rec), Placed(env, rec)) + [Clear(p)]
    case WrapCalibration(name) =>
      var p := Path(Intrinsic, name);
      if !Upgrading(target, s) || p !in s || IsRaw(name) || IsRecordId(name) || !s[p].Calibration? then []
      else
        var rec := LegacyIntrinsic(env, name, s[p]);
        MergeOps(s, PlacedPath(env, Intrinsic, rec), Placed(env, rec)) + [Clear(p)]
    case ReKeyAssociations(dir, name) =>
      var p := Path(dir, name);
      if !Upgrading(target, s) || p !in s || !IsRecordId(name) || !s[p].Record? then []
      else
        var rec := ReKeyRecord(s[p].record);
        if rec != s[p].record then [Write(p, Record(rec))] else []
    case ReKeyTriple(name) =>
      var p, q := Path(Triples, name), Path(Triples, ReKeyName(name));
      if !Upgrading(target, s) || p !in s || q == p then []
      else (if q in s then [] else [Write(q, s[p])]) + [Clear(p)]
    case Bump2 =>
      if Upgrading(target, s) then [Write(SCHEMA_PATH, Version(2))] else []
  }

  predicate Upgrading(target: int, s: Store) {
    VersionOf(s) == 1 && target > 1
  }

  /** The operations of a list of tasks, each run on the store the ones before it left. */
  function RunOps(env: Env, target: int, s: Store, ts: seq<Task>): seq<Op>
    decreases ts
  {
    if ts == [] then []
    else var ops := Item(env, target, s, ts[0]); ops + RunOps(env, target, ApplyAll(s, ops), ts[1..])
  }

  function After(env: Env, target: int, s: Store, ts: seq<Task>): Store {
    ApplyAll(s, RunOps(env, target, s, ts))
  }

  // ---- lists of operations ----

  lemma {:induction false} ApplyAppend(s: Store, a: seq<Op>, b: seq<Op>)
    ensures ApplyAll(s, a + b) == ApplyAll(ApplyAll(s, a), b)
    decreases a
  {
    if a == [] {
      assert a + b == b;
    } else {
      ApplyAppend(Apply(s, a[0]), a[1..], b);
      assert (a + b)[1..] == a[1..] + b;
    }
  }

  lemma NoOps(s: Store)
    ensures ApplyAll(s, []) == s
  {
  }

  lemma RunNone(env: Env, target: int, s: Store)
    ensures RunOps(env, target, s, []) == [] && After(env, target, s, []) == s
  {
    NoOps(s);
  }

  lemma RunFirst(env: Env, target: int, s: Store, ts: seq<Task>)
    requires ts != []
    ensures var ops := Item(env, target, s, ts[0]); var tail := RunOps(env, target, ApplyAll(s, ops), ts[1..]);
            RunOps(env, target, s, ts) == ops + tail
                && After(env, target, s, ts) == After(env, target, ApplyAll(s, ops), ts[1..])
  {
    hide Item, ApplyAll;
    var ops := Item(env, target, s, ts[0]);
    ApplyAppend(s, ops, RunOps(env, target, ApplyAll(s, ops), ts[1..]));
  }

  lemma {:induction false} RunAppend(env: Env, target: int, s: Store, a: seq<Task>, b: seq<Task>)
    ensures RunOps(env, target, s, a + b) ==
            RunOps(env, target, s, a) + RunOps(env, target, After(env, target, s, a), b)
    ensures After(env, target, s, a + b) == After(env, target, After(env, target, s, a), b)
    decreases a
  {
    hide Item, ApplyAll, RunOps, After;
    if a == [] {
      assert a + b == b;
      RunNone(env, target, s);
      assert [] + RunOps(env, target, s, b) == RunOps(env, target, s, b);
    } else {
      var ops := Item(env, target, s, a[0]);
      var next := ApplyAll(s, ops);
      var mid, end := RunOps(env, target, next, a[1..]), RunOps(env, target, After(env, target, next, a[1..]), b);
      RunAppend(env, target, next, a[1..], b);
      RunFirst(env, target, s, a);
      assert (a + b)[0] == a[0] && (a + b)[1..] == a[1..] + b;
      RunFirst(env, target, s, a + b);
      assert ops + (mid + end) == (ops + mid) + end;
    }
  }

  // ---- one task, cut anywhere ----

  function Rank(t: Task): nat {
    match t
    case WrapDataset(_) => 0
    case Bump1 => 1
    case MoveFlat(_) => 2
    case WrapCalibration(_) => 3
    case ReKeyAssociations(_, _) => 4
    case ReKeyTriple(_) => 5
    case Bump2 => 6
  }

  /** The tasks a migration run lists: re-keying is asked of the two record directories only. */
  predicate Proper(t: Task) {
    t.ReKeyAssociations? ==> t.dir == Extrinsic || t.dir == Intrinsic
  }

  /** Every content hash is a record id. */
  ghost predicate ValidEnv(env: Env) {
    forall i :: IsRecordId(env.hash(i))
  }

  /** After its operations a task finds nothing left to do. */
  lemma DoneAfter(env: Env, target: int, s: Store, t: Task)
    requires ValidEnv(env) && Proper(t)
    ensures Item(env, target, ApplyAll(s, Item(env, target, s, t)), t) == []
  {
    var ops := Item(env, target, s, t);
    TwoOps(s, ops);
    if t.ReKeyAssociations? && ops != [] {
      ReKeyBinds(s[Path(t.dir, t.name)].record, "", "");
    }
  }

  lemma TwoOps(s: Store, ops: seq<Op>)
    requires |ops| <= 2
    ensures ApplyAll(s, ops) ==
            if |ops| == 0 then s else if |ops| == 1 then Apply(s, ops[0]) else Apply(Apply(s, ops[0]), ops[1])
  {
    if |ops| == 2 {
      var rest := ops[1..];
      assert rest[1..] == [];
      assert ApplyAll(Apply(s, ops[0]), rest) == Apply(Apply(s, ops[0]), rest[0]);
    }
  }

  /** The first j operations of a list of at most two. */
  lemma CutOps(s: Store, ops: seq<Op>, j: nat)
    requires |ops| <= 2 && j <= |ops|
    ensures ApplyAll(s, ops[..j]) == if j == 0 then s else if j == 1 then Apply(s, ops[0]) else ApplyAll(s, ops)
  {
    TwoOps(s, ops[..j]);
    if j == |ops| {
      assert ops[..j] == ops;
    }
  }

  /** A task that has nothing to do still has nothing to do after any part of a task that runs
      at the same stage or later. */
  lemma StaysDone(env: Env, target: int, s: Store, m: Task, t: Task, j: nat)
    requires ValidEnv(env) && Proper(m) && Proper(t) && m != t && Rank(m) <= Rank(t)
    requires Item(env, target, s, m) == [] && j <= |Item(env, target, s, t)|
    ensures Item(env, target, ApplyAll(s, Item(env, target, s, t)[..j]), m) == []
  {
    var ops := Item(env, target, s, t);
    CutOps(s, ops, j);
    TwoOps(s, ops);
    if j == 1 {
      StaysDoneOnce(env, target, s, m, t);
    } else if j == 2 {
      StaysDoneOnce(env, target, s, m, t);
      StaysDoneTwice(env, target, s, m, t);
    }
  }

  lemma StaysDoneOnce(env: Env, target: int, s: Store, m: Task, t: Task)
    requires ValidEnv(env) && Proper(m) && Proper(t) && m != t && Rank(m) <= Rank(t)
    requires Item(env, target, s, m) == [] && |Item(env, target, s, t)| > 0
    ensures Item(env, target, Apply(s, Item(env, target, s, t)[0]), m) == []
  {
    hide AddAll, ReKeyRecord;
  }

  lemma StaysDoneTwice(env: Env, target: int, s: Store, m: Task, t: Task)
    requires ValidEnv(env) && Proper(m) && Proper(t) && m != t && Rank(m) <= Rank(t) && |Item(env, target, s, t)| == 2
    requires Item(env, target, Apply(s, Item(env, target, s, t)[0]), m) == []
    ensures Item(env, target, ApplyAll(s, Item(env, target, s, t)), m) == []
  {
    var ops := Item(env, target, s, t);
    TwoOps(s, ops);
    var c := Apply(s, ops[0]);
    SecondHalf(env, target, s, t);
    assert Item(env, target, c, t)[0] == ops[1];
    hide Item;
    StaysDoneOnce(env, target, c, m, t);
  }

  /** A task cut after some of its operations and run again ends where it would have ended. */
  lemma Redo(env: Env, target: int, s: Store, t: Task, j: nat)
    requires ValidEnv(env) && Proper(t) && j <= |Item(env, target, s, t)|
    ensures var c := ApplyAll(s, Item(env, target, s, t)[..j]);
            ApplyAll(c, Item(env, target, c, t)) == ApplyAll(s, Item(env, target, s, t))
  {
    var ops := Item(env, target, s, t);
    var c := ApplyAll(s, ops[..j]);
    hide Item, ApplyAll;
    AtMostTwo(env, target, s, t);
    CutOps(s, ops, j);
    TwoOps(s, ops);
    if j == |ops| {
      DoneAfter(env, target, s, t);
      NoOps(c);
    } else if j == 1 {
      SecondHalf(env, target, s, t);
      TwoOps(c, [ops[1]]);
    }
  }

  lemma AtMostTwo(env: Env, target: int, s: Store, t: Task)
    ensures |Item(env, target, s, t)| <= 2
  {
  }

  /** When the write of a task is done, only its clear is left. */
  lemma SecondHalf(env: Env, target: int, s: Store, t: Task)
    requires ValidEnv(env) && |Item(env, target, s, t)| == 2
    ensures var ops := Item(env, target, s, t); Item(env, target, Apply(s, ops[0]), t) == [ops[1]]
  {
    hide MergeOps, AddAll, IsHex, ReKeyRecord;
    match t
    case WrapDataset(name) =>
      var rec := LegacyExtrinsic(env, name, s[Path(Extrinsic, name)]);
      Remerge(s, rec, Path(Flat, rec.id));
    case MoveFlat(name) =>
      var rec := s[Path(Flat, name)].record;
      Remerge(s, Placed(env, rec), PlacedPath(env, DirOf(rec.inner), rec));
    case WrapCalibration(name) =>
      var rec := LegacyIntrinsic(env, name, s[Path(Intrinsic, name)]);
      Remerge(s, Placed(env, rec), PlacedPath(env, Intrinsic, rec));
    case ReKeyTriple(_) =>
    case Bump1 =>
    case Bump2 =>
    case ReKeyAssociations(_, _) =>
  }

  /** Merging a record that was just merged writes nothing. */
  lemma Remerge(s: Store, rec: CalibrationRecord, q: Path)
    ensures var ops := MergeOps(s, q, rec);
            |ops| == 1 ==> ops[0].Write? && ops[0].path == q && MergeOps(Apply(s, ops[0]), q, rec) == []
  {
    if q in s && s[q].Record? {
      AddAllTwice(s[q].record, rec.outer.associations);
    } else {
      AddAllItself(rec);
    }
  }
}
