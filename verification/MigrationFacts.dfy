/**
 What a store knows, independently of the layout it is kept in: calibration payloads, their
 bindings to cameras and triples, and triple configurations. At every moment of a migration
 run the store knows exactly what it knew at the start.
 */
module MigrationFacts {
  import opened Options
  import opened CalibrationRecords
  import opened Migrations
  import opened MigrationRuns

  datatype Fact =
    | Data(inner: Inner)
    | Bind(inner: Inner, cameraKey: string, triple: string)
    | TripleDoc(key: string, doc: Doc)

  predicate RecordDir(d: Dir) {
    d == Flat || d == Extrinsic || d == Intrinsic
  }

  /** A document of the layouts before records: a flat dataset or a solved calibration under
      its camera key. */
  predicate Legacy(p: Path, d: Doc) {
    || (p.dir == Extrinsic && d.Dataset? && d.data != [] && !IsRaw(p.name))
    || (p.dir == Intrinsic && d.Calibration? && !IsRaw(p.name) && !IsRecordId(p.name))
  }

  function LegacyInner(p: Path, d: Doc): Inner
    requires Legacy(p, d)
  {
    if d.Dataset? then ExtrinsicInner(d.data) else IntrinsicInner(d.fields - {"date"})
  }

  ghost predicate RecordFact(rec: CalibrationRecord, f: Fact) {
    || (f.Data? && f.inner == rec.inner)
    || (f.Bind? && f.inner == rec.inner && Binds(rec, f.cameraKey, f.triple))
  }

  ghost predicate LegacyFact(p: Path, d: Doc, f: Fact)
    requires Legacy(p, d)
  {
    || (f.Data? && f.inner == LegacyInner(p, d))
    || (f.Bind? && f.inner == LegacyInner(p, d) && f.cameraKey == p.name && f.triple == "")
  }

  /** The document at p says f. */
  ghost predicate FactAt(p: Path, d: Doc, f: Fact) {
    || (RecordDir(p.dir) && d.Record? && RecordFact(d.record, f))
    || (Legacy(p, d) && LegacyFact(p, d, f))
    || (p.dir == Triples && f == TripleDoc(ReKeyName(p.name), d))
  }

  /** Some document of the store says f. */
  ghost predicate Knows(s: Store, f: Fact) {
    exists p :: p in s && FactAt(p, s[p], f)
  }

  // ---- stores the migrations are meant for ----

  /** A record filed under a record id is filed under its own. */
  ghost predicate Keyed(env: Env, s: Store) {
    forall p :: p in s && RecordDir(p.dir) && s[p].Record? && IsRecordId(p.name) ==>
                env.hash(s[p].record.inner) == p.name
  }

  /** Camera keys are never 32 hex digits. */
  ghost predicate CameraKeys(s: Store) {
    forall p :: p in s && p.dir == Extrinsic && s[p].Dataset? ==> !IsRecordId(p.name)
  }

  /** Two triple documents with the same re-keyed name say the same. */
  ghost predicate TriplesAgree(s: Store) {
    forall p, q :: p in s && q in s && p.dir == Triples && q.dir == Triples && ReKeyName(p.name) == ReKeyName(q.name)
                   ==> s[p] == s[q]
  }

  /** No two payloads of the store share a hash. */
  ghost predicate CollisionFree(env: Env, s: Store) {
    forall i, j :: Knows(s, Data(i)) && Knows(s, Data(j)) && env.hash(i) == env.hash(j) ==> i == j
  }

  ghost predicate Regular(env: Env, s: Store) {
    Keyed(env, s) && CameraKeys(s) && TriplesAgree(s) && CollisionFree(env, s)
  }

  // ---- merging a record in and clearing where it came from ----

  /** rec, to be filed at q, says what the document at p says. */
  ghost predicate Moving(env: Env, s: Store, p: Path, q: Path, rec: CalibrationRecord) {
    && p in s && p != q && RecordDir(q.dir) && RecordDir(p.dir)
    && q.name == env.hash(rec.inner)
    && forall f :: FactAt(p, s[p], f) <==> RecordFact(rec, f)
  }

  lemma AtTarget(env: Env, s: Store, q: Path, rec: CalibrationRecord)
    requires ValidEnv(env) && Regular(env, s) && RecordDir(q.dir) && q.name == env.hash(rec.inner) && q in s
    requires Knows(s, Data(rec.inner))
    ensures s[q].Record? ==> s[q].record.inner == rec.inner
    ensures !s[q].Record? ==> forall f :: !FactAt(q, s[q], f)
  {
    if s[q].Record? {
      assert FactAt(q, s[q], Data(s[q].record.inner));
    }
  }

  /** The record left at q after a merge says what was there and what rec says. */
  lemma MergedFacts(filed: CalibrationRecord, rec: CalibrationRecord, f: Fact)
    requires filed.inner == rec.inner
    ensures RecordFact(AddAll(filed, rec.outer.associations), f) <==> RecordFact(filed, f) || RecordFact(rec, f)
  {
    var cam, tri := if f.Bind? then f.cameraKey else "", if f.Bind? then f.triple else "";
    AddAllBinds(filed, rec.outer.associations, cam, tri);
  }

  lemma MergeKnows(env: Env, s: Store, p: Path, q: Path, rec: CalibrationRecord, f: Fact)
    requires ValidEnv(env) && Regular(env, s) && Moving(env, s, p, q, rec)
    ensures var s1 := ApplyAll(s, MergeOps(s, q, rec));
            && (Knows(s1, f) <==> Knows(s, f))
            && q in s1 && s1[q].Record? && s1[q].record.inner == rec.inner
            && (RecordFact(rec, f) ==> FactAt(q, s1[q], f))
            && (forall r :: r != q ==> (r in s1 <==> r in s) && (r in s ==> s1[r] == s[r]))
  {
    TwoOps(s, MergeOps(s, q, rec));
    var s1 := ApplyAll(s, MergeOps(s, q, rec));
    assert FactAt(p, s[p], Data(rec.inner));
    if q in s {
      AtTarget(env, s, q, rec);
    }
    var before := q in s && FactAt(q, s[q], f);
    if q in s && s[q].Record? {
      MergedFacts(s[q].record, rec, f);
      AddAllBinds(s[q].record, rec.outer.associations, "", "");
    }
    hide AddAll, Binds;
    assert FactAt(q, s1[q], f) <==> before || RecordFact(rec, f);
    OnePathChanged(s, s1, q, f);
    assert FactAt(p, s[p], f) <==> RecordFact(rec, f);
  }

  /** When only q changes, only what is said at q can change. */
  lemma OnePathChanged(s: Store, s1: Store, q: Path, f: Fact)
    requires q in s1 && forall r :: r != q ==> (r in s1 <==> r in s) && (r in s ==> s1[r] == s[r])
    ensures Knows(s1, f) <==> FactAt(q, s1[q], f) || exists r :: r in s && r != q && FactAt(r, s[r], f)
  {
    hide FactAt;
  }

  lemma ClearKnows(s: Store, p: Path, q: Path, f: Fact)
    requires p in s && q in s && p != q && (FactAt(p, s[p], f) ==> FactAt(q, s[q], f))
    ensures Knows(s - {p}, f) <==> Knows(s, f)
  {
    hide FactAt;
    if Knows(s, f) {
      var r :| r in s && FactAt(r, s[r], f);
      assert (if r == p then q else r) in s - {p};
    }
  }

  // ---- every task ----

  lemma LegacyMoves(env: Env, s: Store, p: Path, rec: CalibrationRecord)
    requires p in s && Legacy(p, s[p]) && rec.inner == LegacyInner(p, s[p])
    requires rec.outer.associations == [Association(p.name, None, None)]
    ensures forall f :: FactAt(p, s[p], f) <==> RecordFact(rec, f)
  {
    forall f ensures FactAt(p, s[p], f) <==> RecordFact(rec, f) {
      if f.Bind? {
        assert Targets(rec.outer.associations[0], f.cameraKey, f.triple) <==> f.cameraKey == p.name && f.triple == "";
      }
    }
  }

  lemma PlacedFacts(env: Env, rec: CalibrationRecord)
    ensures Placed(env, rec).inner == rec.inner
    ensures forall f :: RecordFact(Placed(env, rec), f) <==> RecordFact(rec, f)
  {
    forall f ensures RecordFact(Placed(env, rec), f) <==> RecordFact(rec, f) {
      var cam, tri := if f.Bind? then f.cameraKey else "", if f.Bind? then f.triple else "";
      ReKeyBinds(rec.(id := env.hash(rec.inner)), cam, tri);
      assert Binds(rec.(id := env.hash(rec.inner)), cam, tri) <==> Binds(rec, cam, tri);
    }
  }

  /** The record a wrapping or moving task files, and where from and where to. */
  function Source(t: Task): Path
    requires t.WrapDataset? || t.MoveFlat? || t.WrapCalibration?
  {
    Path(if t.WrapDataset? then Extrinsic else if t.MoveFlat? then Flat else Intrinsic, t.name)
  }

  function Filed(env: Env, s: Store, t: Task): CalibrationRecord
    requires (t.WrapDataset? || t.MoveFlat? || t.WrapCalibration?) && Source(t) in s
  {
    var d := s[Source(t)];
    if t.WrapDataset? && d.Dataset? then LegacyExtrinsic(env, t.name, d)
    else if t.WrapCalibration? && d.Calibration? then Placed(env, LegacyIntrinsic(env, t.name, d))
    else if d.Record? then Placed(env, d.record)
    else CalibrationRecord("", ExtrinsicInner([]), Outer("", [], ""))
  }

  function Target(env: Env, s: Store, t: Task): Path
    requires (t.WrapDataset? || t.MoveFlat? || t.WrapCalibration?) && Source(t) in s
  {
    var rec := Filed(env, s, t);
    Path(if t.WrapDataset? then Flat else if t.MoveFlat? then DirOf(rec.inner) else Intrinsic, env.hash(rec.inner))
  }

  lemma MovingTask(env: Env, target: int, s: Store, t: Task)
    requires ValidEnv(env) && (t.WrapDataset? || t.MoveFlat? || t.WrapCalibration?)
    requires Item(env, target, s, t) != []
    ensures Source(t) in s && Moving(env, s, Source(t), Target(env, s, t), Filed(env, s, t))
    ensures Item(env, target, s, t) == MergeOps(s, Target(env, s, t), Filed(env, s, t)) + [Clear(Source(t))]
  {
    var p := Source(t);
    if t.WrapDataset? {
      LegacyMoves(env, s, p, LegacyExtrinsic(env, t.name, s[p]));
    } else if t.WrapCalibration? {
      LegacyMoves(env, s, p, LegacyIntrinsic(env, t.name, s[p]));
      PlacedFacts(env, LegacyIntrinsic(env, t.name, s[p]));
    } else {
      PlacedFacts(env, s[p].record);
    }
  }

  /** No part of a task makes the store forget or invent anything. */
  lemma TaskKnows(env: Env, target: int, s: Store, t: Task, j: nat, f: Fact)
    requires ValidEnv(env) && Regular(env, s) && Proper(t) && j <= |Item(env, target, s, t)|
    ensures Knows(ApplyAll(s, Item(env, target, s, t)[..j]), f) <==> Knows(s, f)
  {
    var ops := Item(env, target, s, t);
    AtMostTwo(env, target, s, t);
    CutOps(s, ops, j);
    if ops != [] && j > 0 {
      if t.WrapDataset? || t.MoveFlat? || t.WrapCalibration? {
        MovingTask(env, target, s, t);
        MoveKnows(env, s, Source(t), Target(env, s, t), Filed(env, s, t), ops, j, f);
      } else if t.ReKeyTriple? {
        TripleKnows(s, t.name, ops, j, f);
      } else if t.ReKeyAssociations? {
        var q := ops[0].path;
        ReKeyRecordFact(s[q].record, f);
        OnePathChanged(s, Apply(s, ops[0]), q, f);
      } else {
        OnePathChanged(s, Apply(s, ops[0]), SCHEMA_PATH, f);
      }
    }
  }

  lemma ReKeyRecordFact(rec: CalibrationRecord, f: Fact)
    ensures RecordFact(ReKeyRecord(rec), f) <==> RecordFact(rec, f)
  {
    ReKeyBinds(rec, if f.Bind? then f.cameraKey else "", if f.Bind? then f.triple else "");
  }

  lemma MoveKnows(env: Env, s: Store, p: Path, q: Path, rec: CalibrationRecord, ops: seq<Op>, j: nat, f: Fact)
    requires ValidEnv(env) && Regular(env, s) && Moving(env, s, p, q, rec)
    requires ops == MergeOps(s, q, rec) + [Clear(p)] && j <= |ops|
    ensures Knows(ApplyAll(s, ops[..j]), f) <==> Knows(s, f)
  {
    var merge := MergeOps(s, q, rec);
    var s1 := ApplyAll(s, merge);
    hide FactAt, RecordFact, Regular;
    MergeKnows(env, s, p, q, rec, f);
    CutOps(s, ops, j);
    TwoOps(s, merge);
    TwoOps(s, ops);
    assert FactAt(p, s[p], f) <==> RecordFact(rec, f);
    ClearKnows(s1, p, q, f);
  }

  lemma TripleKnows(s: Store, name: string, ops: seq<Op>, j: nat, f: Fact)
    requires TriplesAgree(s) && Path(Triples, name) in s && ReKeyName(name) != name && j <= |ops|
    requires var p, q := Path(Triples, name), Path(Triples, ReKeyName(name));
             ops == (if q in s then [] else [Write(q, s[p])]) + [Clear(p)]
    ensures Knows(ApplyAll(s, ops[..j]), f) <==> Knows(s, f)
  {
    var p, q := Path(Triples, name), Path(Triples, ReKeyName(name));
    var s1 := if q in s then s else s[q := s[p]];
    assert s1[q] == s1[p];
    CutOps(s, ops, j);
    TwoOps(s, ops);
    if q !in s {
      OnePathChanged(s, s1, q, f);
    }
    ClearKnows(s1, p, q, f);
  }

  /** Every part of a task keeps the store regular. */
  lemma TaskRegular(env: Env, target: int, s: Store, t: Task, j: nat)
    requires ValidEnv(env) && Regular(env, s) && Proper(t) && j <= |Item(env, target, s, t)|
    ensures Regular(env, ApplyAll(s, Item(env, target, s, t)[..j]))
  {
    var ops := Item(env, target, s, t);
    StillCollisionFree(env, target, s, t, j);
    AtMostTwo(env, target, s, t);
    SecondClears(env, target, s, t);
    CutOps(s, ops, j);
    TwoOps(s, ops);
    if j > 0 {
      if ops[0].Write? {
        WriteFiles(env, target, s, t, 0);
      }
      OpRegular(env, s, ops[0]);
      if j == 2 {
        OpRegular(env, Apply(s, ops[0]), ops[1]);
      }
    }
    hide Item, Keyed, CameraKeys, TriplesAgree, CollisionFree;
  }

  lemma SecondClears(env: Env, target: int, s: Store, t: Task)
    ensures var ops := Item(env, target, s, t); |ops| == 2 ==> ops[1].Clear?
  {
  }

  lemma OpRegular(env: Env, s: Store, op: Op)
    requires Keyed(env, s) && CameraKeys(s) && TriplesAgree(s) && (op.Write? ==> Filing(env, s, op.path, op.doc))
    ensures var c := Apply(s, op); Keyed(env, c) && CameraKeys(c) && TriplesAgree(c)
  {
    hide IsRecordId, ReKeyName;
  }

  lemma StillCollisionFree(env: Env, target: int, s: Store, t: Task, j: nat)
    requires ValidEnv(env) && Regular(env, s) && Proper(t) && j <= |Item(env, target, s, t)|
    ensures CollisionFree(env, ApplyAll(s, Item(env, target, s, t)[..j]))
  {
    hide Item, ApplyAll, Knows;
    forall i ensures Knows(ApplyAll(s, Item(env, target, s, t)[..j]), Data(i)) <==> Knows(s, Data(i)) {
      TaskKnows(env, target, s, t, j, Data(i));
    }
  }

  /** A write that cannot make a regular store irregular. */
  ghost predicate Filing(env: Env, s: Store, q: Path, d: Doc) {
    && (RecordDir(q.dir) ==> d.Record? && env.hash(d.record.inner) == q.name)
    && (q.dir == Triples ==> exists p :: p in s && p.dir == Triples && s[p] == d
                                         && ReKeyName(p.name) == ReKeyName(q.name))
  }

  lemma WriteFiles(env: Env, target: int, s: Store, t: Task, i: nat)
    requires ValidEnv(env) && Regular(env, s) && Proper(t) && i < |Item(env, target, s, t)|
    requires Item(env, target, s, t)[i].Write?
    ensures var w := Item(env, target, s, t)[i]; Filing(env, s, w.path, w.doc)
  {
    var ops := Item(env, target, s, t);
    if t.WrapDataset? || t.MoveFlat? || t.WrapCalibration? {
      MovingTask(env, target, s, t);
      var q, rec := Target(env, s, t), Filed(env, s, t);
      if q in s && s[q].Record? {
        assert FactAt(Source(t), s[Source(t)], Data(rec.inner));
        AtTarget(env, s, q, rec);
        AddAllBinds(s[q].record, rec.outer.associations, "", "");
      }
    } else if t.ReKeyTriple? {
      assert s[Path(Triples, t.name)] == ops[i].doc;
    }
  }

  // ---- every prefix of a run ----

  lemma {:induction false} RunKnows(env: Env, target: int, s: Store, ts: seq<Task>, k: nat, f: Fact)
    requires ValidEnv(env) && Regular(env, s) && k <= |RunOps(env, target, s, ts)|
    requires forall i :: 0 <= i < |ts| ==> Proper(ts[i])
    ensures Knows(Cut(env, target, s, ts, k), f) <==> Knows(s, f)
    ensures Regular(env, Cut(env, target, s, ts, k))
    decreases ts
  {
    hide Item, ApplyAll, Regular, Knows;
    if ts == [] {
      NoOps(s);
    } else {
      var ops := Item(env, target, s, ts[0]);
      var next := ApplyAll(s, ops);
      var tail := RunOps(env, target, next, ts[1..]);
      if k <= |ops| {
        assert (ops + tail)[..k] == ops[..k];
        TaskKnows(env, target, s, ts[0], k, f);
        TaskRegular(env, target, s, ts[0], k);
      } else {
        assert ops[..|ops|] == ops && (ops + tail)[..k] == ops + tail[..k - |ops|];
        TaskKnows(env, target, s, ts[0], |ops|, f);
        TaskRegular(env, target, s, ts[0], |ops|);
        RunKnows(env, target, next, ts[1..], k - |ops|, f);
        ApplyAppend(s, ops, tail[..k - |ops|]);
      }
    }
  }

  /** At every prefix of the file operations of a migration run the store knows exactly the
      datasets, calibrations, bindings and triple configurations it knew at the start. */
  lemma NothingLost(env: Env, target: int, s: Store, k: nat, f: Fact)
    requires ValidEnv(env) && Distinct(env.order) && Regular(env, s)
    requires k <= |RunOps(env, target, s, AllTasks(env.order))|
    ensures Knows(Cut(env, target, s, AllTasks(env.order), k), f) <==> Knows(s, f)
  {
    AllTasksOrdered(env.order);
    RunKnows(env, target, s, AllTasks(env.order), k, f);
  }

  // ---- artifacts ----

  /** No operation of any task names a ".raw" artifact of the per-kind directories. */
  lemma TaskSparesRaw(env: Env, target: int, s: Store, t: Task, p: Path, i: nat)
    requires ValidEnv(env) && Proper(t) && (p.dir == Extrinsic || p.dir == Intrinsic) && IsRaw(p.name)
    requires i < |Item(env, target, s, t)|
    ensures Item(env, target, s, t)[i].path != p
  {
    if IsRecordId(p.name) {
      RecordIdNotRaw(p.name);
    }
  }

  /** At every prefix of a run the ".raw" artifacts are as they were. */
  lemma {:induction false} RawUntouched(env: Env, target: int, s: Store, ts: seq<Task>, p: Path, k: nat)
    requires ValidEnv(env) && (p.dir == Extrinsic || p.dir == Intrinsic) && IsRaw(p.name)
    requires k <= |RunOps(env, target, s, ts)|
    requires forall i :: 0 <= i < |ts| ==> Proper(ts[i])
    ensures var c := Cut(env, target, s, ts, k); (p in c <==> p in s) && (p in s ==> c[p] == s[p])
    decreases ts
  {
    hide Item, ApplyAll, IsRaw;
    if ts == [] {
      NoOps(s);
    } else {
      var ops := Item(env, target, s, ts[0]);
      var next := ApplyAll(s, ops);
      var tail := RunOps(env, target, next, ts[1..]);
      forall i | 0 <= i < |ops| ensures ops[i].path != p {
        TaskSparesRaw(env, target, s, ts[0], p, i);
      }
      if k <= |ops| {
        assert (ops + tail)[..k] == ops[..k];
        OthersUntouched(s, ops[..k], p);
      } else {
        assert (ops + tail)[..k] == ops + tail[..k - |ops|];
        OthersUntouched(s, ops, p);
        RawUntouched(env, target, next, ts[1..], p, k - |ops|);
        ApplyAppend(s, ops, tail[..k - |ops|]);
      }
    }
  }

  lemma {:induction false} OthersUntouched(s: Store, ops: seq<Op>, p: Path)
    requires forall i :: 0 <= i < |ops| ==> ops[i].path != p
    ensures var c := ApplyAll(s, ops); (p in c <==> p in s) && (p in s ==> c[p] == s[p])
    decreases ops
  {
    if ops != [] {
      OthersUntouched(Apply(s, ops[0]), ops[1..], p);
    }
  }

  // ---- when triple documents do disagree ----

  /** Every name in the triples directory, and what it is re-keyed to, is among the names the
      run lists. */
  ghost predicate TriplesListed(env: Env, s: Store) {
    forall p :: p in s && p.dir == Triples ==> p.name in env.order && ReKeyName(p.name) in env.order
  }

  lemma TaskTriplesListed(env: Env, target: int, s: Store, t: Task)
    requires ValidEnv(env) && Proper(t) && TriplesListed(env, s)
    ensures TriplesListed(env, ApplyAll(s, Item(env, target, s, t)))
  {
    AtMostTwo(env, target, s, t);
    TwoOps(s, Item(env, target, s, t));
  }

  lemma {:induction false} RunTriplesListed(env: Env, target: int, s: Store, ts: seq<Task>)
    requires ValidEnv(env) && TriplesListed(env, s) && forall i :: 0 <= i < |ts| ==> Proper(ts[i])
    ensures TriplesListed(env, After(env, target, s, ts))
    decreases ts
  {
    hide Item, ApplyAll;
    if ts == [] {
      NoOps(s);
    } else {
      TaskTriplesListed(env, target, s, ts[0]);
      FirstTask(env, target, s, ts);
      RunTriplesListed(env, target, ApplyAll(s, Item(env, target, s, ts[0])), ts[1..]);
    }
  }

  /** Where all re-keying is done, every triple document is under its re-keyed name. */
  lemma TriplesSettled(env: Env, target: int, c: Store, ts: seq<Task>, p: Path)
    requires Upgrading(target, c) && TriplesListed(env, c) && AllDone(env, target, c, ts)
    requires forall n :: n in env.order ==> ReKeyTriple(n) in ts
    requires p in c && p.dir == Triples
    ensures ReKeyName(p.name) == p.name
  {
    var i :| 0 <= i < |ts| && ts[i] == ReKeyTriple(p.name);
    assert Item(env, target, c, ts[i]) == [];
  }

  lemma WorkListsTriples(names: seq<string>)
    ensures forall n :: n in names ==> ReKeyTriple(n) in FirstTasks(names) + SecondPhases(names)
  {
    var ts := FirstTasks(names) + SecondPhases(names);
    var base := 5 * |names| + 1;
    forall n | n in names ensures ReKeyTriple(n) in ts {
      var i :| 0 <= i < |names| && names[i] == n;
      assert ts[base + i] == ReKeyTriple(n);
    }
  }

  lemma ReachesOne(env: Env, target: int, s: Store)
    requires 0 <= VersionOf(s) <= 1 && target > 1
    ensures VersionOf(After(env, target, s, FirstTasks(env.order))) == 1
  {
    hide ApplyAll, VersionOf;
    var wrap := Each(AsWrapDataset, env.order);
    var a := After(env, target, s, wrap);
    RunAppend(env, target, s, wrap, [Bump1]);
    VersionKept(env, target, s, wrap);
    BumpOne(env, target, a);
  }

  lemma BumpOne(env: Env, target: int, a: Store)
    requires 0 <= VersionOf(a) <= 1 && target > 1
    ensures VersionOf(After(env, target, a, [Bump1])) == 1
  {
    FirstTask(env, target, a, [Bump1]);
    TwoOps(a, Item(env, target, a, Bump1));
    NoOps(ApplyAll(a, Item(env, target, a, Bump1)));
  }

  lemma BumpTwo(env: Env, target: int, c: Store)
    requires Upgrading(target, c)
    ensures After(env, target, c, [Bump2]) == c[SCHEMA_PATH := Version(2)]
  {
    FirstTask(env, target, c, [Bump2]);
    TwoOps(c, Item(env, target, c, Bump2));
    NoOps(ApplyAll(c, Item(env, target, c, Bump2)));
  }

  /** The store before the last version write, when the migrations start from a version they know. */
  lemma WorkDone(env: Env, target: int, s: Store)
    requires ValidEnv(env) && Distinct(env.order) && 0 <= VersionOf(s) <= 1 && target > 1
    ensures var work := FirstTasks(env.order) + SecondPhases(env.order);
            var c := After(env, target, s, work);
            && Ordered(work) && Upgrading(target, c) && AllDone(env, target, c, work)
            && After(env, target, s, AllTasks(env.order)) == c[SCHEMA_PATH := Version(2)]
  {
    var first, second := FirstTasks(env.order), SecondPhases(env.order);
    var work := first + second;
    AllTasksOrdered(env.order);
    assert AllTasks(env.order) == work + [Bump2];
    WorkOrdered(work);
    NoBumpsInPhases(env.order);
    hide FirstTasks, SecondPhases, AllTasks, Item, ApplyAll, VersionOf, Ordered, After;
    assert [] + work == work;
    AllDoneAfter(env, target, s, [], work);
    RunAppend(env, target, s, first, second);
    ReachesOne(env, target, s);
    VersionKept(env, target, After(env, target, s, first), second);
    RunAppend(env, target, s, work, [Bump2]);
    BumpTwo(env, target, After(env, target, s, work));
  }

  lemma NoBumpsInPhases(names: seq<string>)
    ensures forall i :: 0 <= i < |SecondPhases(names)| ==>
                        Proper(SecondPhases(names)[i]) && !IsBump(SecondPhases(names)[i])
  {
  }

  lemma TripleFact(p: Path, d: Doc, key: string, doc: Doc)
    ensures FactAt(p, d, TripleDoc(key, doc)) <==> p.dir == Triples && ReKeyName(p.name) == key && d == doc
  {
  }

  /** Two different triple documents whose names re-key to the same id do not both survive an
      upgrade: that the documents agree is not only enough to lose none, it is needed. */
  lemma ConflictLosesATriple(env: Env, target: int, s: Store, p: Path, q: Path)
    requires ValidEnv(env) && Distinct(env.order) && TriplesListed(env, s) && 0 <= VersionOf(s) <= 1 && target > 1
    requires p in s && q in s && p.dir == Triples && q.dir == Triples && ReKeyName(p.name) == ReKeyName(q.name)
    requires s[p] != s[q]
    ensures var fp, fq := TripleDoc(ReKeyName(p.name), s[p]), TripleDoc(ReKeyName(q.name), s[q]);
            var end := After(env, target, s, AllTasks(env.order));
            Knows(s, fp) && Knows(s, fq) && !(Knows(end, fp) && Knows(end, fq))
  {
    var fp, fq := TripleDoc(ReKeyName(p.name), s[p]), TripleDoc(ReKeyName(q.name), s[q]);
    var key := ReKeyName(p.name);
    TripleFact(p, s[p], key, s[p]);
    TripleFact(q, s[q], key, s[q]);
    var work := FirstTasks(env.order) + SecondPhases(env.order);
    var c := After(env, target, s, work);
    var end := After(env, target, s, AllTasks(env.order));
    WorkDone(env, target, s);
    RunTriplesListed(env, target, s, work);
    WorkListsTriples(env.order);
    hide After, Item, AllTasks, FactAt, FirstTasks, SecondPhases, AllDone, TriplesListed;
    if Knows(end, fp) && Knows(end, fq) {
      var a :| a in end && FactAt(a, end[a], fp);
      var b :| b in end && FactAt(b, end[b], fq);
      TripleFact(a, end[a], key, s[p]);
      TripleFact(b, end[b], key, s[q]);
      TriplesSettled(env, target, c, work, a);
      TriplesSettled(env, target, c, work, b);
    }
  }
}
