/**
 Where an upgrade leaves everything: after the migrations every record is in the directory of
 its own kind under the hash of its payload, nothing is left in the old layouts, and no legacy
 hash is left as a name or inside a binding.
 */
module MigrationLayout {
  import opened Options
  import opened CalibrationRecords
  import opened Migrations
  import opened MigrationRuns
  import opened MigrationFacts

  /** A record in a per-kind directory is of that kind, under its own id, which is its hash. */
  ghost predicate InPlace(env: Env, p: Path, d: Doc) {
    d.Record? ==>
      && (p.dir == Extrinsic ==> d.record.inner.ExtrinsicInner?)
      && (p.dir == Intrinsic ==> d.record.inner.IntrinsicInner?)
      && (p.dir == Extrinsic || p.dir == Intrinsic ==> d.record.id == p.name == env.hash(d.record.inner))
  }

  ghost predicate AllInPlace(env: Env, s: Store) {
    forall p :: p in s ==> InPlace(env, p, s[p])
  }

  /** The run lists every name in the store and every id a payload of the store is filed under. */
  ghost predicate Named(env: Env, s: Store) {
    && (forall p :: p in s ==> p.name in env.order || p == SCHEMA_PATH)
    && (forall i :: Knows(s, Data(i)) ==> env.hash(i) in env.order)
    && TriplesListed(env, s)
  }

  /** A dataset of the oldest layout. */
  ghost predicate OldDataset(s: Store, p: Path) {
    p in s && p.dir == Extrinsic && Legacy(p, s[p])
  }

  // ---- every task ----

  lemma TaskInPlace(env: Env, target: int, s: Store, t: Task)
    requires ValidEnv(env) && Regular(env, s) && Proper(t) && AllInPlace(env, s)
    ensures AllInPlace(env, ApplyAll(s, Item(env, target, s, t)))
  {
    AtMostTwo(env, target, s, t);
    TwoOps(s, Item(env, target, s, t));
    if (t.WrapDataset? || t.MoveFlat? || t.WrapCalibration?) && Item(env, target, s, t) != [] {
      MovingTask(env, target, s, t);
      var q, rec := Target(env, s, t), Filed(env, s, t);
      MoveInPlace(env, s, Source(t), q, rec);
    }
  }

  lemma MoveInPlace(env: Env, s: Store, p: Path, q: Path, rec: CalibrationRecord)
    requires ValidEnv(env) && Regular(env, s) && AllInPlace(env, s) && Moving(env, s, p, q, rec)
    requires InPlace(env, q, Record(rec))
    ensures AllInPlace(env, ApplyAll(s, MergeOps(s, q, rec) + [Clear(p)]))
  {
    var ops := MergeOps(s, q, rec) + [Clear(p)];
    TwoOps(s, ops);
    assert FactAt(p, s[p], Data(rec.inner));
    if q in s && s[q].Record? {
      AtTarget(env, s, q, rec);
      AddAllBinds(s[q].record, rec.outer.associations, "", "");
    }
  }

  lemma TaskNamed(env: Env, target: int, s: Store, t: Task)
    requires ValidEnv(env) && Regular(env, s) && Proper(t) && Named(env, s)
    ensures Named(env, ApplyAll(s, Item(env, target, s, t)))
  {
    var ops := Item(env, target, s, t);
    var c := ApplyAll(s, ops);
    assert ops[..|ops|] == ops;
    TaskTriplesListed(env, target, s, t);
    forall i | Knows(c, Data(i)) ensures env.hash(i) in env.order {
      TaskKnows(env, target, s, t, |ops|, Data(i));
    }
    TaskNames(env, target, s, t);
    hide Item, ApplyAll, Knows, Regular, TriplesListed;
  }

  lemma TaskNames(env: Env, target: int, s: Store, t: Task)
    requires ValidEnv(env) && Regular(env, s) && Proper(t) && Named(env, s)
    ensures forall p :: p in ApplyAll(s, Item(env, target, s, t)) ==> p.name in env.order || p == SCHEMA_PATH
  {
    AtMostTwo(env, target, s, t);
    TwoOps(s, Item(env, target, s, t));
    if (t.WrapDataset? || t.MoveFlat? || t.WrapCalibration?) && Item(env, target, s, t) != [] {
      MovingTask(env, target, s, t);
      assert FactAt(Source(t), s[Source(t)], Data(Filed(env, s, t).inner));
    }
  }

  /** A dataset of the oldest layout goes only when its own task wraps it, and none comes. */
  lemma TaskDatasets(env: Env, target: int, s: Store, t: Task, p: Path)
    requires ValidEnv(env) && Regular(env, s) && Proper(t)
    ensures var c := ApplyAll(s, Item(env, target, s, t));
            && (OldDataset(c, p) <==> OldDataset(s, p) && (t == WrapDataset(p.name) ==> Item(env, target, s, t) == []))
            && (OldDataset(c, p) ==> c[p] == s[p])
  {
    AtMostTwo(env, target, s, t);
    TwoOps(s, Item(env, target, s, t));
    if (t.WrapDataset? || t.MoveFlat? || t.WrapCalibration?) && Item(env, target, s, t) != [] {
      MovingTask(env, target, s, t);
    }
    hide MergeOps, IsRaw;
  }

  // ---- over a run ----

  ghost predicate Orderly(env: Env, s: Store) {
    Regular(env, s) && AllInPlace(env, s) && Named(env, s)
  }

  lemma TaskOrderly(env: Env, target: int, s: Store, t: Task)
    requires ValidEnv(env) && Proper(t) && Orderly(env, s)
    ensures Orderly(env, ApplyAll(s, Item(env, target, s, t)))
  {
    hide Item, ApplyAll, Regular, AllInPlace, Named;
    var ops := Item(env, target, s, t);
    assert ops[..|ops|] == ops;
    TaskRegular(env, target, s, t, |ops|);
    TaskInPlace(env, target, s, t);
    TaskNamed(env, target, s, t);
  }

  lemma {:induction false} RunOrderly(env: Env, target: int, s: Store, ts: seq<Task>)
    requires ValidEnv(env) && Orderly(env, s) && forall i :: 0 <= i < |ts| ==> Proper(ts[i])
    ensures Orderly(env, After(env, target, s, ts))
    decreases ts
  {
    hide Item, ApplyAll, Orderly;
    if ts == [] {
      NoOps(s);
    } else {
      TaskOrderly(env, target, s, ts[0]);
      FirstTask(env, target, s, ts);
      RunOrderly(env, target, ApplyAll(s, Item(env, target, s, ts[0])), ts[1..]);
    }
  }

  /** The old dataset at p, if there is one. */
  ghost function OldAt(s: Store, p: Path): Option<Doc> {
    if OldDataset(s, p) then Some(s[p]) else None
  }

  /** Old datasets never come back or change, and where nothing is wrapped any more they stay. */
  lemma {:induction false} RunDatasets(env: Env, target: int, s: Store, ts: seq<Task>, p: Path)
    requires ValidEnv(env) && Orderly(env, s)
    requires forall i :: 0 <= i < |ts| ==> Proper(ts[i]) && !IsBump(ts[i])
    ensures var end := OldAt(After(env, target, s, ts), p);
            (end == None || end == OldAt(s, p)) && (VersionOf(s) != 0 ==> end == OldAt(s, p))
    decreases ts
  {
    if ts == [] {
      NoOps(s);
    } else {
      assert Proper(ts[0]) && !IsBump(ts[0]);
      assert VersionOf(s) != 0 && ts[0].WrapDataset? ==> Item(env, target, s, ts[0]) == [];
      hide Item, ApplyAll, OldAt, VersionOf, Orderly;
      TaskOrderly(env, target, s, ts[0]);
      OneVersionKept(env, target, s, ts[0]);
      OneDataset(env, target, s, ts[0], p);
      FirstTask(env, target, s, ts);
      RunDatasets(env, target, ApplyAll(s, Item(env, target, s, ts[0])), ts[1..], p);
    }
  }

  lemma OneDataset(env: Env, target: int, s: Store, t: Task, p: Path)
    requires ValidEnv(env) && Orderly(env, s) && Proper(t)
    ensures var end := OldAt(ApplyAll(s, Item(env, target, s, t)), p);
            && (end == None || end == OldAt(s, p))
            && ((t.WrapDataset? ==> Item(env, target, s, t) == []) ==> end == OldAt(s, p))
  {
    hide Item, ApplyAll, OldDataset, Regular;
    TaskDatasets(env, target, s, t, p);
  }

  lemma RunOne(env: Env, target: int, s: Store, t: Task)
    ensures After(env, target, s, [t]) == ApplyAll(s, Item(env, target, s, t))
  {
    hide Item;
    FirstTask(env, target, s, [t]);
    RunNone(env, target, ApplyAll(s, Item(env, target, s, t)));
  }

  lemma NothingToDo(env: Env, target: int, c: Store, ts: seq<Task>, t: Task)
    requires AllDone(env, target, c, ts) && t in ts
    ensures Item(env, target, c, t) == []
  {
  }

  /** After the first migration's passes over a store of version 0 no old dataset is left. */
  lemma AllWrapped(env: Env, target: int, s: Store, p: Path)
    requires ValidEnv(env) && Distinct(env.order) && Orderly(env, s) && VersionOf(s) == 0 && target > 1
    ensures OldAt(After(env, target, s, Each(AsWrapDataset, env.order)), p) == None
  {
    hide Item, ApplyAll, VersionOf, After, Each, Orderly, OldAt, AllDone;
    var ts := Each(AsWrapDataset, env.order);
    WrapTasks(env.order);
    if p.name in env.order {
      EachLists(AsWrapDataset, env.order, p.name);
    }
    NoneDone(env, target, s);
    AllDoneAfter(env, target, s, [], ts);
    VersionKept(env, target, s, ts);
    RunOrderly(env, target, s, ts);
    assert [] + ts == ts;
    WrappedAlready(env, target, After(env, target, s, ts), ts, p);
  }

  lemma NoneDone(env: Env, target: int, s: Store)
    ensures AllDone(env, target, s, [])
  {
  }

  lemma WrapTasks(names: seq<string>)
    requires Distinct(names)
    ensures var ts := Each(AsWrapDataset, names);
            Ordered([] + ts) && forall i :: 0 <= i < |ts| ==> Proper(ts[i]) && !IsBump(ts[i])
  {
    var ts := Each(AsWrapDataset, names);
    EachStaged(AsWrapDataset, names, 0);
    assert [] + ts == ts;
  }

  lemma EachLists(make: string -> Task, names: seq<string>, n: string)
    requires n in names
    ensures make(n) in Each(make, names)
  {
    var i :| 0 <= i < |names| && names[i] == n;
    assert Each(make, names)[i] == make(n);
  }

  lemma WrappedAlready(env: Env, target: int, c: Store, ts: seq<Task>, p: Path)
    requires AllDone(env, target, c, ts) && VersionOf(c) == 0 && target > 0 && Orderly(env, c)
    requires p.name in env.order ==> WrapDataset(p.name) in ts
    ensures OldAt(c, p) == None
  {
    hide AllDone, Regular, AllInPlace, VersionOf;
    if p.name in env.order {
      NothingToDo(env, target, c, ts, WrapDataset(p.name));
    }
  }

  /** The first migration leaves an old dataset only in a store that was past it. */
  lemma FirstDatasets(env: Env, target: int, s: Store, p: Path)
    requires ValidEnv(env) && Distinct(env.order) && Orderly(env, s) && 0 <= VersionOf(s) <= 1 && target > 1
    ensures var b := After(env, target, s, FirstTasks(env.order));
            && Orderly(env, b) && VersionOf(b) == 1
            && OldAt(b, p) == if VersionOf(s) == 1 then OldAt(s, p) else None
  {
    var wrap := Each(AsWrapDataset, env.order);
    var a := After(env, target, s, wrap);
    assert forall i :: 0 <= i < |wrap| ==> Proper(wrap[i]) && !IsBump(wrap[i]);
    hide Item, ApplyAll, VersionOf, After, Orderly, OldAt, Each;
    if VersionOf(s) == 0 {
      AllWrapped(env, target, s, p);
    }
    RunAppend(env, target, s, wrap, [Bump1]);
    RunOrderly(env, target, s, wrap);
    RunOrderly(env, target, a, [Bump1]);
    RunDatasets(env, target, s, wrap, p);
    VersionKept(env, target, s, wrap);
    BumpOne(env, target, a);
    RunOne(env, target, a, Bump1);
    OneDataset(env, target, a, Bump1, p);
  }

  /** A run leaves an old dataset exactly as it was in a store of version 1, whose first migration
      is not run again, and none otherwise. */
  lemma DatasetsLeft(env: Env, target: int, s: Store, p: Path)
    requires ValidEnv(env) && Distinct(env.order) && Orderly(env, s) && 0 <= VersionOf(s) <= 1 && target > 1
    ensures OldAt(After(env, target, s, AllTasks(env.order)), p) == if VersionOf(s) == 1 then OldAt(s, p) else None
  {
    var first, second := FirstTasks(env.order), SecondPhases(env.order);
    var b := After(env, target, s, first);
    var c := After(env, target, b, second);
    assert AllTasks(env.order) == (first + second) + [Bump2];
    NoBumpsInPhases(env.order);
    hide FirstTasks, SecondPhases, AllTasks, Item, ApplyAll, VersionOf, After, Orderly, OldAt;
    FirstDatasets(env, target, s, p);
    RunAppend(env, target, s, first, second);
    RunAppend(env, target, s, first + second, [Bump2]);
    RunOrderly(env, target, b, second);
    RunDatasets(env, target, b, second, p);
    RunOne(env, target, c, Bump2);
    OneDataset(env, target, c, Bump2, p);
  }

  // ---- the layout an upgrade leaves ----

  /** The document at p is where the newest layout has it. */
  ghost predicate Settled(env: Env, p: Path, d: Doc) {
    && (d.Record? ==> p.dir != Flat && InPlace(env, p, d))
    && (d.Record? && (p.dir == Extrinsic || p.dir == Intrinsic) ==>
          forall i :: 0 <= i < |d.record.outer.associations| ==>
            var hash := d.record.outer.associations[i].tripleHash; hash.Some? ==> !IsFullHash(hash.value))
    && (p.dir == Intrinsic ==> !Legacy(p, d))
    && (p.dir == Triples ==> !IsFullHash(p.name))
  }

  lemma WorkLists(names: seq<string>, n: string)
    requires n in names
    ensures var work := FirstTasks(names) + SecondPhases(names);
            && MoveFlat(n) in work && WrapCalibration(n) in work && ReKeyTriple(n) in work
            && ReKeyAssociations(Extrinsic, n) in work && ReKeyAssociations(Intrinsic, n) in work
  {
    EachLists(AsMoveFlat, names, n);
    EachLists(AsWrapCalibration, names, n);
    EachLists(AsReKeyExtrinsic, names, n);
    EachLists(AsReKeyIntrinsic, names, n);
    EachLists(AsReKeyTriple, names, n);
    hide Each;
  }

  lemma ReKeyedAlready(rec: CalibrationRecord, i: nat)
    requires ReKeyRecord(rec) == rec && i < |rec.outer.associations|
    ensures var hash := rec.outer.associations[i].tripleHash; hash.Some? ==> !IsFullHash(hash.value)
  {
    assert ReKeyRecord(rec).outer.associations[i] == ReKeyAssociation(rec.outer.associations[i]);
  }

  /** Where all work is done, everything is where the newest layout has it. */
  lemma DoneIsSettled(env: Env, target: int, c: Store, p: Path)
    requires ValidEnv(env) && Upgrading(target, c) && Orderly(env, c) && p in c
    requires AllDone(env, target, c, FirstTasks(env.order) + SecondPhases(env.order))
    ensures Settled(env, p, c[p])
  {
    var work := FirstTasks(env.order) + SecondPhases(env.order);
    hide FirstTasks, SecondPhases, AllDone, Regular;
    if p.name in env.order {
      WorkLists(env.order, p.name);
      NothingToDo(env, target, c, work, MoveFlat(p.name));
      NothingToDo(env, target, c, work, WrapCalibration(p.name));
      NothingToDo(env, target, c, work, ReKeyTriple(p.name));
      NothingToDo(env, target, c, work, ReKeyAssociations(Extrinsic, p.name));
      NothingToDo(env, target, c, work, ReKeyAssociations(Intrinsic, p.name));
      if c[p].Record? && (p.dir == Extrinsic || p.dir == Intrinsic) {
        var rec := c[p].record;
        assert IsRecordId(p.name) && ReKeyRecord(rec) == rec;
        forall i | 0 <= i < |rec.outer.associations|
          ensures var hash := rec.outer.associations[i].tripleHash; hash.Some? ==> !IsFullHash(hash.value)
        {
          ReKeyedAlready(rec, i);
        }
      }
    }
  }

  /** After an upgrade from version 0 or 1 every record is in the directory of its kind under the
      hash of its payload, with its id and without a legacy hash in its bindings; no record is
      left flat, no calibration under its camera key, and no triple under a legacy hash. */
  lemma UpgradedLayout(env: Env, target: int, s: Store, p: Path)
    requires ValidEnv(env) && Distinct(env.order) && Orderly(env, s) && 0 <= VersionOf(s) <= 1 && target > 1
    ensures var end := After(env, target, s, AllTasks(env.order));
            VersionOf(end) == 2 && (p in end ==> Settled(env, p, end[p]))
  {
    var work := FirstTasks(env.order) + SecondPhases(env.order);
    var c := After(env, target, s, work);
    WorkDone(env, target, s);
    hide FirstTasks, SecondPhases, AllDone, Item, After, Orderly;
    RunOrderly(env, target, s, work);
    if p in c && p != SCHEMA_PATH {
      DoneIsSettled(env, target, c, p);
    }
  }

  /** After an upgrade every payload the store knew is filed under its hash in the directory of its
      kind, but for old datasets in a store of version 1. */
  lemma EverythingFiled(env: Env, target: int, s: Store, i: Inner)
    requires ValidEnv(env) && Distinct(env.order) && Orderly(env, s) && 0 <= VersionOf(s) <= 1 && target > 1
    requires Knows(s, Data(i))
    ensures var end := After(env, target, s, AllTasks(env.order));
            var q := Path(if i.ExtrinsicInner? then Extrinsic else Intrinsic, env.hash(i));
            || (q in end && end[q].Record? && end[q].record.inner == i)
            || (VersionOf(s) == 1 && exists p :: OldDataset(s, p) && LegacyInner(p, s[p]) == i)
  {
    hide AllTasks, RunOps, ApplyAll, After, Orderly, FactAt, OldAt;
    var end := After(env, target, s, AllTasks(env.order));
    KnownAtTheEnd(env, target, s, i);
    var p :| p in end && FactAt(p, end[p], Data(i));
    UpgradedLayout(env, target, s, p);
    DatasetsLeft(env, target, s, p);
    FiledWhere(env, end, p, i);
    OldAtIs(s, p);
  }

  lemma KnownAtTheEnd(env: Env, target: int, s: Store, i: Inner)
    requires ValidEnv(env) && Distinct(env.order) && Orderly(env, s) && Knows(s, Data(i))
    ensures Knows(After(env, target, s, AllTasks(env.order)), Data(i))
  {
    var ops := RunOps(env, target, s, AllTasks(env.order));
    assert ops[..|ops|] == ops;
    NothingLost(env, target, s, |ops|, Data(i));
  }

  lemma OldAtIs(s: Store, p: Path)
    ensures OldAt(s, p).Some? ==> OldDataset(s, p) && OldAt(s, p).value == s[p]
  {
  }

  lemma FiledWhere(env: Env, s: Store, p: Path, i: Inner)
    requires p in s && FactAt(p, s[p], Data(i)) && Settled(env, p, s[p])
    ensures || (s[p].Record? && s[p].record.inner == i
                && p == Path(if i.ExtrinsicInner? then Extrinsic else Intrinsic, env.hash(i)))
            || (OldAt(s, p) == Some(s[p]) && Legacy(p, s[p]) && LegacyInner(p, s[p]) == i)
  {
  }

  // ---- the metadata of a record ----

  /** The document at p says of a payload when it was created and what it is called. */
  ghost predicate StampAt(env: Env, p: Path, d: Doc, i: Inner, created: string, meta: string) {
    || (RecordDir(p.dir) && d.Record? && d.record.inner == i
        && d.record.outer.created == created && d.record.outer.meta == meta)
    || (Legacy(p, d) && LegacyInner(p, d) == i && env.created(p, d) == created && meta == "")
  }

  ghost predicate Stamped(env: Env, s: Store, i: Inner, created: string, meta: string) {
    exists p :: p in s && StampAt(env, p, s[p], i, created, meta)
  }

  lemma {:induction false} AddAllStamp(rec: CalibrationRecord, added: seq<Association>)
    ensures var out := AddAll(rec, added);
            out.inner == rec.inner && out.outer.created == rec.outer.created && out.outer.meta == rec.outer.meta
  {
    if added != [] {
      AddAllStamp(rec, added[..|added| - 1]);
    }
  }

  /** The record a task files says what the document it comes from says. */
  lemma FiledStamp(env: Env, target: int, s: Store, t: Task, i: Inner, created: string, meta: string)
    requires t.WrapDataset? || t.MoveFlat? || t.WrapCalibration?
    requires Item(env, target, s, t) != []
    ensures Source(t) in s
    ensures var rec := Filed(env, s, t);
            rec.inner == i && rec.outer.created == created && rec.outer.meta == meta ==>
              Stamped(env, s, i, created, meta)
  {
    var p := Source(t);
    if t.MoveFlat? {
      assert s[p].Record? && Filed(env, s, t).outer.created == s[p].record.outer.created;
    }
    assert StampAt(env, p, s[p], Filed(env, s, t).inner, Filed(env, s, t).outer.created, Filed(env, s, t).outer.meta);
  }

  lemma TaskStamps(env: Env, target: int, s: Store, t: Task, j: nat, i: Inner, created: string, meta: string)
    requires ValidEnv(env) && Proper(t) && j <= |Item(env, target, s, t)|
    requires Stamped(env, ApplyAll(s, Item(env, target, s, t)[..j]), i, created, meta)
    ensures Stamped(env, s, i, created, meta)
  {
    var ops := Item(env, target, s, t);
    AtMostTwo(env, target, s, t);
    CutOps(s, ops, j);
    TwoOps(s, ops);
    SecondClears(env, target, s, t);
    var c := ApplyAll(s, ops[..j]);
    var q :| q in c && StampAt(env, q, c[q], i, created, meta);
    if j > 0 && ops[0].Write? && q == ops[0].path {
      WrittenStamp(env, target, s, t, i, created, meta);
    }
  }

  /** What the first operation of a task writes says nothing new. */
  lemma WrittenStamp(env: Env, target: int, s: Store, t: Task, i: Inner, created: string, meta: string)
    requires ValidEnv(env) && Proper(t) && Item(env, target, s, t) != [] && Item(env, target, s, t)[0].Write?
    requires var op := Item(env, target, s, t)[0]; StampAt(env, op.path, op.doc, i, created, meta)
    ensures Stamped(env, s, i, created, meta)
  {
    if t.WrapDataset? || t.MoveFlat? || t.WrapCalibration? {
      FiledStamp(env, target, s, t, i, created, meta);
      MovingTask(env, target, s, t);
      var q, rec := Target(env, s, t), Filed(env, s, t);
      if q in s && s[q].Record? {
        AddAllStamp(s[q].record, rec.outer.associations);
        assert StampAt(env, q, s[q], s[q].record.inner, s[q].record.outer.created, s[q].record.outer.meta);
      }
    } else if t.ReKeyAssociations? {
      var q := Path(t.dir, t.name);
      assert StampAt(env, q, s[q], s[q].record.inner, s[q].record.outer.created, s[q].record.outer.meta);
    }
  }

  /** At every prefix of a run whatever a record says about its creation, its label and its sources
      is what the store said of that payload at the start. */
  lemma {:induction false} RunStamps(env: Env, target: int, s: Store, ts: seq<Task>, k: nat, i: Inner,
                                     created: string, meta: string)
    requires ValidEnv(env) && k <= |RunOps(env, target, s, ts)|
    requires forall n :: 0 <= n < |ts| ==> Proper(ts[n])
    requires Stamped(env, Cut(env, target, s, ts, k), i, created, meta)
    ensures Stamped(env, s, i, created, meta)
    decreases ts
  {
    hide Item, ApplyAll, Stamped;
    if ts == [] {
      NoOps(s);
    } else {
      var ops := Item(env, target, s, ts[0]);
      var next := ApplyAll(s, ops);
      var tail := RunOps(env, target, next, ts[1..]);
      assert ops[..|ops|] == ops;
      if k <= |ops| {
        assert (ops + tail)[..k] == ops[..k];
        TaskStamps(env, target, s, ts[0], k, i, created, meta);
      } else {
        assert (ops + tail)[..k] == ops + tail[..k - |ops|];
        ApplyAppend(s, ops, tail[..k - |ops|]);
        RunStamps(env, target, next, ts[1..], k - |ops|, i, created, meta);
        TaskStamps(env, target, s, ts[0], |ops|, i, created, meta);
      }
    }
  }

  // ---- triples that are where they belong ----

  lemma TaskKeepsTriples(env: Env, target: int, s: Store, t: Task, p: Path, i: nat)
    requires ValidEnv(env) && Proper(t) && p in s && p.dir == Triples && !IsFullHash(p.name)
    requires i < |Item(env, target, s, t)|
    ensures Item(env, target, s, t)[i].path != p
  {
  }

  /** At every prefix of a run a triple document that is under a short id is as it was: whatever is
      moved under its name, it wins. */
  lemma {:induction false} RunKeepsTriples(env: Env, target: int, s: Store, ts: seq<Task>, p: Path, k: nat)
    requires ValidEnv(env) && p in s && p.dir == Triples && !IsFullHash(p.name)
    requires k <= |RunOps(env, target, s, ts)| && forall i :: 0 <= i < |ts| ==> Proper(ts[i])
    ensures var c := Cut(env, target, s, ts, k); p in c && c[p] == s[p]
    decreases ts
  {
    hide Item, ApplyAll;
    if ts == [] {
      NoOps(s);
    } else {
      var ops := Item(env, target, s, ts[0]);
      var next := ApplyAll(s, ops);
      var tail := RunOps(env, target, next, ts[1..]);
      forall i | 0 <= i < |ops| ensures ops[i].path != p {
        TaskKeepsTriples(env, target, s, ts[0], p, i);
      }
      if k <= |ops| {
        assert (ops + tail)[..k] == ops[..k];
        OthersUntouched(s, ops[..k], p);
      } else {
        assert (ops + tail)[..k] == ops + tail[..k - |ops|];
        ApplyAppend(s, ops, tail[..k - |ops|]);
        OthersUntouched(s, ops, p);
        RunKeepsTriples(env, target, next, ts[1..], p, k - |ops|);
      }
    }
  }

  // ---- no legacy hash is written ----

  /** A record in a per-kind directory has a binding with a legacy hash. */
  ghost predicate LegacyBinding(s: Store, p: Path, a: Association) {
    && p in s && (p.dir == Extrinsic || p.dir == Intrinsic) && s[p].Record?
    && a in s[p].record.outer.associations && a.tripleHash.Some? && IsFullHash(a.tripleHash.value)
  }

  lemma {:induction false} AddAllIn(rec: CalibrationRecord, added: seq<Association>, a: Association)
    requires a in AddAll(rec, added).outer.associations
    ensures a in rec.outer.associations || a in added
  {
    if added != [] {
      var n := |added| - 1;
      if a in AddAll(rec, added[..n]).outer.associations {
        AddAllIn(rec, added[..n], a);
      }
    }
  }

  lemma PlacedShort(env: Env, rec: CalibrationRecord, a: Association)
    requires a in Placed(env, rec).outer.associations && a.tripleHash.Some?
    ensures !IsFullHash(a.tripleHash.value)
  {
  }

  lemma TaskShortens(env: Env, target: int, s: Store, t: Task, j: nat, p: Path, a: Association)
    requires ValidEnv(env) && Proper(t) && j <= |Item(env, target, s, t)|
    requires LegacyBinding(ApplyAll(s, Item(env, target, s, t)[..j]), p, a)
    ensures LegacyBinding(s, p, a)
  {
    var ops := Item(env, target, s, t);
    AtMostTwo(env, target, s, t);
    CutOps(s, ops, j);
    TwoOps(s, ops);
    SecondClears(env, target, s, t);
    if j > 0 && ops[0].Write? && p == ops[0].path {
      WrittenShort(env, target, s, t, a);
    }
  }

  /** What a task writes into a per-kind directory brings no legacy hash. */
  lemma WrittenShort(env: Env, target: int, s: Store, t: Task, a: Association)
    requires ValidEnv(env) && Proper(t) && Item(env, target, s, t) != []
    requires var op := Item(env, target, s, t)[0];
             && op.Write? && (op.path.dir == Extrinsic || op.path.dir == Intrinsic) && op.doc.Record?
             && a in op.doc.record.outer.associations && a.tripleHash.Some? && IsFullHash(a.tripleHash.value)
    ensures LegacyBinding(s, Item(env, target, s, t)[0].path, a)
  {
    if t.MoveFlat? || t.WrapCalibration? {
      MovingTask(env, target, s, t);
      var q, rec := Target(env, s, t), Filed(env, s, t);
      if a in rec.outer.associations {
        PlacedShort(env, if t.MoveFlat? then s[Source(t)].record else LegacyIntrinsic(env, t.name, s[Source(t)]), a);
        assert false;
      }
      if q in s && s[q].Record? {
        AddAllIn(s[q].record, rec.outer.associations, a);
      }
    }
  }

  /** At every prefix of a run a per-kind record has a legacy hash in a binding only where it had
      it at the start: whatever the run files there is re-keyed on the way. */
  lemma {:induction false} RunShortens(env: Env, target: int, s: Store, ts: seq<Task>, k: nat, p: Path, a: Association)
    requires ValidEnv(env) && k <= |RunOps(env, target, s, ts)|
    requires forall n :: 0 <= n < |ts| ==> Proper(ts[n])
    requires LegacyBinding(Cut(env, target, s, ts, k), p, a)
    ensures LegacyBinding(s, p, a)
    decreases ts
  {
    hide Item, ApplyAll, LegacyBinding;
    if ts == [] {
      NoOps(s);
    } else {
      var ops := Item(env, target, s, ts[0]);
      var next := ApplyAll(s, ops);
      var tail := RunOps(env, target, next, ts[1..]);
      assert ops[..|ops|] == ops;
      if k <= |ops| {
        assert (ops + tail)[..k] == ops[..k];
        TaskShortens(env, target, s, ts[0], k, p, a);
      } else {
        assert (ops + tail)[..k] == ops + tail[..k - |ops|];
        ApplyAppend(s, ops, tail[..k - |ops|]);
        RunShortens(env, target, next, ts[1..], k - |ops|, p, a);
        TaskShortens(env, target, s, ts[0], |ops|, p, a);
      }
    }
  }
}
