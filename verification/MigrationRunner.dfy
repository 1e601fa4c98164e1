/**
 The migrations as they run against the store: loops over listed names that read, write and
 clear documents, and the version loop around them. Every file operation is recorded.
 */
module MigrationRunner {
  import opened CalibrationRecords
  import opened Migrations
  import opened MigrationRuns

  /** The names a directory lists, in listing order. */
  function Listing(names: seq<string>, s: Store, dir: Dir): seq<string> {
    if names == [] then []
    else (if Path(dir, names[0]) in s then [names[0]] else []) + Listing(names[1..], s, dir)
  }

  // ---- listing first is the same as asking every name ----

  ghost predicate Phase(make: string -> Task, rank: nat) {
    && (forall n :: Rank(make(n)) == rank && Proper(make(n)))
    && (forall n, m :: make(n) == make(m) ==> n == m)
  }

  /** Names that were not there when the directory was listed give their tasks nothing to do,
      now or later in the phase, so a phase over the listing performs the operations of the
      phase over all names. */
  lemma {:induction false} ListedOnly(env: Env, target: int, s0: Store, s: Store, make: string -> Task, rank: nat,
                                      dir: Dir, names: seq<string>)
    requires ValidEnv(env) && Phase(make, rank) && Distinct(names)
    requires forall i :: 0 <= i < |names| && Path(dir, names[i]) !in s0 ==> Item(env, target, s, make(names[i])) == []
    ensures RunOps(env, target, s, Each(make, Listing(names, s0, dir))) == RunOps(env, target, s, Each(make, names))
    decreases names
  {
    hide Item, ApplyAll, RunOps, After, Each;
    if names == [] {
      assert Listing(names, s0, dir) == names;
    } else {
      var n, rest := names[0], names[1..];
      var ops, listed := Item(env, target, s, make(n)), Listing(names, s0, dir);
      EachFirst(make, names);
      RunFirst(env, target, s, Each(make, names));
      if Path(dir, n) in s0 {
        assert listed[1..] == Listing(rest, s0, dir);
        EachFirst(make, listed);
        RunFirst(env, target, s, Each(make, listed));
        RestStillDone(env, target, s0, s, make, rank, dir, names);
        ListedOnly(env, target, s0, ApplyAll(s, ops), make, rank, dir, rest);
      } else {
        assert listed == Listing(rest, s0, dir);
        NoOps(s);
        assert forall i :: 0 <= i < |rest| ==> rest[i] == names[i + 1];
        assert [] + RunOps(env, target, s, Each(make, rest)) == RunOps(env, target, s, Each(make, rest));
        ListedOnly(env, target, s0, s, make, rank, dir, rest);
      }
    }
  }

  lemma EachFirst(make: string -> Task, names: seq<string>)
    requires names != []
    ensures Each(make, names) != [] && Each(make, names)[0] == make(names[0])
    ensures Each(make, names)[1..] == Each(make, names[1..])
  {
  }

  lemma RestStillDone(env: Env, target: int, s0: Store, s: Store, make: string -> Task, rank: nat, dir: Dir,
                      names: seq<string>)
    requires ValidEnv(env) && Phase(make, rank) && Distinct(names) && names != []
    requires forall i :: 0 <= i < |names| && Path(dir, names[i]) !in s0 ==> Item(env, target, s, make(names[i])) == []
    ensures var t := ApplyAll(s, Item(env, target, s, make(names[0])));
            forall i :: 0 <= i < |names[1..]| && Path(dir, names[1..][i]) !in s0 ==>
                        Item(env, target, t, make(names[1..][i])) == []
  {
    hide Item, ApplyAll;
    var ops := Item(env, target, s, make(names[0]));
    assert ops[..|ops|] == ops;
    forall i | 0 <= i < |names[1..]| && Path(dir, names[1..][i]) !in s0
      ensures Item(env, target, ApplyAll(s, ops), make(names[1..][i])) == []
    {
      assert names[1..][i] == names[i + 1];
      StaysDone(env, target, s, make(names[i + 1]), make(names[0]), |ops|);
    }
  }

  // ---- the runner ----

  datatype Result =
    | Ran(from: int, to: int, applied: seq<string>)
    | NoMigrationFrom(version: int)

  /** The migrations between two versions, in order. */
  function Applied(from: int, to: int): seq<string> {
    (if from <= 0 < to then ["calibration-records-v2"] else [])
        + (if from <= 1 < to then ["per-kind-record-stores"] else [])
  }

  class MigrationFs {
    const env: Env
    var docs: Store
    var ops: seq<Op>

    constructor (env: Env, docs: Store)
      ensures this.env == env && this.docs == docs && ops == []
    {
      this.env, this.docs, this.ops := env, docs, [];
    }

    method WriteDoc(p: Path, d: Doc)
      modifies this
      ensures docs == old(docs)[p := d] && ops == old(ops) + [Write(p, d)]
    {
      docs := docs[p := d];
      ops := ops + [Write(p, d)];
    }

    method ClearDoc(p: Path)
      modifies this
      ensures docs == old(docs) - {p} && ops == old(ops) + [Clear(p)]
    {
      docs := docs - {p};
      ops := ops + [Clear(p)];
    }

    method List(dir: Dir) returns (names: seq<string>)
      ensures names == Listing(env.order, docs, dir)
    {
      names := [];
      var i := 0;
      while i < |env.order|
        invariant i <= |env.order| && names + Listing(env.order[i..], docs, dir) == Listing(env.order, docs, dir)
      {
        if Path(dir, env.order[i]) in docs {
          names := names + [env.order[i]];
        }
        assert env.order[i..][1..] == env.order[i + 1..];
        i := i + 1;
      }
    }

    /** Union a record onto the one already filed at q, or file it. */
    method Merge(q: Path, rec: CalibrationRecord)
      modifies this
      ensures ops == old(ops) + MergeOps(old(docs), q, rec) && docs == ApplyAll(old(docs), MergeOps(old(docs), q, rec))
    {
      ghost var s := docs;
      TwoOps(s, MergeOps(s, q, rec));
      if q in docs && docs[q].Record? {
        var merged := docs[q].record;
        var added := rec.outer.associations;
        for i := 0 to |added|
          invariant merged == AddAll(s[q].record, added[..i])
        {
          assert added[..i + 1][..i] == added[..i];
          merged := AddAssociation(merged, added[i]);
        }
        assert added[..|added|] == added;
        if merged != docs[q].record {
          WriteDoc(q, Record(merged));
        }
      } else {
        WriteDoc(q, Record(rec));
      }
    }

    /** One task performed: the store and the log move on by its operations. */
    ghost predicate Performed(target: int, s: Store, log: seq<Op>, t: Task)
      reads this
    {
      docs == ApplyAll(s, Item(env, target, s, t)) && ops == log + Item(env, target, s, t)
    }

    ghost predicate PerformedAll(target: int, s: Store, log: seq<Op>, ts: seq<Task>)
      reads this
    {
      docs == After(env, target, s, ts) && ops == log + RunOps(env, target, s, ts)
    }

    lemma OneMore(target: int, s0: Store, log0: seq<Op>, s: Store, log: seq<Op>, ts: seq<Task>, t: Task)
      requires s == After(env, target, s0, ts) && log == log0 + RunOps(env, target, s0, ts)
      requires Performed(target, s, log, t)
      ensures PerformedAll(target, s0, log0, ts + [t])
    {
      hide Item;
      RunAppend(env, target, s0, ts, [t]);
      var ops := Item(env, target, s, t);
      assert RunOps(env, target, s, [t]) == ops + [] == ops;
      assert log0 + (RunOps(env, target, s0, ts) + ops) == log + ops;
    }

    method FileAndClear(p: Path, q: Path, rec: CalibrationRecord)
      modifies this
      ensures docs == ApplyAll(old(docs), MergeOps(old(docs), q, rec) + [Clear(p)])
      ensures ops == old(ops) + (MergeOps(old(docs), q, rec) + [Clear(p)])
    {
      ghost var s := docs;
      Merge(q, rec);
      ApplyAppend(s, MergeOps(s, q, rec), [Clear(p)]);
      TwoOps(docs, [Clear(p)]);
      ClearDoc(p);
    }

    method WrapDatasetDoc(ghost target: int, key: string)
      requires VersionOf(docs) == 0 && target > 0
      modifies this
      ensures Performed(target, old(docs), old(ops), WrapDataset(key))
    {
      var p := Path(Extrinsic, key);
      if IsRaw(key) || p !in docs {
        return;
      }
      var dataset := docs[p];
      if !dataset.Dataset? || dataset.data == [] {
        return;
      }
      var rec := LegacyExtrinsic(env, key, dataset);
      FileAndClear(p, Path(Flat, rec.id), rec);
    }

    method MoveFlatDoc(ghost target: int, name: string)
      requires Upgrading(target, docs)
      modifies this
      ensures Performed(target, old(docs), old(ops), MoveFlat(name))
    {
      var p := Path(Flat, name);
      if p !in docs || !docs[p].Record? {
        return;
      }
      var rec := docs[p].record;
      FileAndClear(p, PlacedPath(env, DirOf(rec.inner), rec), Placed(env, rec));
    }

    method WrapCalibrationDoc(ghost target: int, name: string)
      requires Upgrading(target, docs)
      modifies this
      ensures Performed(target, old(docs), old(ops), WrapCalibration(name))
    {
      var p := Path(Intrinsic, name);
      if IsRaw(name) || IsRecordId(name) || p !in docs || !docs[p].Calibration? {
        return;
      }
      var rec := LegacyIntrinsic(env, name, docs[p]);
      FileAndClear(p, PlacedPath(env, Intrinsic, rec), Placed(env, rec));
    }

    method ReKeyAssociationsDoc(ghost target: int, dir: Dir, name: string)
      requires Upgrading(target, docs)
      modifies this
      ensures Performed(target, old(docs), old(ops), ReKeyAssociations(dir, name))
    {
      var p := Path(dir, name);
      if !IsRecordId(name) || p !in docs || !docs[p].Record? {
        return;
      }
      var rec := ReKeyRecord(docs[p].record);
      if rec != docs[p].record {
        TwoOps(docs, [Write(p, Record(rec))]);
        WriteDoc(p, Record(rec));
      }
    }

    method ReKeyTripleDoc(ghost target: int, name: string)
      requires Upgrading(target, docs)
      modifies this
      ensures Performed(target, old(docs), old(ops), ReKeyTriple(name))
    {
      var p, q := Path(Triples, name), Path(Triples, ReKeyName(name));
      if q == p || p !in docs {
        return;
      }
      TwoOps(docs, (if q in docs then [] else [Write(q, docs[p])]) + [Clear(p)]);
      if q !in docs {
        WriteDoc(q, docs[p]);
      }
      ClearDoc(p);
    }

    // ---- the loops ----

    lemma LoopStep(target: int, s0: Store, log0: seq<Op>, s: Store, log: seq<Op>, make: string -> Task,
                   names: seq<string>, i: nat)
      requires i < |names| && Proper(make(names[i])) && !IsBump(make(names[i]))
      requires s == After(env, target, s0, Each(make, names[..i]))
      requires log == log0 + RunOps(env, target, s0, Each(make, names[..i]))
      requires Performed(target, s, log, make(names[i]))
      ensures PerformedAll(target, s0, log0, Each(make, names[..i + 1])) && VersionOf(docs) == VersionOf(s)
    {
      hide Item, ApplyAll;
      assert Each(make, names[..i + 1]) == Each(make, names[..i]) + [make(names[i])];
      OneMore(target, s0, log0, s, log, Each(make, names[..i]), make(names[i]));
      VersionKept(env, target, s, [make(names[i])]);
      FirstTask(env, target, s, [make(names[i])]);
      NoOps(docs);
    }

    lemma LoopStart(target: int, make: string -> Task, names: seq<string>)
      ensures PerformedAll(target, docs, ops, Each(make, names[..0]))
    {
    }

    lemma LoopEnd(target: int, s0: Store, log0: seq<Op>, make: string -> Task, rank: nat, dir: Dir, names: seq<string>)
      requires ValidEnv(env) && Distinct(env.order) && Phase(make, rank) && names == Listing(env.order, s0, dir)
      requires PerformedAll(target, s0, log0, Each(make, names[..|names|]))
      requires forall n :: Path(dir, n) !in s0 ==> Item(env, target, s0, make(n)) == []
      ensures PerformedAll(target, s0, log0, Each(make, env.order))
    {
      assert names[..|names|] == names;
      ListedOnly(env, target, s0, s0, make, rank, dir, env.order);
    }

    /** Version 0 to 1: wrap every legacy dataset as a record. */
    method MigrateExtrinsicToRecords(ghost target: int)
      requires ValidEnv(env) && Distinct(env.order) && VersionOf(docs) == 0 && target > 0
      modifies this
      ensures PerformedAll(target, old(docs), old(ops), Each(AsWrapDataset, env.order)) && VersionOf(docs) == 0
    {
      hide Item, ApplyAll;
      ghost var s, log := docs, ops;
      var keys := List(Extrinsic);
      LoopStart(target, AsWrapDataset, keys);
      for i := 0 to |keys|
        invariant PerformedAll(target, s, log, Each(AsWrapDataset, keys[..i])) && VersionOf(docs) == 0
      {
        ghost var d, l := docs, ops;
        WrapDatasetDoc(target, keys[i]);
        LoopStep(target, s, log, d, l, AsWrapDataset, keys, i);
      }
      AbsentNothing(env, target, s);
      LoopEnd(target, s, log, AsWrapDataset, 0, Extrinsic, keys);
    }

    method MoveFlatDocs(ghost target: int)
      requires ValidEnv(env) && Distinct(env.order) && Upgrading(target, docs)
      modifies this
      ensures PerformedAll(target, old(docs), old(ops), Each(AsMoveFlat, env.order)) && Upgrading(target, docs)
    {
      hide Item, ApplyAll;
      ghost var s, log := docs, ops;
      var names := List(Flat);
      LoopStart(target, AsMoveFlat, names);
      for i := 0 to |names|
        invariant PerformedAll(target, s, log, Each(AsMoveFlat, names[..i])) && Upgrading(target, docs)
      {
        ghost var d, l := docs, ops;
        MoveFlatDoc(target, names[i]);
        LoopStep(target, s, log, d, l, AsMoveFlat, names, i);
      }
      AbsentNothing(env, target, s);
      LoopEnd(target, s, log, AsMoveFlat, 2, Flat, names);
    }

    method WrapCalibrations(ghost target: int)
      requires ValidEnv(env) && Distinct(env.order) && Upgrading(target, docs)
      modifies this
      ensures PerformedAll(target, old(docs), old(ops), Each(AsWrapCalibration, env.order)) && Upgrading(target, docs)
    {
      hide Item, ApplyAll;
      ghost var s, log := docs, ops;
      var names := List(Intrinsic);
      LoopStart(target, AsWrapCalibration, names);
      for i := 0 to |names|
        invariant PerformedAll(target, s, log, Each(AsWrapCalibration, names[..i])) && Upgrading(target, docs)
      {
        ghost var d, l := docs, ops;
        WrapCalibrationDoc(target, names[i]);
        LoopStep(target, s, log, d, l, AsWrapCalibration, names, i);
      }
      AbsentNothing(env, target, s);
      LoopEnd(target, s, log, AsWrapCalibration, 3, Intrinsic, names);
    }

    method ReKeyDirectory(ghost target: int, dir: Dir)
      requires ValidEnv(env) && Distinct(env.order) && Upgrading(target, docs) && (dir == Extrinsic || dir == Intrinsic)
      modifies this
      ensures PerformedAll(target, old(docs), old(ops),
                           Each(if dir == Extrinsic then AsReKeyExtrinsic else AsReKeyIntrinsic, env.order))
      ensures Upgrading(target, docs)
    {
      hide Item, ApplyAll;
      ghost var s, log := docs, ops;
      ghost var make := if dir == Extrinsic then AsReKeyExtrinsic else AsReKeyIntrinsic;
      var ids := List(dir);
      LoopStart(target, make, ids);
      for i := 0 to |ids|
        invariant PerformedAll(target, s, log, Each(make, ids[..i])) && Upgrading(target, docs)
      {
        ghost var d, l := docs, ops;
        ReKeyAssociationsDoc(target, dir, ids[i]);
        LoopStep(target, s, log, d, l, make, ids, i);
      }
      AbsentNothing(env, target, s);
      LoopEnd(target, s, log, make, 4, dir, ids);
    }

    method ReKeyTriples(ghost target: int)
      requires ValidEnv(env) && Distinct(env.order) && Upgrading(target, docs)
      modifies this
      ensures PerformedAll(target, old(docs), old(ops), Each(AsReKeyTriple, env.order)) && Upgrading(target, docs)
    {
      hide Item, ApplyAll;
      ghost var s, log := docs, ops;
      var names := List(Triples);
      LoopStart(target, AsReKeyTriple, names);
      for i := 0 to |names|
        invariant PerformedAll(target, s, log, Each(AsReKeyTriple, names[..i])) && Upgrading(target, docs)
      {
        ghost var d, l := docs, ops;
        ReKeyTripleDoc(target, names[i]);
        LoopStep(target, s, log, d, l, AsReKeyTriple, names, i);
      }
      AbsentNothing(env, target, s);
      LoopEnd(target, s, log, AsReKeyTriple, 5, Triples, names);
    }

    lemma Then(target: int, s0: Store, log0: seq<Op>, s: Store, log: seq<Op>, a: seq<Task>, b: seq<Task>)
      requires s == After(env, target, s0, a) && log == log0 + RunOps(env, target, s0, a)
      requires PerformedAll(target, s, log, b)
      ensures PerformedAll(target, s0, log0, a + b)
    {
      hide Item, ApplyAll;
      RunAppend(env, target, s0, a, b);
    }

    /** Version 1 to 2: the five passes over the store. */
    method MigrateToPerKindRecords(ghost target: int)
      requires ValidEnv(env) && Distinct(env.order) && Upgrading(target, docs)
      modifies this
      ensures PerformedAll(target, old(docs), old(ops), SecondPhases(env.order)) && Upgrading(target, docs)
    {
      hide Item, ApplyAll;
      ghost var s, log, names := docs, ops, env.order;
      MoveFlatDocs(target);
      ghost var a := Each(AsMoveFlat, names);
      ghost var d, l := docs, ops;
      WrapCalibrations(target);
      Then(target, s, log, d, l, a, Each(AsWrapCalibration, names));
      a, d, l := a + Each(AsWrapCalibration, names), docs, ops;
      ReKeyDirectory(target, Extrinsic);
      Then(target, s, log, d, l, a, Each(AsReKeyExtrinsic, names));
      a, d, l := a + Each(AsReKeyExtrinsic, names), docs, ops;
      ReKeyDirectory(target, Intrinsic);
      Then(target, s, log, d, l, a, Each(AsReKeyIntrinsic, names));
      a, d, l := a + Each(AsReKeyIntrinsic, names), docs, ops;
      ReKeyTriples(target);
      Then(target, s, log, d, l, a, Each(AsReKeyTriple, names));
    }

    lemma StartsBehind(target: int)
      ensures PerformedAll(target, docs, ops, Behind(VersionOf(docs), env.order))
    {
      if VersionOf(docs) == 1 {
        FirstIdle(env, target, docs);
      } else if VersionOf(docs) > 1 {
        Idle(env, target, docs, AllTasks(env.order));
      } else {
        assert RunOps(env, target, docs, []) == [];
      }
    }

    /** A run that stops at the target or has no migration to go on with has performed all
        the tasks it lists: the ones ahead of it have nothing to do. */
    lemma EndsAhead(target: int, s0: Store, log0: seq<Op>)
      requires PerformedAll(target, s0, log0, Behind(VersionOf(docs), env.order))
      requires VersionOf(docs) >= target || VersionOf(docs) < 0 || VersionOf(docs) > 1
      ensures PerformedAll(target, s0, log0, AllTasks(env.order))
    {
      hide Item, ApplyAll, RunOps, After, FirstTasks, SecondPhases;
      var all, behind := AllTasks(env.order), Behind(VersionOf(docs), env.order);
      var ahead := all[|behind|..];
      assert all == behind + ahead;
      Idle(env, target, docs, ahead);
      assert docs == After(env, target, docs, ahead);
      Then(target, s0, log0, docs, ops, behind, ahead);
    }

    method WriteVersion(version: int)
      modifies this
      ensures docs == old(docs)[SCHEMA_PATH := Version(version)]
      ensures ops == old(ops) + [Write(SCHEMA_PATH, Version(version))]
      ensures VersionOf(docs) == version
    {
      WriteDoc(SCHEMA_PATH, Version(version));
    }

    /** Bring the store up to the target version. The version only rises, and the file
        operations are exactly those of the listed tasks. */
    method RunMigrations(target: int) returns (r: Result)
      requires ValidEnv(env) && Distinct(env.order)
      modifies this
      ensures PerformedAll(target, old(docs), old(ops), AllTasks(env.order))
      ensures var from := old(VersionOf(docs));
              && (r.Ran? <==> from >= target || (0 <= from && target <= 2))
              && (r.Ran? ==> (r.from == from && r.to == VersionOf(docs) == (if from >= target then from else target)
                           && r.applied == Applied(from, r.to)))
              && (r.NoMigrationFrom? ==> from <= r.version == VersionOf(docs) < target)
              && (r.NoMigrationFrom? ==> r.version < 0 || r.version == 2 || r.version == from)
      ensures old(VersionOf(docs)) >= target ==> ops == old(ops)
    {
      hide Item, ApplyAll, RunOps, After, Each;
      ghost var s, log := docs, ops;
      var from := VersionOf(docs);
      StartsBehind(target);
      if from >= target {
        EndsAhead(target, s, log);
        Idle(env, target, s, AllTasks(env.order));
        return Ran(from, from, []);
      }
      var current, applied := from, [];
      while current < target
        invariant current == VersionOf(docs) && from <= current
        invariant current == from || (1 <= current <= 2 && from >= 0 && current <= target)
        invariant PerformedAll(target, s, log, Behind(current, env.order))
        invariant applied == Applied(from, current)
        decreases target - current
      {
        ghost var d, l := docs, ops;
        if current == 0 {
          MigrateExtrinsicToRecords(target);
          BumpItem(env, target, docs, Bump1);
          ghost var e, m := docs, ops;
          WriteVersion(1);
          Then(target, d, l, e, m, Each(AsWrapDataset, env.order), [Bump1]);
          Then(target, s, log, d, l, [], FirstTasks(env.order));
          assert [] + FirstTasks(env.order) == FirstTasks(env.order);
          applied, current := applied + ["calibration-records-v2"], 1;
        } else if current == 1 {
          MigrateToPerKindRecords(target);
          BumpItem(env, target, docs, Bump2);
          ghost var e, m := docs, ops;
          WriteVersion(2);
          Then(target, d, l, e, m, SecondPhases(env.order), [Bump2]);
          Then(target, s, log, d, l, FirstTasks(env.order), SecondPhases(env.order) + [Bump2]);
          assert FirstTasks(env.order) + (SecondPhases(env.order) + [Bump2]) == AllTasks(env.order);
          applied, current := applied + ["per-kind-record-stores"], 2;
        } else {
          EndsAhead(target, s, log);
          return NoMigrationFrom(current);
        }
      }
      EndsAhead(target, s, log);
      r := Ran(from, current, applied);
    }
  }

  /** A version write that is due is one operation. */
  lemma BumpItem(env: Env, target: int, s: Store, t: Task)
    requires (t.Bump1? && VersionOf(s) == 0 && target > 0) || (t.Bump2? && Upgrading(target, s))
    ensures var v := Version(if t.Bump1? then 1 else 2);
            RunOps(env, target, s, [t]) == [Write(SCHEMA_PATH, v)] && After(env, target, s, [t]) == s[SCHEMA_PATH := v]
  {
    var ops := Item(env, target, s, t);
    assert RunOps(env, target, s, [t]) == ops + [] == ops;
    TwoOps(s, ops);
  }

  /** At a version no migration starts from, or at the target, no task has anything to do. */
  lemma Idle(env: Env, target: int, s: Store, ts: seq<Task>)
    requires VersionOf(s) >= target || VersionOf(s) < 0 || VersionOf(s) > 1
    ensures RunOps(env, target, s, ts) == [] && After(env, target, s, ts) == s
  {
    forall i | 0 <= i < |ts| ensures Item(env, target, s, ts[i]) == [] {
    }
    DoneRunsNothing(env, target, s, ts);
  }

  /** At version 1 the tasks of the first migration have nothing to do. */
  lemma FirstIdle(env: Env, target: int, s: Store)
    requires VersionOf(s) == 1
    ensures RunOps(env, target, s, FirstTasks(env.order)) == [] && After(env, target, s, FirstTasks(env.order)) == s
  {
    var ts := FirstTasks(env.order);
    forall i | 0 <= i < |ts| ensures Item(env, target, s, ts[i]) == [] {
      assert ts[i].WrapDataset? || ts[i].Bump1?;
    }
    DoneRunsNothing(env, target, s, ts);
  }

  /** The tasks a run that reached this version has behind it. */
  function Behind(version: int, names: seq<string>): seq<Task> {
    if version <= 0 then [] else if version == 1 then FirstTasks(names) else AllTasks(names)
  }

  /** A task whose document is absent has nothing to do. */
  lemma AbsentNothing(env: Env, target: int, s: Store)
    ensures forall n :: Path(Extrinsic, n) !in s ==> Item(env, target, s, AsWrapDataset(n)) == []
    ensures forall n :: Path(Flat, n) !in s ==> Item(env, target, s, AsMoveFlat(n)) == []
    ensures forall n :: Path(Intrinsic, n) !in s ==> Item(env, target, s, AsWrapCalibration(n)) == []
    ensures forall n :: Path(Extrinsic, n) !in s ==> Item(env, target, s, AsReKeyExtrinsic(n)) == []
    ensures forall n :: Path(Intrinsic, n) !in s ==> Item(env, target, s, AsReKeyIntrinsic(n)) == []
    ensures forall n :: Path(Triples, n) !in s ==> Item(env, target, s, AsReKeyTriple(n)) == []
  {
  }
}
