/**
 Whole migration runs: a run cut after any file operation and started again ends in the store
 the uninterrupted run ends in, and a completed run leaves nothing to do.
 */
module MigrationRuns {
  import opened CalibrationRecords
  import opened Migrations

  ghost predicate Distinct<T>(xs: seq<T>) {
    forall i, j :: 0 <= i < j < |xs| ==> xs[i] != xs[j]
  }

  function Each(make: string -> Task, names: seq<string>): (ts: seq<Task>)
    ensures |ts| == |names| && forall i :: 0 <= i < |ts| ==> ts[i] == make(names[i])
  {
    seq(|names|, i requires 0 <= i < |names| => make(names[i]))
  }

  function AsWrapDataset(n: string): Task { WrapDataset(n) }
  function AsMoveFlat(n: string): Task { MoveFlat(n) }
  function AsWrapCalibration(n: string): Task { WrapCalibration(n) }
  function AsReKeyExtrinsic(n: string): Task { ReKeyAssociations(Extrinsic, n) }
  function AsReKeyIntrinsic(n: string): Task { ReKeyAssociations(Intrinsic, n) }
  function AsReKeyTriple(n: string): Task { ReKeyTriple(n) }

  /** Version 0 to 1, then the version write. */
  function FirstTasks(names: seq<string>): seq<Task> {
    Each(AsWrapDataset, names) + [Bump1]
  }

  /** The four phases of version 1 to 2. */
  function SecondPhases(names: seq<string>): seq<Task> {
    Each(AsMoveFlat, names) + Each(AsWrapCalibration, names)
    + Each(AsReKeyExtrinsic, names) + Each(AsReKeyIntrinsic, names)
    + Each(AsReKeyTriple, names)
  }

  function AllTasks(names: seq<string>): seq<Task> {
    FirstTasks(names) + SecondPhases(names) + [Bump2]
  }

  /** Stages never go back, no task is listed twice. */
  ghost predicate Ordered(ts: seq<Task>) {
    && (forall i :: 0 <= i < |ts| ==> Proper(ts[i]))
    && (forall i, j :: 0 <= i < j < |ts| ==> ts[i] != ts[j] && Rank(ts[i]) <= Rank(ts[j]))
  }

  /** The place of a task's phase in the run. */
  function Stage(t: Task): nat {
    2 * Rank(t) + if t.ReKeyAssociations? && t.dir == Intrinsic then 1 else 0
  }

  ghost predicate Staged(ts: seq<Task>, from: nat, to: nat) {
    Ordered(ts) && forall i :: 0 <= i < |ts| ==> from <= Stage(ts[i]) < to
  }

  lemma StagedConcat(a: seq<Task>, b: seq<Task>, from: nat, mid: nat, to: nat)
    requires Staged(a, from, mid) && Staged(b, mid, to) && from <= mid <= to
    ensures Staged(a + b, from, to)
  {
    var ts, n := a + b, |a|;
    forall i, j | 0 <= i < j < |ts| ensures ts[i] != ts[j] && Rank(ts[i]) <= Rank(ts[j]) {
      if i < n <= j {
        assert Stage(a[i]) < mid <= Stage(b[j - n]);
      }
    }
  }

  lemma EachStaged(make: string -> Task, names: seq<string>, stage: nat)
    requires Distinct(names) && forall n :: Stage(make(n)) == stage && Proper(make(n))
    requires forall n, m :: make(n) == make(m) ==> n == m
    ensures Staged(Each(make, names), stage, stage + 1)
  {
  }

  lemma AllTasksOrdered(names: seq<string>)
    requires Distinct(names)
    ensures Ordered(AllTasks(names))
  {
    EachStaged(AsWrapDataset, names, 0);
    EachStaged(AsMoveFlat, names, 4);
    EachStaged(AsWrapCalibration, names, 6);
    EachStaged(AsReKeyExtrinsic, names, 8);
    EachStaged(AsReKeyIntrinsic, names, 9);
    EachStaged(AsReKeyTriple, names, 10);
    assert Staged([Bump1], 1, 4) && Staged([Bump2], 11, 13);
    var a, b, c, d, e, f := Each(AsWrapDataset, names), Each(AsMoveFlat, names), Each(AsWrapCalibration, names),
      Each(AsReKeyExtrinsic, names), Each(AsReKeyIntrinsic, names), Each(AsReKeyTriple, names);
    assert AllTasks(names) == (a + [Bump1]) + ((((b + c) + d) + e) + f) + [Bump2];
    hide *;
    Widen(b, 4, 5, 6);
    Widen(c, 6, 7, 8);
    StagedConcat(b, c, 4, 6, 8);
    StagedConcat(b + c, d, 4, 8, 9);
    StagedConcat(b + c + d, e, 4, 9, 10);
    StagedConcat(b + c + d + e, f, 4, 10, 11);
    StagedConcat(a, [Bump1], 0, 1, 4);
    StagedConcat(a + [Bump1], b + c + d + e + f, 0, 4, 11);
    StagedConcat((a + [Bump1]) + (b + c + d + e + f), [Bump2], 0, 11, 13);
    StagedOrdered((a + [Bump1]) + (b + c + d + e + f) + [Bump2], 0, 13);
  }

  lemma Widen(ts: seq<Task>, from: nat, to: nat, wider: nat)
    requires Staged(ts, from, to) && to <= wider
    ensures Staged(ts, from, wider)
  {
  }

  lemma StagedOrdered(ts: seq<Task>, from: nat, to: nat)
    requires Staged(ts, from, to)
    ensures Ordered(ts)
  {
  }

  // ---- tasks that are done stay done ----

  ghost predicate AllDone(env: Env, target: int, s: Store, ts: seq<Task>) {
    forall i :: 0 <= i < |ts| ==> Item(env, target, s, ts[i]) == []
  }

  lemma {:induction false} DoneRunsNothing(env: Env, target: int, s: Store, ts: seq<Task>)
    requires AllDone(env, target, s, ts)
    ensures RunOps(env, target, s, ts) == [] && After(env, target, s, ts) == s
  {
    if ts != [] {
      NoOps(s);
      hide Item, ApplyAll;
      DoneRunsNothing(env, target, s, ts[1..]);
    }
  }

  lemma StillDone(env: Env, target: int, s: Store, done: seq<Task>, t: Task, j: nat)
    requires ValidEnv(env) && AllDone(env, target, s, done) && j <= |Item(env, target, s, t)| && Proper(t)
    requires forall i :: 0 <= i < |done| ==> Proper(done[i]) && done[i] != t && Rank(done[i]) <= Rank(t)
    ensures AllDone(env, target, ApplyAll(s, Item(env, target, s, t)[..j]), done)
  {
    hide Item, ApplyAll;
    forall i | 0 <= i < |done| ensures Item(env, target, ApplyAll(s, Item(env, target, s, t)[..j]), done[i]) == [] {
      StaysDone(env, target, s, done[i], t, j);
    }
  }

  lemma OrderedSplit(done: seq<Task>, todo: seq<Task>)
    requires Ordered(done + todo) && todo != []
    ensures Proper(todo[0])
    ensures forall i :: 0 <= i < |done| ==> Proper(done[i]) && done[i] != todo[0] && Rank(done[i]) <= Rank(todo[0])
    ensures done + todo == (done + [todo[0]]) + todo[1..]
  {
    var all := done + todo;
    assert all[|done|] == todo[0];
    forall i | 0 <= i < |done| ensures all[i] == done[i] {
    }
  }

  /** One task of a run, completed: everything up to and including it is done. */
  lemma OneMoreDone(env: Env, target: int, s: Store, done: seq<Task>, todo: seq<Task>)
    requires ValidEnv(env) && Ordered(done + todo) && todo != [] && AllDone(env, target, s, done)
    ensures AllDone(env, target, ApplyAll(s, Item(env, target, s, todo[0])), done + [todo[0]])
    ensures Ordered((done + [todo[0]]) + todo[1..])
  {
    var t := todo[0];
    var ops := Item(env, target, s, t);
    OrderedSplit(done, todo);
    assert ops[..|ops|] == ops;
    hide Item, ApplyAll;
    StillDone(env, target, s, done, t, |ops|);
    DoneAfter(env, target, s, t);
  }

  /** Everything is done at the end of a run. */
  lemma {:induction false} AllDoneAfter(env: Env, target: int, s: Store, done: seq<Task>, todo: seq<Task>)
    requires ValidEnv(env) && Ordered(done + todo) && AllDone(env, target, s, done)
    ensures AllDone(env, target, After(env, target, s, todo), done + todo)
    decreases todo
  {
    if todo == [] {
      assert done + todo == done;
      NoOps(s);
    } else {
      var ops := Item(env, target, s, todo[0]);
      OneMoreDone(env, target, s, done, todo);
      OrderedSplit(done, todo);
      AllDoneAfter(env, target, ApplyAll(s, ops), done + [todo[0]], todo[1..]);
      ApplyAppend(s, ops, RunOps(env, target, ApplyAll(s, ops), todo[1..]));
    }
  }

  // ---- crash and rerun ----

  /** The store after the first k operations of a run. */
  function Cut(env: Env, target: int, s: Store, ts: seq<Task>, k: nat): Store
    requires k <= |RunOps(env, target, s, ts)|
  {
    ApplyAll(s, RunOps(env, target, s, ts)[..k])
  }

  /** The cut falls inside the first task of todo. */
  lemma CutInTask(env: Env, target: int, s: Store, done: seq<Task>, todo: seq<Task>, k: nat)
    requires ValidEnv(env) && Ordered(done + todo) && todo != [] && AllDone(env, target, s, done)
    requires k <= |Item(env, target, s, todo[0])|
    ensures k <= |RunOps(env, target, s, todo)|
    ensures After(env, target, Cut(env, target, s, todo, k), done + todo) == After(env, target, s, todo)
  {
    hide Item, ApplyAll;
    var t, rest := todo[0], todo[1..];
    var ops := Item(env, target, s, t);
    var tail := RunOps(env, target, ApplyAll(s, ops), rest);
    assert (ops + tail)[..k] == ops[..k];
    var c := ApplyAll(s, ops[..k]);
    OrderedSplit(done, todo);
    StillDone(env, target, s, done, t, k);
    DoneRunsNothing(env, target, c, done);
    RunAppend(env, target, c, done, todo);
    Redo(env, target, s, t, k);
    FirstTask(env, target, c, todo);
    FirstTask(env, target, s, todo);
  }

  lemma FirstTask(env: Env, target: int, s: Store, todo: seq<Task>)
    requires todo != []
    ensures After(env, target, s, todo) == After(env, target, ApplyAll(s, Item(env, target, s, todo[0])), todo[1..])
  {
    hide Item, ApplyAll;
    var ops := Item(env, target, s, todo[0]);
    ApplyAppend(s, ops, RunOps(env, target, ApplyAll(s, ops), todo[1..]));
  }

  /** Running everything again from the store a cut left ends where the uncut run ends. */
  lemma {:induction false} Resume(env: Env, target: int, s: Store, done: seq<Task>, todo: seq<Task>, k: nat)
    requires ValidEnv(env) && Ordered(done + todo) && AllDone(env, target, s, done)
    requires k <= |RunOps(env, target, s, todo)|
    ensures After(env, target, Cut(env, target, s, todo, k), done + todo) == After(env, target, s, todo)
    decreases todo
  {
    hide Item, ApplyAll;
    if todo == [] {
      NoOps(s);
      assert done + todo == done && RunOps(env, target, s, todo)[..k] == [];
      DoneRunsNothing(env, target, s, done);
    } else {
      var t, rest := todo[0], todo[1..];
      var ops := Item(env, target, s, t);
      if k <= |ops| {
        CutInTask(env, target, s, done, todo, k);
      } else {
        var next := ApplyAll(s, ops);
        OneMoreDone(env, target, s, done, todo);
        OrderedSplit(done, todo);
        Resume(env, target, next, done + [t], rest, k - |ops|);
        FirstTask(env, target, s, todo);
        var tail := RunOps(env, target, next, rest);
        assert (ops + tail)[..k] == ops + tail[..k - |ops|];
        ApplyAppend(s, ops, tail[..k - |ops|]);
      }
    }
  }

  /** A run cut after any of its file operations and started again ends in the same store as
      an uninterrupted run. */
  lemma CrashAndRerun(env: Env, target: int, s: Store, k: nat)
    requires ValidEnv(env) && Distinct(env.order) && k <= |RunOps(env, target, s, AllTasks(env.order))|
    ensures var ts := AllTasks(env.order);
            After(env, target, Cut(env, target, s, ts, k), ts) == After(env, target, s, ts)
  {
    var ts := AllTasks(env.order);
    AllTasksOrdered(env.order);
    hide Item, ApplyAll, AllTasks;
    assert [] + ts == ts;
    Resume(env, target, s, [], ts, k);
  }

  /** Any number of crashes: however often a run is cut and started again, it ends in the same
      store. `cuts` are the numbers of operations the successive runs get to perform. */
  function Crashes(env: Env, target: int, s: Store, cuts: seq<nat>): Store {
    if cuts == [] then s
    else
      var c, ts := Crashes(env, target, s, cuts[..|cuts| - 1]), AllTasks(env.order);
      var ops := RunOps(env, target, c, ts);
      ApplyAll(c, ops[..if cuts[|cuts| - 1] <= |ops| then cuts[|cuts| - 1] else |ops|])
  }

  lemma {:induction false} ManyCrashes(env: Env, target: int, s: Store, cuts: seq<nat>)
    requires ValidEnv(env) && Distinct(env.order)
    ensures var ts := AllTasks(env.order);
            After(env, target, Crashes(env, target, s, cuts), ts) == After(env, target, s, ts)
  {
    if cuts != [] {
      var n := |cuts| - 1;
      ManyCrashes(env, target, s, cuts[..n]);
      var c, ts := Crashes(env, target, s, cuts[..n]), AllTasks(env.order);
      var ops := RunOps(env, target, c, ts);
      hide ApplyAll, Item, AllTasks;
      CrashAndRerun(env, target, c, if cuts[n] <= |ops| then cuts[n] else |ops|);
    }
  }

  /** A second full run writes nothing. */
  lemma SecondRunWritesNothing(env: Env, target: int, s: Store)
    requires ValidEnv(env) && Distinct(env.order)
    ensures var ts := AllTasks(env.order); RunOps(env, target, After(env, target, s, ts), ts) == []
  {
    var ts := AllTasks(env.order);
    AllTasksOrdered(env.order);
    hide Item, ApplyAll, AllTasks;
    assert [] + ts == ts;
    AllDoneAfter(env, target, s, [], ts);
    DoneRunsNothing(env, target, After(env, target, s, ts), ts);
  }

  /** When a crash loses only the version write, the migration finds all its own work done:
      the run after it performs that one write and nothing else. */
  lemma LostVersionWrite(env: Env, target: int, s: Store)
    requires ValidEnv(env) && Distinct(env.order) && target > 1
    ensures var work := FirstTasks(env.order) + SecondPhases(env.order);
            var c := After(env, target, s, work);
            RunOps(env, target, c, AllTasks(env.order)) ==
            if VersionOf(c) == 1 then [Write(SCHEMA_PATH, Version(2))] else []
  {
    var work := FirstTasks(env.order) + SecondPhases(env.order);
    var c := After(env, target, s, work);
    AllTasksOrdered(env.order);
    assert AllTasks(env.order) == work + [Bump2];
    LastTask(env, target, c);
    hide FirstTasks, SecondPhases, AllTasks, Item, ApplyAll, VersionOf, After;
    WorkOrdered(work);
    assert [] + work == work;
    AllDoneAfter(env, target, s, [], work);
    DoneRunsNothing(env, target, c, work);
    RunAppend(env, target, c, work, [Bump2]);
  }

  lemma LastTask(env: Env, target: int, c: Store)
    requires target > 1
    ensures RunOps(env, target, c, [Bump2]) == if VersionOf(c) == 1 then [Write(SCHEMA_PATH, Version(2))] else []
  {
    assert RunOps(env, target, c, [Bump2]) == Item(env, target, c, Bump2) + [];
  }

  lemma WorkOrdered(work: seq<Task>)
    requires Ordered(work + [Bump2])
    ensures Ordered(work)
  {
    forall i | 0 <= i < |work| ensures (work + [Bump2])[i] == work[i] {
    }
  }

  // ---- the version ----

  predicate IsBump(t: Task) {
    t.Bump1? || t.Bump2?
  }

  lemma {:induction false} VersionKept(env: Env, target: int, s: Store, ts: seq<Task>)
    requires forall i :: 0 <= i < |ts| ==> Proper(ts[i]) && !IsBump(ts[i])
    ensures VersionOf(After(env, target, s, ts)) == VersionOf(s)
    decreases ts
  {
    if ts == [] {
      NoOps(s);
    } else {
      OneVersionKept(env, target, s, ts[0]);
      FirstTask(env, target, s, ts);
      hide Item, ApplyAll, VersionOf, After;
      VersionKept(env, target, ApplyAll(s, Item(env, target, s, ts[0])), ts[1..]);
    }
  }

  lemma OneVersionKept(env: Env, target: int, s: Store, t: Task)
    requires Proper(t) && !IsBump(t)
    ensures VersionOf(ApplyAll(s, Item(env, target, s, t))) == VersionOf(s)
  {
    TwoOps(s, Item(env, target, s, t));
  }
}
