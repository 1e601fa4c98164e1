/**
 The registry, the orchestrator processes it forks and the messages between them as one
 system. Processes die at any moment, clear messages and exit notices arrive arbitrarily late,
 acks come at any time, windows close, deadlines fire and janitors finish in any order. In
 every run at most one process ever holds the hardware, and no waiting instance is stranded.
 */
module InstanceProtocol {
  import opened Instances
  import HardwareGate

  datatype World = World(reg: Registry, alive: set<nat>, gates: map<nat, HardwareGate.Gate>, holders: set<nat>)

  datatype Event =
    | Activate(kind: Kind)
    | Claim(id: nat, w: string)
    | Attach(id: nat, w: string)
    | CloseWindow(w: string)
    | Dispose(id: nat)
    | Quit
    | DeadlineFires(id: nat)
    | AckArrives(id: nat)
    | ProcessDies(id: nat)
    | ExitArrives(id: nat, code: int)
    | JanitorDone(id: nat)
    | ClearArrives(id: nat)
    | Acquire(id: nat)

  const START := World(EMPTY, {}, map[], {})

  /** How often an effect was performed. */
  function Count(log: seq<Effect>, e: Effect): nat {
    if log == [] then 0
    else Count(log[..|log| - 1], e) + if log[|log| - 1] == e then 1 else 0
  }

  lemma {:induction false} CountAppend(a: seq<Effect>, b: seq<Effect>, e: Effect)
    ensures Count(a + b, e) == Count(a, e) + Count(b, e)
  {
    if b == [] {
      assert a + b == a;
    } else {
      var n := |b| - 1;
      CountAppend(a, b[..n], e);
      assert (a + b)[..|a + b| - 1] == a + b[..n];
    }
  }

  lemma CountOne(x: Effect, e: Effect)
    ensures Count([x], e) == if x == e then 1 else 0
  {
    assert [x][..0] == [];
  }

  predicate JanitorPending(r: Registry, k: nat)
    requires k < |r.recs|
  {
    Count(r.log, RunJanitor(k + 1)) > 0 && !r.recs[k].janitorDone
  }

  /** One event; an event that cannot happen in this state leaves it as it is. */
  function Step(w: World, e: Event): World {
    var r := w.reg;
    match e
    case Activate(kind) =>
      var id := |r.recs| + 1;
      w.(reg := Open(r, kind), alive := w.alive + {id},
         gates := w.gates[id := HardwareGate.Arm(HardwareGate.DISARMED)])
    case Claim(id, win) => w.(reg := ClaimWindow(r, id, win))
    case Attach(id, win) => w.(reg := AttachWindow(r, id, win))
    case CloseWindow(win) => w.(reg := WindowClosed(r, win))
    case Dispose(id) => w.(reg := Teardown(r, id))
    case Quit => w.(reg := TeardownFirst(r, |r.recs|))
    case DeadlineFires(id) => w.(reg := Deadline(r, id))
    case AckArrives(id) => w.(reg := Ack(r, id))
    case ProcessDies(id) => w.(alive := w.alive - {id}, holders := w.holders - {id})
    case ExitArrives(id, code) => if id in w.alive then w else w.(reg := Exit(r, id, code))
    case JanitorDone(id) =>
      if Known(r, id) && JanitorPending(r, id - 1) then w.(reg := JanitorFinished(r, id)) else w
    case ClearArrives(id) =>
      if Count(r.log, SendClear(id)) > 0 && id in w.alive && id in w.gates
      then w.(gates := w.gates[id := HardwareGate.Signal(w.gates[id])]) else w
    case Acquire(id) =>
      if Known(r, id) && r.recs[id - 1].kind == Hardware && id in w.alive && id in w.gates
          && HardwareGate.IsOpen(w.gates[id])
      then w.(holders := w.holders + {id}) else w
  }

  function Run(events: seq<Event>): World {
    if events == [] then START else Step(Run(events[..|events| - 1]), events[|events| - 1])
  }

  // ---- what holds in every reachable state ----

  /** An instance in the table was sent its clear exactly when the table says so, and once. */
  ghost predicate ClearCounted(r: Registry, id: nat) {
    Count(r.log, SendClear(id)) == if Known(r, id) && r.recs[id - 1].hardwareCleared then 1 else 0
  }

  /** A janitor was started exactly once for an ack-less death, and for nothing else. */
  ghost predicate JanitorCounted(r: Registry, id: nat) {
    var n := Count(r.log, RunJanitor(id));
    if !Known(r, id) then n == 0
    else
      var rec := r.recs[id - 1];
      && n <= 1
      && (n == 1 ==> rec.phase == Dead)
      && (rec.phase == Dead && !rec.quiesced ==> n == 1)
      && (rec.janitorDone ==> n == 1)
  }

  ghost predicate Counted(r: Registry) {
    forall id: nat :: ClearCounted(r, id) && JanitorCounted(r, id)
  }

  /** Of two cleared hardware instances one is already dead and acked or swept. */
  ghost predicate OneHolder(recs: seq<Rec>) {
    forall i, j :: 0 <= i < |recs| && 0 <= j < |recs| && i != j
      && recs[i].kind == Hardware && recs[i].hardwareCleared
      && recs[j].kind == Hardware && recs[j].hardwareCleared
      ==> Released(recs[i]) || Released(recs[j])
  }

  /** Somebody a waiting instance can still expect a grant from. */
  ghost predicate Expecting(r: Registry, i: nat, o: nat)
    requires i < |r.recs| && o < |r.recs|
  {
    o != i && r.recs[o].kind == Hardware && (!Released(r.recs[o]) || JanitorPending(r, o))
  }

  ghost predicate NoneStranded(r: Registry) {
    forall i :: 0 <= i < |r.recs| && Waiting(r.recs[i]) ==> exists o :: 0 <= o < |r.recs| && Expecting(r, i, o)
  }

  /** A draining instance is bounded: its deadline is armed or it was already killed. */
  ghost predicate Bounded(r: Registry) {
    forall k :: 0 <= k < |r.recs| ==>
      && (r.recs[k].drainTimer ==> r.recs[k].phase == Draining)
      && (r.recs[k].phase == Draining ==> r.recs[k].drainTimer || Kill(k + 1) in r.log)
  }

  ghost predicate Sound(r: Registry) {
    Ids(r.recs) && Counted(r) && OneHolder(r.recs) && Bounded(r)
  }

  /** A running process is not dead in the table; its gate was armed at boot and is open only
      after a clear; only a running process with an open gate holds hardware. */
  ghost predicate ProcessOk(w: World, id: nat) {
    && (id in w.gates <==> Known(w.reg, id))
    && (id in w.alive ==> id in w.gates && w.reg.recs[id - 1].phase != Dead)
    && (id in w.gates ==> w.gates[id].armed && (w.gates[id].cleared ==> w.reg.recs[id - 1].hardwareCleared))
    && (id in w.holders ==> id in w.alive && w.gates[id].cleared && w.reg.recs[id - 1].kind == Hardware)
  }

  ghost predicate Processes(w: World) {
    forall id: nat :: ProcessOk(w, id)
  }

  ghost predicate Inv(w: World) {
    Sound(w.reg) && NoneStranded(w.reg) && Processes(w)
  }

  // ---- events that neither clear nor kill anybody ----

  ghost predicate SameCounts(r: Registry, s: Registry) {
    forall id: nat :: Count(s.log, SendClear(id)) == Count(r.log, SendClear(id))
                   && Count(s.log, RunJanitor(id)) == Count(r.log, RunJanitor(id))
  }

  /** The record changed only in ways that cannot disturb the hardware protocol. */
  ghost predicate QuietRec(a: Rec, b: Rec) {
    && b.id == a.id && b.kind == a.kind && b.hardwareCleared == a.hardwareCleared && b.janitorDone == a.janitorDone
    && (b.phase == a.phase || (a.phase == Live && b.phase == Draining))
    && (a.quiesced ==> b.quiesced)
  }

  ghost predicate Quiet(r: Registry, s: Registry) {
    && |s.recs| == |r.recs|
    && (forall k :: 0 <= k < |r.recs| ==> QuietRec(r.recs[k], s.recs[k]))
    && SameCounts(r, s)
  }

  /** Appending effects of other kinds changes no count. */
  lemma OtherEffects(r: Registry, recs: seq<Rec>, alive: bool, more: seq<Effect>)
    requires forall k :: 0 <= k < |more| ==> !more[k].SendClear? && !more[k].RunJanitor?
    ensures SameCounts(r, Registry(recs, alive, r.log + more))
  {
    forall id: nat
      ensures Count(r.log + more, SendClear(id)) == Count(r.log, SendClear(id))
      ensures Count(r.log + more, RunJanitor(id)) == Count(r.log, RunJanitor(id))
    {
      CountAppend(r.log, more, SendClear(id));
      CountAppend(r.log, more, RunJanitor(id));
      CountNone(more, SendClear(id));
      CountNone(more, RunJanitor(id));
    }
  }

  lemma {:induction false} CountNone(log: seq<Effect>, e: Effect)
    requires forall k :: 0 <= k < |log| ==> log[k] != e
    ensures Count(log, e) == 0
  {
    if log != [] {
      CountNone(log[..|log| - 1], e);
    }
  }

  lemma QuietSound(r: Registry, s: Registry)
    requires Sound(r) && Quiet(r, s) && Bounded(s)
    ensures Sound(s)
  {
    hide Count, Bounded;
    forall id: nat ensures ClearCounted(s, id) && JanitorCounted(s, id) {
      assert ClearCounted(r, id) && JanitorCounted(r, id);
      if Known(r, id) {
        assert QuietRec(r.recs[id - 1], s.recs[id - 1]);
      }
    }
    forall i | 0 <= i < |r.recs| ensures Released(r.recs[i]) ==> Released(s.recs[i])
                                 ensures s.recs[i].kind == r.recs[i].kind
                                 ensures s.recs[i].hardwareCleared == r.recs[i].hardwareCleared {
      assert QuietRec(r.recs[i], s.recs[i]);
    }
  }

  lemma QuietStrandsNobody(r: Registry, s: Registry)
    requires Sound(r) && NoneStranded(r) && Quiet(r, s)
    ensures NoneStranded(s)
  {
    hide Count, Bounded, OneHolder;
    forall i | 0 <= i < |s.recs| && Waiting(s.recs[i]) ensures exists o :: 0 <= o < |s.recs| && Expecting(s, i, o) {
      assert QuietRec(r.recs[i], s.recs[i]) && Waiting(r.recs[i]);
      var o :| 0 <= o < |r.recs| && Expecting(r, i, o);
      assert QuietRec(r.recs[o], s.recs[o]);
      assert JanitorCounted(r, o + 1);
      assert Expecting(s, i, o);
    }
  }

  lemma QuietTransitive(r: Registry, s: Registry, t: Registry)
    requires Quiet(r, s) && Quiet(s, t)
    ensures Quiet(r, t)
  {
    hide Count;
    forall k | 0 <= k < |r.recs| ensures QuietRec(r.recs[k], t.recs[k]) {
      assert QuietRec(r.recs[k], s.recs[k]) && QuietRec(s.recs[k], t.recs[k]);
    }
  }

  /** One record is changed quietly and effects of other kinds are performed. */
  lemma WithQuiet(r: Registry, id: nat, rec: Rec, more: seq<Effect>)
    requires Known(r, id) && QuietRec(r.recs[id - 1], rec)
    requires forall k :: 0 <= k < |more| ==> !more[k].SendClear? && !more[k].RunJanitor?
    ensures Quiet(r, With(r, id, rec).(log := r.log + more))
  {
    OtherEffects(r, With(r, id, rec).recs, r.lastAlive, more);
  }

  lemma WithBounded(r: Registry, id: nat, rec: Rec, more: seq<Effect>)
    requires Known(r, id) && Bounded(r)
    requires rec.drainTimer ==> rec.phase == Draining
    requires rec.phase == Draining ==> rec.drainTimer || Kill(id) in r.log + more
    ensures Bounded(With(r, id, rec).(log := r.log + more))
  {
  }

  lemma UnchangedQuiet(r: Registry)
    ensures Quiet(r, r)
  {
  }

  lemma TeardownQuiet(r: Registry, id: nat)
    requires Bounded(r)
    ensures Quiet(r, Teardown(r, id)) && Bounded(Teardown(r, id))
  {
    if Known(r, id) && r.recs[id - 1].phase == Live {
      var rec := r.recs[id - 1].(phase := Draining, expected := true, drainTimer := true);
      WithQuiet(r, id, rec, [SendShutdown(id)]);
      WithBounded(r, id, rec, [SendShutdown(id)]);
    } else {
      UnchangedQuiet(r);
    }
  }

  lemma DetachedQuiet(r: Registry, w: string)
    requires Bounded(r)
    ensures var d := r.(recs := Detached(r.recs, w)); Quiet(r, d) && Bounded(d)
  {
  }

  lemma WindowClosedQuiet(r: Registry, w: string)
    requires Bounded(r)
    ensures Quiet(r, WindowClosed(r, w)) && Bounded(WindowClosed(r, w))
  {
    var d := r.(recs := Detached(r.recs, w));
    DetachedQuiet(r, w);
    var o := OwnerFrom(d.recs, w, 0);
    hide Quiet, Bounded, Teardown, Detached;
    if o < |d.recs| {
      var rec := d.recs[o].(windows := d.recs[o].windows - {w});
      var e := With(d, o + 1, rec);
      assert d.log + [] == d.log && With(d, o + 1, rec).(log := d.log) == e;
      WindowsQuiet(d, o, rec.windows);
      QuietTransitive(r, d, e);
      TeardownQuiet(e, o + 1);
      QuietTransitive(r, e, Teardown(e, o + 1));
    }
  }

  lemma WindowsQuiet(r: Registry, o: nat, windows: set<string>)
    requires Bounded(r) && o < |r.recs|
    ensures var d := With(r, o + 1, r.recs[o].(windows := windows)); Quiet(r, d) && Bounded(d)
  {
  }

  lemma AckQuiet(r: Registry, id: nat)
    requires Bounded(r)
    ensures Quiet(r, Ack(r, id)) && Bounded(Ack(r, id))
  {
    if Known(r, id) {
      var rec := r.recs[id - 1].(quiesced := true);
      if rec.phase == Draining {
        WithQuiet(r, id, rec.(drainTimer := false), [Kill(id)]);
        WithBounded(r, id, rec.(drainTimer := false), [Kill(id)]);
      } else {
        assert r.log + [] == r.log;
        WithQuiet(r, id, rec, []);
        WithBounded(r, id, rec, []);
      }
    } else {
      UnchangedQuiet(r);
    }
  }

  lemma DeadlineQuiet(r: Registry, id: nat)
    requires Bounded(r)
    ensures Quiet(r, Deadline(r, id)) && Bounded(Deadline(r, id))
  {
    if Known(r, id) && r.recs[id - 1].drainTimer {
      var rec := r.recs[id - 1].(drainTimer := false);
      WithQuiet(r, id, rec, [Kill(id)]);
      WithBounded(r, id, rec, [Kill(id)]);
    } else {
      UnchangedQuiet(r);
    }
  }

  lemma EmittedQuiet(r: Registry)
    requires Bounded(r)
    ensures Quiet(r, Emitted(r)) && Bounded(Emitted(r))
  {
    var alive := HardwareIsAlive(r.recs);
    var more := (if alive != r.lastAlive then [HardwareAlive(alive)] else []) + [LiveInstances(LiveIds(r.recs))];
    assert Emitted(r).log == r.log + more;
    OtherEffects(r, r.recs, alive, more);
  }

  lemma {:induction false} TeardownFirstKeeps(r: Registry, k: nat)
    requires Sound(r) && NoneStranded(r) && k <= |r.recs|
    ensures Sound(TeardownFirst(r, k)) && NoneStranded(TeardownFirst(r, k))
  {
    if k > 0 {
      TeardownFirstKeeps(r, k - 1);
      var s := TeardownFirst(r, k - 1);
      TeardownQuiet(s, k);
      hide Bounded, Counted, OneHolder, Quiet, NoneStranded, Teardown;
      QuietSound(s, Teardown(s, k));
      QuietStrandsNobody(s, Teardown(s, k));
    }
  }

  // ---- events that end in a grant ----

  /** Two instances are never grantable together: each blocks the other. */
  lemma GrantableAlone(recs: seq<Rec>, i: nat, j: nat)
    requires i < |recs| && j < |recs| && Grantable(recs, i) && j != i && recs[j].kind == Hardware
    ensures Released(recs[j])
  {
  }

  lemma {:induction false} GrantLogCounts(recs: seq<Rec>, k: nat, id: nat)
    requires Ids(recs) && k <= |recs|
    ensures Count(GrantLog(recs, k), SendClear(id)) == if 1 <= id <= k && Grantable(recs, id - 1) then 1 else 0
    ensures Count(GrantLog(recs, k), RunJanitor(id)) == 0
  {
    if k > 0 {
      GrantLogCounts(recs, k - 1, id);
      hide Grantable, Count;
      if Grantable(recs, k - 1) {
        assert GrantLog(recs, k) == GrantLog(recs, k - 1) + [SendClear(k)];
        CountAppend(GrantLog(recs, k - 1), [SendClear(k)], SendClear(id));
        CountAppend(GrantLog(recs, k - 1), [SendClear(k)], RunJanitor(id));
        CountOne(SendClear(k), SendClear(id));
        CountOne(SendClear(k), RunJanitor(id));
      } else {
        assert GrantLog(recs, k) == GrantLog(recs, k - 1);
      }
    }
  }

  /** After granting, nobody who is still waiting is unblocked. */
  lemma GrantKeeps(r: Registry)
    requires Sound(r)
    ensures Sound(Grant(r)) && NoneStranded(Grant(r))
  {
    GrantCounted(r);
    GrantOneHolder(r);
    GrantNoneStranded(r);
    hide Counted, OneHolder, NoneStranded, GrantLog, Grantable;
  }

  lemma GrantCounted(r: Registry)
    requires Ids(r.recs) && Counted(r)
    ensures Counted(Grant(r))
  {
    hide Count, Grantable;
    var n := |r.recs|;
    forall id: nat ensures ClearCounted(Grant(r), id) && JanitorCounted(Grant(r), id) {
      assert ClearCounted(r, id) && JanitorCounted(r, id);
      CountAppend(r.log, GrantLog(r.recs, n), SendClear(id));
      CountAppend(r.log, GrantLog(r.recs, n), RunJanitor(id));
      GrantLogCounts(r.recs, n, id);
      if Known(r, id) {
        GrantableWaits(r.recs, id - 1);
      }
    }
  }

  lemma GrantableWaits(recs: seq<Rec>, k: nat)
    requires k < |recs|
    ensures Grantable(recs, k) ==> Waiting(recs[k])
  {
  }

  lemma GrantOneHolder(r: Registry)
    requires OneHolder(r.recs)
    ensures OneHolder(Grant(r).recs)
  {
    hide Grantable;
    var recs, out := r.recs, Grant(r).recs;
    forall i, j | 0 <= i < |recs| && 0 <= j < |recs| && i != j
        && out[i].kind == Hardware && out[i].hardwareCleared && out[j].kind == Hardware && out[j].hardwareCleared
      ensures Released(out[i]) || Released(out[j])
    {
      if Grantable(recs, i) {
        GrantableAlone(recs, i, j);
      } else if Grantable(recs, j) {
        GrantableAlone(recs, j, i);
      }
    }
  }

  lemma GrantNoneStranded(r: Registry)
    ensures NoneStranded(Grant(r))
  {
    var s := Grant(r);
    forall i | 0 <= i < |s.recs| && Waiting(s.recs[i]) ensures exists o :: 0 <= o < |s.recs| && Expecting(s, i, o) {
      assert Waiting(r.recs[i]) && Blocked(r.recs, i);
      var o :| 0 <= o < |r.recs| && o != i && r.recs[o].kind == Hardware && !Released(r.recs[o]);
      assert Expecting(s, i, o);
    }
  }

  lemma EmittedKeeps(r: Registry)
    requires Sound(r) && NoneStranded(r)
    ensures Sound(Emitted(r)) && NoneStranded(Emitted(r))
  {
    EmittedQuiet(r);
    hide Bounded, Counted, OneHolder, Quiet, NoneStranded, Emitted;
    QuietSound(r, Emitted(r));
    QuietStrandsNobody(r, Emitted(r));
  }

  /** An exit starts a janitor exactly when no ack came first, and only for that instance. */
  lemma GoneCounts(r: Registry, id: nat, code: int, j: nat)
    requires Known(r, id)
    ensures var s := Gone(r, id, code);
            && Count(s.log, SendClear(j)) == Count(r.log, SendClear(j))
            && Count(s.log, RunJanitor(j)) ==
               Count(r.log, RunJanitor(j)) + if j == id && !r.recs[id - 1].quiesced then 1 else 0
  {
    var rec := r.recs[id - 1];
    var notify := [NotifyDown(id, ClassifyExit(rec.quiesced, rec.expected, code))];
    CountAppend(r.log, notify, SendClear(j));
    CountAppend(r.log, notify, RunJanitor(j));
    CountNone(notify, SendClear(j));
    CountNone(notify, RunJanitor(j));
    if rec.quiesced {
      assert Gone(r, id, code).log == r.log + notify;
    } else {
      assert Gone(r, id, code).log == r.log + notify + [RunJanitor(id)];
      CountAppend(r.log + notify, [RunJanitor(id)], SendClear(j));
      CountAppend(r.log + notify, [RunJanitor(id)], RunJanitor(j));
      CountNone([RunJanitor(id)], SendClear(j));
      assert [RunJanitor(id)][..0] == [];
    }
  }

  lemma GoneSound(r: Registry, id: nat, code: int)
    requires Sound(r) && Known(r, id) && r.recs[id - 1].phase != Dead
    ensures Sound(Gone(r, id, code))
  {
    var s := Gone(r, id, code);
    GoneRest(r, id, code);
    hide Count, Bounded, OneHolder;
    forall j: nat ensures ClearCounted(s, j) && JanitorCounted(s, j) {
      assert ClearCounted(r, j) && JanitorCounted(r, j);
      GoneCounts(r, id, code, j);
    }
  }

  lemma GoneRest(r: Registry, id: nat, code: int)
    requires Known(r, id) && r.recs[id - 1].phase != Dead && Ids(r.recs) && OneHolder(r.recs) && Bounded(r)
    ensures Ids(Gone(r, id, code).recs) && OneHolder(Gone(r, id, code).recs) && Bounded(Gone(r, id, code))
  {
  }

  function Forked(r: Registry, kind: Kind, cleared: bool): Registry {
    var id := |r.recs| + 1;
    r.(recs := r.recs + [Fresh(id, kind).(hardwareCleared := cleared)],
       log := if cleared then r.log + [Fork(id, kind)] + [SendClear(id)] else r.log + [Fork(id, kind)])
  }

  lemma ForkCounts(r: Registry, kind: Kind, cleared: bool, j: nat)
    ensures var s := Forked(r, kind, cleared);
            && Count(s.log, SendClear(j)) ==
               Count(r.log, SendClear(j)) + (if cleared && j == |r.recs| + 1 then 1 else 0)
            && Count(s.log, RunJanitor(j)) == Count(r.log, RunJanitor(j))
  {
    var id := |r.recs| + 1;
    CountAppend(r.log, [Fork(id, kind)], SendClear(j));
    CountAppend(r.log, [Fork(id, kind)], RunJanitor(j));
    CountAppend(r.log + [Fork(id, kind)], [SendClear(id)], SendClear(j));
    CountAppend(r.log + [Fork(id, kind)], [SendClear(id)], RunJanitor(j));
    CountNone([Fork(id, kind)], SendClear(j));
    CountNone([Fork(id, kind)], RunJanitor(j));
    CountNone([SendClear(id)], RunJanitor(j));
    assert [SendClear(id)][..0] == [];
  }

  lemma ForkSound(r: Registry, kind: Kind, cleared: bool)
    requires Sound(r) && (kind == Hardware ==> !cleared)
    ensures Sound(Forked(r, kind, cleared))
  {
    var s := Forked(r, kind, cleared);
    ForkRest(r, kind, cleared);
    hide Count, Bounded, OneHolder;
    forall j: nat ensures ClearCounted(s, j) && JanitorCounted(s, j) {
      assert ClearCounted(r, j) && JanitorCounted(r, j);
      ForkCounts(r, kind, cleared, j);
    }
  }

  lemma ForkRest(r: Registry, kind: Kind, cleared: bool)
    requires Ids(r.recs) && OneHolder(r.recs) && Bounded(r) && (kind == Hardware ==> !cleared)
    ensures var s := Forked(r, kind, cleared); Ids(s.recs) && OneHolder(s.recs) && Bounded(s)
  {
  }

  lemma OpenKeeps(r: Registry, kind: Kind)
    requires Sound(r) && NoneStranded(r)
    ensures Sound(Open(r, kind)) && NoneStranded(Open(r, kind))
  {
    var s := Forked(r, kind, kind == NonHardware);
    ForkSound(r, kind, kind == NonHardware);
    if kind == NonHardware {
      ForkStrandsNobody(r);
      assert Open(r, kind) == Emitted(s);
      EmittedKeeps(s);
    } else {
      assert Open(r, kind) == Emitted(Grant(s));
      GrantKeeps(s);
      EmittedKeeps(Grant(s));
    }
  }

  lemma ForkStrandsNobody(r: Registry)
    requires NoneStranded(r)
    ensures NoneStranded(Forked(r, NonHardware, true))
  {
    var s := Forked(r, NonHardware, true);
    forall i | 0 <= i < |s.recs| && Waiting(s.recs[i]) ensures exists o :: 0 <= o < |s.recs| && Expecting(s, i, o) {
      var o :| 0 <= o < |r.recs| && Expecting(r, i, o);
      ForkCounts(r, NonHardware, true, o + 1);
      assert Expecting(s, i, o);
    }
  }

  lemma ExitKeeps(r: Registry, id: nat, code: int)
    requires Sound(r) && NoneStranded(r)
    ensures Sound(Exit(r, id, code)) && NoneStranded(Exit(r, id, code))
  {
    hide Sound, NoneStranded, Emitted, Grant, Gone;
    if Known(r, id) && r.recs[id - 1].phase != Dead {
      GoneSound(r, id, code);
      GrantKeeps(Gone(r, id, code));
      EmittedKeeps(Grant(Gone(r, id, code)));
    }
  }

  lemma JanitorFinishedKeeps(r: Registry, id: nat)
    requires Sound(r) && Known(r, id) && JanitorPending(r, id - 1)
    ensures Sound(JanitorFinished(r, id)) && NoneStranded(JanitorFinished(r, id))
  {
    var s := With(r, id, r.recs[id - 1].(janitorDone := true));
    forall j: nat ensures ClearCounted(s, j) && JanitorCounted(s, j) {
      assert ClearCounted(r, j) && JanitorCounted(r, j);
    }
    GrantKeeps(s);
  }

  // ---- every run ----

  lemma RegistryKeeps(r: Registry, e: Event, w: World)
    requires Inv(w) && r == w.reg
    ensures Sound(Step(w, e).reg) && NoneStranded(Step(w, e).reg)
  {
    if e.Activate? {
      OpenKeeps(r, e.kind);
    } else if e.Quit? {
      TeardownFirstKeeps(r, |r.recs|);
    } else if e.ExitArrives? {
      ExitKeeps(r, e.id, e.code);
    } else if e.JanitorDone? {
      if Known(r, e.id) && JanitorPending(r, e.id - 1) {
        JanitorFinishedKeeps(r, e.id);
      }
    } else if IsQuiet(e) {
      QuietEvent(w, e);
      hide *;
      QuietSound(r, Step(w, e).reg);
      QuietStrandsNobody(r, Step(w, e).reg);
    }
  }

  predicate IsQuiet(e: Event) {
    e.Claim? || e.Attach? || e.CloseWindow? || e.Dispose? || e.DeadlineFires? || e.AckArrives?
  }

  lemma QuietEvent(w: World, e: Event)
    requires Sound(w.reg) && IsQuiet(e)
    ensures Quiet(w.reg, Step(w, e).reg) && Bounded(Step(w, e).reg)
  {
    var r := w.reg;
    match e
    case CloseWindow(win) => WindowClosedQuiet(r, win);
    case Dispose(id) => TeardownQuiet(r, id);
    case DeadlineFires(id) => DeadlineQuiet(r, id);
    case AckArrives(id) => AckQuiet(r, id);
    case Claim(_, _) =>
    case Attach(_, _) =>
  }

  /** How one event changes the record at position k. */
  ghost predicate RecStep(a: Rec, b: Rec, e: Event, k: nat) {
    && b.kind == a.kind
    && (a.hardwareCleared ==> b.hardwareCleared)
    && (b.hardwareCleared && !a.hardwareCleared ==> b.phase == Live)
    && (b.phase == Dead && a.phase != Dead ==> e.ExitArrives? && e.id == k + 1)
    && (a.phase == Dead ==> b.phase == Dead)
  }

  lemma TableStep(w: World, e: Event)
    requires Sound(w.reg)
    ensures var r, s := w.reg.recs, Step(w, e).reg.recs;
            && |s| == |r| + (if e.Activate? then 1 else 0)
            && (forall k :: 0 <= k < |r| ==> RecStep(r[k], s[k], e, k))
            && (e.Activate? ==> s[|r|].phase == Live && s[|r|].kind == e.kind)
  {
    var r := w.reg;
    if e.Activate? {
      OpenTable(r, e.kind, e);
    } else if e.ExitArrives? {
      ExitTable(r, e.id, e.code, e);
    } else if e.JanitorDone? {
      if Known(r, e.id) && JanitorPending(r, e.id - 1) {
        GrantTable(With(r, e.id, r.recs[e.id - 1].(janitorDone := true)));
      }
    } else {
      if e.Quit? {
        QuitTable(r, |r.recs|);
      } else if IsQuiet(e) {
        QuietEvent(w, e);
      } else {
        UnchangedQuiet(r);
      }
      QuietTable(r, Step(w, e).reg, e);
    }
  }

  lemma QuietTable(r: Registry, s: Registry, e: Event)
    requires Quiet(r, s)
    ensures |s.recs| == |r.recs| && forall k :: 0 <= k < |r.recs| ==> RecStep(r.recs[k], s.recs[k], e, k)
  {
    forall k | 0 <= k < |r.recs| ensures RecStep(r.recs[k], s.recs[k], e, k) {
      assert QuietRec(r.recs[k], s.recs[k]);
    }
  }

  lemma GrantTable(r: Registry)
    ensures forall k :: 0 <= k < |r.recs| ==>
              var a, b := r.recs[k], Grant(r).recs[k];
              b == a || (b == a.(hardwareCleared := true) && a.phase == Live)
  {
    forall k | 0 <= k < |r.recs| ensures Grantable(r.recs, k) ==> Waiting(r.recs[k]) {
      GrantableWaits(r.recs, k);
    }
    hide Grantable;
  }

  lemma OpenTable(r: Registry, kind: Kind, e: Event)
    ensures var s := Open(r, kind).recs;
            && |s| == |r.recs| + 1 && s[|r.recs|].phase == Live && s[|r.recs|].kind == kind
            && forall k :: 0 <= k < |r.recs| ==> RecStep(r.recs[k], s[k], e, k)
  {
    GrantTable(Forked(r, kind, false));
    hide Grant;
    assert Open(r, kind).recs ==
           if kind == NonHardware then Forked(r, kind, true).recs else Grant(Forked(r, kind, false)).recs;
  }

  lemma ExitTable(r: Registry, id: nat, code: int, e: Event)
    requires e == ExitArrives(id, code)
    ensures var s := Exit(r, id, code).recs;
            |s| == |r.recs| && forall k :: 0 <= k < |r.recs| ==> RecStep(r.recs[k], s[k], e, k)
  {
    if Known(r, id) && r.recs[id - 1].phase != Dead {
      GrantTable(Gone(r, id, code));
      hide Grant;
    }
  }

  lemma {:induction false} QuitTable(r: Registry, k: nat)
    requires Bounded(r) && k <= |r.recs|
    ensures Bounded(TeardownFirst(r, k)) && Quiet(r, TeardownFirst(r, k))
  {
    if k == 0 {
      UnchangedQuiet(r);
    } else {
      QuitTable(r, k - 1);
      hide Bounded, Quiet, Teardown;
      TeardownQuiet(TeardownFirst(r, k - 1), k);
      QuietTransitive(r, TeardownFirst(r, k - 1), TeardownFirst(r, k));
    }
  }

  lemma ProcessesKeep(w: World, e: Event)
    requires Inv(w)
    ensures Processes(Step(w, e))
  {
    TableStep(w, e);
    forall id: nat ensures ProcessOk(Step(w, e), id) {
      assert ProcessOk(w, id);
      assert ClearCounted(w.reg, id);
      hide Count, Open, WindowClosed, Teardown, TeardownFirst, Deadline, Ack, Exit, JanitorFinished, ClaimWindow,
          AttachWindow;
      if Known(w.reg, id) {
        assert RecStep(w.reg.recs[id - 1], Step(w, e).reg.recs[id - 1], e, id - 1);
      }
    }
  }

  /** Every reachable state satisfies the protocol invariant. */
  lemma {:induction false} RunInv(events: seq<Event>)
    ensures Inv(Run(events))
  {
    if events == [] {
      assert Count(EMPTY.log, Kill(0)) == 0;
    } else {
      var n := |events| - 1;
      RunInv(events[..n]);
      hide Sound, NoneStranded, Processes, Step;
      RegistryKeeps(Run(events[..n]).reg, events[n], Run(events[..n]));
      ProcessesKeep(Run(events[..n]), events[n]);
    }
  }

  /** At most one process ever holds the hardware, over every interleaving. */
  lemma OneHardwareHolder(events: seq<Event>, a: nat, b: nat)
    requires a in Run(events).holders && b in Run(events).holders
    ensures a == b
  {
    RunInv(events);
    var w := Run(events);
    hide Run, NoneStranded, Counted, Bounded;
    assert ProcessOk(w, a) && ProcessOk(w, b);
    var x, y := w.reg.recs[a - 1], w.reg.recs[b - 1];
  }

  /** At most one live hardware process has an open gate, however late the clears arrive. */
  lemma OneOpenGate(events: seq<Event>, a: nat, b: nat)
    requires var w := Run(events);
             && a in w.alive && a in w.gates && HardwareGate.IsOpen(w.gates[a]) && Known(w.reg, a)
             && w.reg.recs[a - 1].kind == Hardware
             && b in w.alive && b in w.gates && HardwareGate.IsOpen(w.gates[b]) && Known(w.reg, b)
             && w.reg.recs[b - 1].kind == Hardware
    ensures a == b
  {
    RunInv(events);
    var w := Run(events);
    hide Run, NoneStranded, Counted, Bounded;
    assert ProcessOk(w, a) && ProcessOk(w, b);
    var x, y := w.reg.recs[a - 1], w.reg.recs[b - 1];
  }

  /** Two cleared hardware instances: one is dead, and it acked or its sweep is complete. */
  lemma ClearedTwiceMeansReleased(events: seq<Event>, a: nat, b: nat)
    requires var r := Run(events).reg;
             && Known(r, a) && r.recs[a - 1].kind == Hardware && r.recs[a - 1].hardwareCleared
             && Known(r, b) && r.recs[b - 1].kind == Hardware && r.recs[b - 1].hardwareCleared && a != b
    ensures Released(Run(events).reg.recs[a - 1]) || Released(Run(events).reg.recs[b - 1])
  {
    RunInv(events);
  }

  /** Every instance is cleared at most once over a whole run, and only while live. */
  lemma ClearedOnceAndLive(events: seq<Event>, e: Event, id: nat)
    ensures Count(Run(events).reg.log, SendClear(id)) <= 1
    ensures var r, s := Run(events).reg, Run(events + [e]).reg;
            Count(s.log, SendClear(id)) > Count(r.log, SendClear(id)) ==>
              Known(s, id) && s.recs[id - 1].phase == Live
  {
    RunInv(events);
    RunInv(events + [e]);
    assert (events + [e])[..|events|] == events;
    var w := Run(events);
    TableStep(w, e);
    hide Step, Count, Run;
    assert ClearCounted(w.reg, id) && ClearCounted(Run(events + [e]).reg, id);
  }

  /** No grant is ever lost: a live hardware instance all of whose rivals are dead, with no
      janitor run outstanding, has been cleared, and its clear message was sent. */
  lemma NoLostGrant(events: seq<Event>, id: nat)
    requires var r := Run(events).reg;
             && Known(r, id) && r.recs[id - 1].kind == Hardware && r.recs[id - 1].phase == Live
             && forall o :: 0 <= o < |r.recs| && o != id - 1 && r.recs[o].kind == Hardware ==>
                  r.recs[o].phase == Dead && !JanitorPending(r, o)
    ensures Run(events).reg.recs[id - 1].hardwareCleared && Count(Run(events).reg.log, SendClear(id)) == 1
  {
    RunInv(events);
    var r := Run(events).reg;
    hide Run, Count;
    assert ClearCounted(r, id);
    assert forall j: nat :: JanitorCounted(r, j);
    forall o | 0 <= o < |r.recs| && o != id - 1 && r.recs[o].kind == Hardware ensures Released(r.recs[o]) {
      assert JanitorCounted(r, o + 1);
    }
    assert !Waiting(r.recs[id - 1]);
  }

  /** An instance is swept at most once over the whole run, and exactly once when it is dead
      without an ack. (An ack may still arrive after the exit that started the sweep; which exits
      start one is said by ExitStartsJanitor.) */
  lemma OneJanitorPerDeath(events: seq<Event>, id: nat)
    requires Known(Run(events).reg, id)
    ensures var r := Run(events).reg;
            && Count(r.log, RunJanitor(id)) <= 1
            && (Count(r.log, RunJanitor(id)) == 1 ==> r.recs[id - 1].phase == Dead)
            && (r.recs[id - 1].phase == Dead && !r.recs[id - 1].quiesced ==> Count(r.log, RunJanitor(id)) == 1)
  {
    RunInv(events);
    assert JanitorCounted(Run(events).reg, id);
  }

  /** The exit notice of a live instance starts its janitor exactly when it never acked. */
  lemma ExitStartsJanitor(events: seq<Event>, id: nat, code: int)
    requires var w := Run(events); Known(w.reg, id) && id !in w.alive && w.reg.recs[id - 1].phase != Dead
    ensures var r, s := Run(events).reg, Run(events + [ExitArrives(id, code)]).reg;
            Count(s.log, RunJanitor(id)) == Count(r.log, RunJanitor(id)) + if r.recs[id - 1].quiesced then 0 else 1
  {
    var r := Run(events).reg;
    RunInv(events);
    assert (events + [ExitArrives(id, code)])[..|events|] == events;
    assert Run(events + [ExitArrives(id, code)]).reg == Emitted(Grant(Gone(r, id, code)));
    hide Run, Sound, NoneStranded, Processes;
    assert Sound(r);
    GoneSound(r, id, code);
    GoneCounts(r, id, code, id);
    GrantJanitors(Gone(r, id, code), id);
    GrantKeeps(Gone(r, id, code));
    EmittedJanitors(Grant(Gone(r, id, code)), id);
  }

  lemma GrantJanitors(r: Registry, id: nat)
    requires Sound(r)
    ensures Count(Grant(r).log, RunJanitor(id)) == Count(r.log, RunJanitor(id))
  {
    CountAppend(r.log, GrantLog(r.recs, |r.recs|), RunJanitor(id));
    GrantLogCounts(r.recs, |r.recs|, id);
  }

  lemma EmittedJanitors(r: Registry, id: nat)
    requires Sound(r)
    ensures Count(Emitted(r).log, RunJanitor(id)) == Count(r.log, RunJanitor(id))
  {
    EmittedQuiet(r);
    hide Emitted, Count;
  }
}
