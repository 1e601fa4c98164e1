/**
 The registry of disposable orchestrator instances: what it does to its table on every event
 the main process can see, as functions on values, and the class that does it in place. The
 calls it makes on its injected dependencies are recorded in a log, in order.
 */
module Instances {

  datatype Kind = Hardware | NonHardware
  datatype Phase = Live | Draining | Dead

  // ---- exit classification ----

  datatype Reason = Clean | Killed | Crash
  datatype Report = Report(reason: Reason, code: int)

  function ClassifyExit(acked: bool, expected: bool, code: int): Report {
    Report(if acked then Clean else if expected then Killed else Crash, code)
  }

  predicate ShouldRunJanitor(r: Report) {
    r.reason != Clean
  }

  // ---- the table ----

  datatype Rec = Rec(id: nat, kind: Kind, phase: Phase, hardwareCleared: bool, quiesced: bool, expected: bool,
                     janitorDone: bool, windows: set<string>, attachments: set<string>, hadWindow: bool,
                     drainTimer: bool)

  datatype Effect =
    | Fork(id: nat, kind: Kind)
    | SendClear(id: nat)
    | SendShutdown(id: nat)
    | Kill(id: nat)
    | NotifyDown(id: nat, report: Report)
    | RunJanitor(id: nat)
    | HardwareAlive(alive: bool)
    | LiveInstances(ids: seq<nat>)

  datatype Registry = Registry(recs: seq<Rec>, lastAlive: bool, log: seq<Effect>)

  const EMPTY := Registry([], false, [])

  /** Ids are handed out in order, so an id names its position in the table. */
  ghost predicate Ids(recs: seq<Rec>) {
    forall k :: 0 <= k < |recs| ==> recs[k].id == k + 1
  }

  predicate Known(r: Registry, id: nat) {
    1 <= id <= |r.recs|
  }

  /** Dead, and either acked a clean quiesce or was swept by its janitor. */
  predicate Released(rec: Rec) {
    rec.phase == Dead && (rec.quiesced || rec.janitorDone)
  }

  predicate Waiting(rec: Rec) {
    rec.kind == Hardware && !rec.hardwareCleared && rec.phase == Live
  }

  /** Some other hardware instance may still hold the hardware. */
  predicate Blocked(recs: seq<Rec>, k: nat) {
    exists o :: 0 <= o < |recs| && o != k && recs[o].kind == Hardware && !Released(recs[o])
  }

  predicate Grantable(recs: seq<Rec>, k: nat)
    requires k < |recs|
  {
    Waiting(recs[k]) && !Blocked(recs, k)
  }

  // ---- granting ----

  /** The table after the grantable instances below k were cleared. */
  function GrantedRecs(recs: seq<Rec>, k: nat): (out: seq<Rec>)
    requires k <= |recs|
    ensures |out| == |recs|
  {
    seq(|recs|, i requires 0 <= i < |recs| =>
      if i < k && Grantable(recs, i) then recs[i].(hardwareCleared := true) else recs[i])
  }

  function GrantLog(recs: seq<Rec>, k: nat): seq<Effect>
    requires k <= |recs|
  {
    if k == 0 then []
    else GrantLog(recs, k - 1) + if Grantable(recs, k - 1) then [SendClear(recs[k - 1].id)] else []
  }

  function Grant(r: Registry): (out: Registry)
    ensures |out.recs| == |r.recs| && out.lastAlive == r.lastAlive
  {
    Registry(GrantedRecs(r.recs, |r.recs|), r.lastAlive, r.log + GrantLog(r.recs, |r.recs|))
  }

  // ---- reporting ----

  predicate HardwareIsAlive(recs: seq<Rec>) {
    exists k :: 0 <= k < |recs| && recs[k].kind == Hardware && recs[k].phase != Dead
  }

  function LiveIds(recs: seq<Rec>): seq<nat> {
    if recs == [] then []
    else
      var last := recs[|recs| - 1];
      LiveIds(recs[..|recs| - 1]) + if last.phase != Dead then [last.id] else []
  }

  function Emitted(r: Registry): Registry {
    var alive := HardwareIsAlive(r.recs);
    Registry(r.recs, alive,
             r.log + (if alive != r.lastAlive then [HardwareAlive(alive)] else []) + [LiveInstances(LiveIds(r.recs))])
  }

  // ---- the operations ----

  function Fresh(id: nat, kind: Kind): Rec {
    Rec(id, kind, Live, false, false, false, false, {}, {}, false, false)
  }

  function Open(r: Registry, kind: Kind): Registry {
    var id := |r.recs| + 1;
    var rec := Fresh(id, kind);
    var forked := r.(recs := r.recs + [rec], log := r.log + [Fork(id, kind)]);
    Emitted(
      if kind == NonHardware then
        forked.(recs := r.recs + [rec.(hardwareCleared := true)], log := forked.log + [SendClear(id)])
      else Grant(forked))
  }

  function With(r: Registry, id: nat, rec: Rec): Registry
    requires Known(r, id)
  {
    r.(recs := r.recs[id - 1 := rec])
  }

  function ClaimWindow(r: Registry, id: nat, w: string): Registry {
    if !Known(r, id) then r
    else var rec := r.recs[id - 1]; With(r, id, rec.(windows := rec.windows + {w}, hadWindow := true))
  }

  function AttachWindow(r: Registry, id: nat, w: string): Registry {
    if !Known(r, id) then r
    else var rec := r.recs[id - 1]; With(r, id, rec.(attachments := rec.attachments + {w}))
  }

  function Teardown(r: Registry, id: nat): Registry {
    if !Known(r, id) || r.recs[id - 1].phase != Live then r
    else
      With(r, id, r.recs[id - 1].(phase := Draining, expected := true, drainTimer := true))
        .(log := r.log + [SendShutdown(id)])
  }

  function TeardownFirst(r: Registry, k: nat): Registry {
    if k == 0 then r else Teardown(TeardownFirst(r, k - 1), k)
  }

  function Detached(recs: seq<Rec>, w: string): (out: seq<Rec>)
    ensures |out| == |recs|
  {
    seq(|recs|, i requires 0 <= i < |recs| => recs[i].(attachments := recs[i].attachments - {w}))
  }

  /** The first instance from k on that owns the window, or |recs| when none does. */
  function OwnerFrom(recs: seq<Rec>, w: string, k: nat): (o: nat)
    requires k <= |recs|
    ensures k <= o <= |recs| && (o < |recs| ==> w in recs[o].windows)
    decreases |recs| - k
  {
    if k == |recs| || w in recs[k].windows then k else OwnerFrom(recs, w, k + 1)
  }

  function WindowClosed(r: Registry, w: string): Registry {
    var d := r.(recs := Detached(r.recs, w));
    var o := OwnerFrom(d.recs, w, 0);
    if o == |d.recs| then d
    else
      var rec := d.recs[o].(windows := d.recs[o].windows - {w});
      var e := With(d, o + 1, rec);
      if rec.hadWindow && rec.windows == {} && rec.phase == Live then Teardown(e, o + 1) else e
  }

  /** The bounded-quiesce timer fires. */
  function Deadline(r: Registry, id: nat): Registry {
    if !Known(r, id) || !r.recs[id - 1].drainTimer then r
    else
      var rec := r.recs[id - 1].(drainTimer := false);
      var e := With(r, id, rec);
      if rec.phase == Draining then e.(log := r.log + [Kill(id)]) else e
  }

  function Ack(r: Registry, id: nat): Registry {
    if !Known(r, id) then r
    else
      var rec := r.recs[id - 1].(quiesced := true);
      if rec.phase == Draining then With(r, id, rec.(drainTimer := false)).(log := r.log + [Kill(id)])
      else With(r, id, rec)
  }

  /** A live or draining instance is marked dead, reported, and swept unless it acked. */
  function Gone(r: Registry, id: nat, code: int): Registry
    requires Known(r, id)
  {
    var rec := r.recs[id - 1].(drainTimer := false, phase := Dead);
    var report := ClassifyExit(rec.quiesced, rec.expected, code);
    var janitor := if ShouldRunJanitor(report) then [RunJanitor(id)] else [];
    With(r, id, rec).(log := r.log + [NotifyDown(id, report)] + janitor)
  }

  function Exit(r: Registry, id: nat, code: int): Registry {
    if !Known(r, id) || r.recs[id - 1].phase == Dead then r else Emitted(Grant(Gone(r, id, code)))
  }

  /** The janitor run started for this instance has completed. */
  function JanitorFinished(r: Registry, id: nat): Registry
    requires Known(r, id)
  {
    Grant(With(r, id, r.recs[id - 1].(janitorDone := true)))
  }

  // ---- the registry in place ----

  lemma {:induction false} OwnerFromSkips(recs: seq<Rec>, w: string, k: nat)
    requires k <= |recs| && forall i :: 0 <= i < k ==> w !in recs[i].windows
    ensures OwnerFrom(recs, w, 0) == OwnerFrom(recs, w, k)
  {
    if k > 0 {
      OwnerFromSkips(recs, w, k - 1);
    }
  }

  class OrchestratorInstances {
    var instances: seq<Rec>
    var idCounter: nat
    var lastHardwareAlive: bool
    var log: seq<Effect>

    function State(): Registry
      reads this
    {
      Registry(instances, lastHardwareAlive, log)
    }

    ghost predicate Valid()
      reads this
    {
      idCounter == |instances| && Ids(instances)
    }

    constructor ()
      ensures Valid() && State() == EMPTY
    {
      instances, idCounter, lastHardwareAlive, log := [], 0, false, [];
    }

    /** The position of the instance with this id, or the table's length. */
    method ById(id: nat) returns (k: nat)
      requires Valid()
      ensures Known(State(), id) ==> k == id - 1 < |instances|
      ensures !Known(State(), id) ==> k == |instances|
    {
      k := 0;
      while k < |instances|
        invariant k <= |instances| && (Known(State(), id) ==> k <= id - 1)
      {
        if instances[k].id == id {
          return;
        }
        k := k + 1;
      }
    }

    method TryGrantHardware()
      requires Valid()
      modifies this
      ensures Valid() && State() == Grant(old(State())) && idCounter == old(idCounter)
    {
      ghost var r := State();
      var n := |instances|;
      for k := 0 to n
        invariant Valid() && idCounter == n == |r.recs| && lastHardwareAlive == r.lastAlive
        invariant instances == GrantedRecs(r.recs, k) && log == r.log + GrantLog(r.recs, k)
      {
        var rec := instances[k];
        BlockedSame(r.recs, k);
        if rec.kind != Hardware || rec.hardwareCleared || rec.phase != Live {
          continue;
        }
        var blocked := exists o :: 0 <= o < |instances| && o != k && instances[o].kind == Hardware
                                   && !Released(instances[o]);
        if blocked {
          continue;
        }
        instances := instances[k := rec.(hardwareCleared := true)];
        log := log + [SendClear(rec.id)];
      }
    }

    method EmitAlive()
      modifies this`lastHardwareAlive, this`log
      ensures lastHardwareAlive == HardwareIsAlive(instances)
      ensures log == old(log) + if HardwareIsAlive(instances) != old(lastHardwareAlive)
                                then [HardwareAlive(HardwareIsAlive(instances))] else []
    {
      var alive := exists k :: 0 <= k < |instances| && instances[k].kind == Hardware && instances[k].phase != Dead;
      if alive != lastHardwareAlive {
        lastHardwareAlive := alive;
        log := log + [HardwareAlive(alive)];
      }
    }

    method EmitPids()
      modifies this`log
      ensures log == old(log) + [LiveInstances(LiveIds(instances))]
    {
      var ids := [];
      var recs := instances;
      for k := 0 to |recs|
        invariant ids == LiveIds(recs[..k])
      {
        assert recs[..k + 1][..k] == recs[..k];
        if recs[k].phase != Dead {
          ids := ids + [recs[k].id];
        }
      }
      assert recs[..|recs|] == recs;
      log := log + [LiveInstances(ids)];
    }

    method OpenInstance(kind: Kind) returns (id: nat)
      requires Valid()
      modifies this
      ensures Valid() && State() == Open(old(State()), kind) && id == |instances|
    {
      idCounter := idCounter + 1;
      id := idCounter;
      log := log + [Fork(id, kind)];
      var rec := Fresh(id, kind);
      instances := instances + [rec];
      if kind == NonHardware {
        instances := instances[|instances| - 1 := rec.(hardwareCleared := true)];
        log := log + [SendClear(id)];
      } else {
        TryGrantHardware();
      }
      EmitAlive();
      EmitPids();
    }

    method Claim(id: nat, w: string)
      requires Valid()
      modifies this
      ensures Valid() && State() == ClaimWindow(old(State()), id, w)
    {
      var k := ById(id);
      if k < |instances| {
        instances := instances[k := instances[k].(windows := instances[k].windows + {w}, hadWindow := true)];
      }
    }

    method Attach(id: nat, w: string)
      requires Valid()
      modifies this
      ensures Valid() && State() == AttachWindow(old(State()), id, w)
    {
      var k := ById(id);
      if k < |instances| {
        instances := instances[k := instances[k].(attachments := instances[k].attachments + {w})];
      }
    }

    method BeginTeardown(id: nat)
      requires Valid()
      modifies this
      ensures Valid() && State() == Teardown(old(State()), id)
    {
      var k := ById(id);
      if k == |instances| || instances[k].phase != Live {
        return;
      }
      instances := instances[k := instances[k].(phase := Draining, expected := true)];
      log := log + [SendShutdown(id)];
      instances := instances[k := instances[k].(drainTimer := true)];
    }

    method TeardownAll()
      requires Valid()
      modifies this
      ensures Valid() && State() == TeardownFirst(old(State()), old(|instances|))
    {
      ghost var r := State();
      var n := |instances|;
      for k := 0 to n
        invariant Valid() && |instances| == n && State() == TeardownFirst(r, k)
      {
        if instances[k].phase == Live {
          BeginTeardown(instances[k].id);
        }
      }
    }

    method OnWindowClosed(w: string)
      requires Valid()
      modifies this
      ensures Valid() && State() == WindowClosed(old(State()), w)
    {
      ghost var r := State();
      var n := |instances|;
      for i := 0 to n
        invariant Valid() && |instances| == n && log == r.log && lastHardwareAlive == r.lastAlive
        invariant forall k :: 0 <= k < n ==> instances[k] == if k < i then Detached(r.recs, w)[k] else r.recs[k]
      {
        instances := instances[i := instances[i].(attachments := instances[i].attachments - {w})];
      }
      assert instances == Detached(r.recs, w);
      var o := 0;
      while o < n && w !in instances[o].windows
        invariant o <= n && forall k :: 0 <= k < o ==> w !in instances[k].windows
      {
        o := o + 1;
      }
      OwnerFromSkips(instances, w, o);
      if o == n {
        return;
      }
      instances := instances[o := instances[o].(windows := instances[o].windows - {w})];
      var rec := instances[o];
      if rec.hadWindow && rec.windows == {} && rec.phase == Live {
        BeginTeardown(rec.id);
      }
    }

    method OnDeadline(id: nat)
      requires Valid()
      modifies this
      ensures Valid() && State() == Deadline(old(State()), id)
    {
      var k := ById(id);
      if k == |instances| || !instances[k].drainTimer {
        return;
      }
      instances := instances[k := instances[k].(drainTimer := false)];
      if instances[k].phase == Draining {
        log := log + [Kill(id)];
      }
    }

    method OnAck(id: nat)
      requires Valid()
      modifies this
      ensures Valid() && State() == Ack(old(State()), id)
    {
      var k := ById(id);
      if k == |instances| {
        return;
      }
      instances := instances[k := instances[k].(quiesced := true)];
      if instances[k].phase == Draining {
        if instances[k].drainTimer {
          instances := instances[k := instances[k].(drainTimer := false)];
        }
        log := log + [Kill(id)];
      }
    }

    method MarkGone(k: nat, code: int)
      requires Valid() && k < |instances|
      modifies this
      ensures Valid() && State() == Gone(old(State()), k + 1, code)
    {
      var id := instances[k].id;
      if instances[k].drainTimer {
        instances := instances[k := instances[k].(drainTimer := false)];
      }
      instances := instances[k := instances[k].(phase := Dead)];
      var report := ClassifyExit(instances[k].quiesced, instances[k].expected, code);
      log := log + [NotifyDown(id, report)];
      if ShouldRunJanitor(report) {
        log := log + [RunJanitor(id)];
      }
    }

    method OnExit(id: nat, code: int)
      requires Valid()
      modifies this
      ensures Valid() && State() == Exit(old(State()), id, code)
    {
      hide Grant, Gone, HardwareIsAlive, LiveIds;
      var k := ById(id);
      if k == |instances| || instances[k].phase == Dead {
        return;
      }
      MarkGone(k, code);
      TryGrantHardware();
      EmitAlive();
      EmitPids();
    }

    method OnJanitorFinished(id: nat)
      requires Valid() && Known(State(), id)
      modifies this
      ensures Valid() && State() == JanitorFinished(old(State()), id)
    {
      instances := instances[id - 1 := instances[id - 1].(janitorDone := true)];
      TryGrantHardware();
    }
  }

  /** Clearing an instance does not change who is blocked. */
  lemma BlockedSame(recs: seq<Rec>, k: nat)
    requires k < |recs|
    ensures Blocked(GrantedRecs(recs, k), k) == Blocked(recs, k) && GrantedRecs(recs, k)[k] == recs[k]
  {
    var out := GrantedRecs(recs, k);
    forall o | 0 <= o < |recs| ensures out[o].kind == recs[o].kind && Released(out[o]) == Released(recs[o]) {
    }
  }
}
