/**
 One document of the store authority. Operations are queued and performed one at a time, in
 steps that wait for the file system; new operations, subscriptions and cancellations arrive
 between any two steps. The functions under "one at a time" are the simple account of the
 same document; the machine refines it.
 */
module StoreAuthority {
  import opened Options
  import opened StorePatch

  datatype Operation =
    | Read(fallback: Json)
    | Write(value: Json)
    | Update(patch: map<string, Json>)
    | Patch(ops: seq<PatchOp>)
    | Clear

  /** An operation with the listener of its caller, who is not told about it. */
  datatype Call = Call(op: Operation, origin: Option<nat>)

  // ---- one at a time ----

  /** The cached value, if the document is loaded, and the value on disk, if there is a file. */
  datatype Cell = Cell(cache: Option<Json>, disk: Option<Json>)

  datatype Outcome = Outcome(cell: Cell, result: Option<Json>)

  function Loaded(c: Cell, fallback: Json): Json {
    if c.cache.Some? then c.cache.value else if c.disk.Some? then c.disk.value else fallback
  }

  function Decimal(n: nat): string {
    if n < 10 then ["0123456789"[n]] else Decimal(n / 10) + ["0123456789"[n % 10]]
  }

  /** The items under their indices written out. */
  function Indexed(items: seq<Json>): map<string, Json> {
    if items == [] then map[]
    else var n := |items| - 1; Indexed(items[..n])[Decimal(n) := items[n]]
  }

  /** The keys and values a spread copies: an array or a text has one for every index. */
  function Spread(v: Json): map<string, Json> {
    match v
    case Object(fields) => fields
    case Array(items) => Indexed(items)
    case Text(s) => Indexed(seq(|s|, i requires 0 <= i < |s| => Text([s[i]])))
    case _ => map[]
  }

  function Merged(v: Json, patch: map<string, Json>): Json {
    Object(Spread(v) + patch)
  }

  predicate Commits(op: Operation) {
    !op.Read?
  }

  function Perform(c: Cell, op: Operation): Outcome {
    match op
    case Read(fallback) => var v := Loaded(c, fallback); Outcome(Cell(Some(v), c.disk), Some(v))
    case Write(v) => Outcome(Cell(Some(v), Some(v)), Some(v))
    case Update(patch) => var v := Merged(Loaded(c, Object(map[])), patch); Outcome(Cell(Some(v), Some(v)), Some(v))
    case Patch(ops) => var v := ApplyOps(Loaded(c, Object(map[])), ops); Outcome(Cell(Some(v), Some(v)), Some(v))
    case Clear => Outcome(Cell(None, None), None)
  }

  function CellAfter(c: Cell, calls: seq<Call>): Cell {
    if calls == [] then c else Perform(CellAfter(c, calls[..|calls| - 1]), calls[|calls| - 1].op).cell
  }

  /** What every call returns: the fold of all calls before it, and then itself. */
  function Results(c: Cell, calls: seq<Call>): seq<Option<Json>> {
    if calls == [] then []
    else
      var n := |calls| - 1;
      Results(c, calls[..n]) + [Perform(CellAfter(c, calls[..n]), calls[n].op).result]
  }

  /** The committed values nobody but their origin may miss, in order. */
  function Heard(c: Cell, calls: seq<Call>, l: nat): seq<Option<Json>> {
    if calls == [] then []
    else
      var n := |calls| - 1;
      Heard(c, calls[..n], l)
      + if Commits(calls[n].op) && calls[n].origin != Some(l)
        then [Perform(CellAfter(c, calls[..n]), calls[n].op).result] else []
  }

  // ---- step by step ----

  datatype Phase = Idle | Reading | Persisting(committed: Option<Json>)
  datatype Push = Push(value: Option<Json>, to: set<nat>)

  datatype Machine = Machine(value: Option<Json>, loaded: bool, disk: Option<Json>, queue: seq<Call>, phase: Phase,
                             results: seq<Option<Json>>, pushes: seq<Push>, listeners: set<nat>)

  datatype Event = Arrive(call: Call) | Tick | Subscribe(l: nat) | Unsubscribe(l: nat)

  /** The head operation returns and leaves the queue. */
  function Complete(m: Machine, result: Option<Json>): Machine
    requires m.queue != []
  {
    m.(queue := m.queue[1..], phase := Idle, results := m.results + [result])
  }

  /** The head operation computes its value from the loaded one and starts to persist it. */
  function Compute(m: Machine): Machine
    requires m.queue != [] && m.value.Some? && !m.queue[0].op.Clear? && !m.queue[0].op.Write?
  {
    var op := m.queue[0].op;
    match op
    case Read(_) => Complete(m, m.value)
    case Update(patch) => var v := Some(Merged(m.value.value, patch)); m.(value := v, phase := Persisting(v))
    case Patch(ops) => var v := Some(ApplyOps(m.value.value, ops)); m.(value := v, phase := Persisting(v))
  }

  ghost predicate Settled(m: Machine) {
    && (m.loaded ==> m.value.Some?)
    && (m.phase.Reading? ==> m.queue != [] && !m.queue[0].op.Clear? && !m.queue[0].op.Write?)
    && (m.phase.Persisting? ==> m.queue != [])
  }

  function Advance(m: Machine): Machine
    requires Settled(m)
  {
    match m.phase
    case Persisting(v) =>
      var origin := m.queue[0].origin;
      var to := if origin.Some? then m.listeners - {origin.value} else m.listeners;
      Complete(m.(disk := v, pushes := m.pushes + [Push(v, to)]), v)
    case Reading =>
      var fallback := if m.queue[0].op.Read? then m.queue[0].op.fallback else Object(map[]);
      Compute(m.(value := Some(if m.disk.Some? then m.disk.value else fallback), loaded := true))
    case Idle =>
      if m.queue == [] then m
      else
        match m.queue[0].op
        case Write(v) => m.(value := Some(v), loaded := true, phase := Persisting(Some(v)))
        case Clear => m.(value := None, loaded := false, phase := Persisting(None))
        case Read(_) => if m.loaded then Compute(m) else m.(phase := Reading)
        case Update(_) => if m.loaded then Compute(m) else m.(phase := Reading)
        case Patch(_) => if m.loaded then Compute(m) else m.(phase := Reading)
  }

  function Step(m: Machine, e: Event): Machine
    requires Settled(m)
  {
    match e
    case Arrive(call) => m.(queue := m.queue + [call])
    case Tick => Advance(m)
    case Subscribe(l) => m.(listeners := m.listeners + {l})
    case Unsubscribe(l) => m.(listeners := m.listeners - {l})
  }

  function Fresh(disk: Option<Json>): Machine {
    Machine(None, false, disk, [], Idle, [], [], {})
  }

  /** The machine after any events. */
  function Run(disk: Option<Json>, events: seq<Event>): (m: Machine)
    ensures Settled(m)
  {
    if events == [] then Fresh(disk)
    else
      var m := Run(disk, events[..|events| - 1]);
      StepSettled(m, events[|events| - 1]);
      Step(m, events[|events| - 1])
  }

  lemma StepSettled(m: Machine, e: Event)
    requires Settled(m)
    ensures Settled(Step(m, e))
  {
  }

  function Calls(events: seq<Event>): seq<Call> {
    if events == [] then []
    else Calls(events[..|events| - 1]) + if events[|events| - 1].Arrive? then [events[|events| - 1].call] else []
  }

  function Received(pushes: seq<Push>, l: nat): seq<Option<Json>> {
    if pushes == [] then []
    else Received(pushes[..|pushes| - 1], l) + if l in pushes[|pushes| - 1].to then [pushes[|pushes| - 1].value] else []
  }

  // ---- the refinement ----

  function CellOf(m: Machine): Cell {
    Cell(if m.loaded then m.value else None, m.disk)
  }

  /** The machine is somewhere in the call after the first |results| ones. */
  ghost predicate Refines(m: Machine, start: Cell, calls: seq<Call>) {
    var n := |m.results|;
    && Settled(m) && n <= |calls| && m.queue == calls[n..] && m.results == Results(start, calls[..n])
    && var c := CellAfter(start, calls[..n]);
       match m.phase
       case Idle => CellOf(m) == c
       case Reading => CellOf(m) == c && !m.loaded
       case Persisting(v) =>
         var out := Perform(c, m.queue[0].op);
         && Commits(m.queue[0].op) && m.disk == c.disk && out.result == v
         && out.cell == Cell(if m.loaded then m.value else None, v)
  }

  lemma ArriveRefines(m: Machine, start: Cell, calls: seq<Call>, call: Call)
    requires Refines(m, start, calls)
    ensures Refines(Step(m, Arrive(call)), start, calls + [call])
  {
    assert (calls + [call])[..|m.results|] == calls[..|m.results|];
  }

  /** Completing the head call adds its result and moves the fold on by it. */
  lemma CompleteRefines(m: Machine, start: Cell, calls: seq<Call>)
    requires m.queue != [] && |m.results| < |calls| && m.queue == calls[|m.results|..]
    requires m.results == Results(start, calls[..|m.results|])
    requires m.loaded ==> m.value.Some?
    requires CellOf(m) == Perform(CellAfter(start, calls[..|m.results|]), m.queue[0].op).cell
    ensures Refines(Complete(m, Perform(CellAfter(start, calls[..|m.results|]), m.queue[0].op).result), start, calls)
  {
    var n := |m.results|;
    assert calls[..n + 1][..n] == calls[..n] && calls[..n + 1][n] == calls[n] == m.queue[0];
  }

  lemma TickRefines(m: Machine, start: Cell, calls: seq<Call>)
    requires Refines(m, start, calls)
    ensures Refines(Advance(m), start, calls)
  {
    var n := |m.results|;
    if m.queue != [] {
      var c, op := CellAfter(start, calls[..n]), m.queue[0].op;
      hide CellAfter, Results, ApplyOps;
      match m.phase {
        case Persisting(v) => CompleteRefines(m.(disk := v, pushes := Advance(m).pushes), start, calls);
        case Reading =>
          if op.Read? {
            CompleteRefines(m.(value := Some(Loaded(c, op.fallback)), loaded := true), start, calls);
          }
        case Idle =>
          if op.Read? && m.loaded {
            CompleteRefines(m, start, calls);
          }
      }
    }
  }

  lemma FreshRefines(disk: Option<Json>)
    ensures Refines(Fresh(disk), Cell(None, disk), [])
  {
    var none: seq<Call> := [];
    assert none[..0] == none && none[0..] == none;
  }

  lemma StepRefines(m: Machine, start: Cell, calls: seq<Call>, e: Event)
    requires Refines(m, start, calls)
    ensures Refines(Step(m, e), start, calls + if e.Arrive? then [e.call] else [])
  {
    assert calls + [] == calls;
    match e {
      case Arrive(call) => ArriveRefines(m, start, calls, call);
      case Tick => TickRefines(m, start, calls);
      case Subscribe(_) => ListenersRefine(m, start, calls, e);
      case Unsubscribe(_) => ListenersRefine(m, start, calls, e);
    }
  }

  lemma {:induction false} RunRefines(disk: Option<Json>, events: seq<Event>)
    ensures Refines(Run(disk, events), Cell(None, disk), Calls(events))
  {
    hide Refines, Settled, Step;
    if events == [] {
      FreshRefines(disk);
    } else {
      var n := |events| - 1;
      RunRefines(disk, events[..n]);
      StepRefines(Run(disk, events[..n]), Cell(None, disk), Calls(events[..n]), events[n]);
    }
  }

  lemma ListenersRefine(m: Machine, start: Cell, calls: seq<Call>, e: Event)
    requires Refines(m, start, calls) && (e.Subscribe? || e.Unsubscribe?)
    ensures Refines(Step(m, e), start, calls)
  {
  }

  /** Concurrent operations on a document behave as if run one at a time in arrival order:
      every completed call returned what the fold of all earlier calls makes of it. */
  lemma Serialized(disk: Option<Json>, events: seq<Event>)
    ensures var m, calls := Run(disk, events), Calls(events);
            |m.results| <= |calls| && m.results == Results(Cell(None, disk), calls[..|m.results|])
  {
    RunRefines(disk, events);
  }

  /** When nothing is queued, cache and disk are what the fold of all calls leaves. */
  lemma QuiescentState(disk: Option<Json>, events: seq<Event>)
    requires Run(disk, events).queue == []
    ensures CellOf(Run(disk, events)) == CellAfter(Cell(None, disk), Calls(events))
  {
    RunRefines(disk, events);
    var m, calls := Run(disk, events), Calls(events);
    assert |m.results| == |calls| && calls[..|m.results|] == calls;
  }

  /** The machine after n ticks. */
  function Ticks(m: Machine, n: nat): (t: Machine)
    requires Settled(m)
    ensures Settled(t)
    decreases n
  {
    if n == 0 then m
    else
      StepSettled(m, Tick);
      Ticks(Advance(m), n - 1)
  }

  /** How many ticks the head may still need. */
  function Needs(p: Phase): nat {
    match p case Idle => 3 case Reading => 2 case Persisting(_) => 1
  }

  lemma TickProgress(m: Machine)
    requires Settled(m) && m.queue != []
    ensures var t := Advance(m);
            || |t.results| > |m.results|
            || (t.queue == m.queue && t.results == m.results && Needs(t.phase) < Needs(m.phase))
  {
    hide ApplyOps, Merged;
  }

  /** Every call completes: while something is queued, three ticks finish at least the head. */
  lemma {:induction false} HeadFinishes(m: Machine, n: nat)
    requires Settled(m) && m.queue != [] && n >= Needs(m.phase)
    ensures |Ticks(m, n).results| > |m.results|
    decreases n
  {
    hide Advance;
    TickProgress(m);
    StepSettled(m, Tick);
    TicksGrow(Advance(m), n - 1);
    if |Advance(m).results| == |m.results| {
      HeadFinishes(Advance(m), n - 1);
    }
  }

  lemma {:induction false} TicksGrow(m: Machine, n: nat)
    requires Settled(m)
    ensures |Ticks(m, n).results| >= |m.results|
    decreases n
  {
    if n > 0 {
      StepSettled(m, Tick);
      StepGrows(m, Tick);
      TicksGrow(Advance(m), n - 1);
    }
  }

  // ---- who hears what ----

  /** What one more completed call lets l hear. */
  lemma HeardOne(start: Cell, calls: seq<Call>, k: nat, l: nat)
    requires k < |calls|
    ensures Heard(start, calls[..k + 1], l) ==
            Heard(start, calls[..k], l)
            + if Commits(calls[k].op) && calls[k].origin != Some(l)
              then [Perform(CellAfter(start, calls[..k]), calls[k].op).result] else []
  {
    assert calls[..k + 1][..k] == calls[..k];
  }

  /** What one more push brings l. */
  lemma ReceivedOne(pushes: seq<Push>, p: Push, l: nat)
    ensures Received(pushes + [p], l) == Received(pushes, l) + if l in p.to then [p.value] else []
  {
    assert (pushes + [p])[..|pushes|] == pushes;
  }

  /** Only a finished persist notifies, and then everybody but the origin; otherwise at most a
      read returns. */
  lemma AdvancePushes(m: Machine)
    requires Settled(m)
    ensures var t := Advance(m);
            && t.listeners == m.listeners
            && if m.phase.Persisting? then
                 var origin := m.queue[0].origin;
                 && |t.results| == |m.results| + 1
                 && t.pushes == m.pushes + [Push(m.phase.committed,
                     if origin.Some? then m.listeners - {origin.value} else m.listeners)]
               else
                 && t.pushes == m.pushes
                 && (|t.results| == |m.results|
                     || (|t.results| == |m.results| + 1 && m.queue != [] && m.queue[0].op.Read?))
  {
    hide ApplyOps, Merged;
  }

  /** From when l had heard `heard` and `p` pushes had gone out, l received what the calls
      completed since let it hear. */
  ghost predicate Since(m: Machine, start: Cell, calls: seq<Call>, l: nat, heard: seq<Option<Json>>, p: nat) {
    && l in m.listeners && |m.results| <= |calls| && p <= |m.pushes|
    && Heard(start, calls[..|m.results|], l) == heard + Received(m.pushes[p..], l)
  }

  lemma TickHeard(m: Machine, start: Cell, calls: seq<Call>, l: nat, heard: seq<Option<Json>>, p: nat)
    requires Refines(m, start, calls) && Since(m, start, calls, l, heard, p)
    ensures Since(Advance(m), start, calls, l, heard, p)
  {
    hide Heard, Received, Advance, Perform, CellAfter, Results, Refines;
    var k := |m.results|;
    HeadOf(m, start, calls);
    AdvancePushes(m);
    if k < |calls| {
      HeardOne(start, calls, k, l);
    }
    if m.phase.Persisting? {
      var push := Advance(m).pushes[|m.pushes|];
      ReceivedOne(m.pushes[p..], push, l);
      assert (m.pushes + [push])[p..] == m.pushes[p..] + [push];
    }
  }

  /** The head of the queue is the next call, and what is being persisted is its result. */
  lemma HeadOf(m: Machine, start: Cell, calls: seq<Call>)
    requires Refines(m, start, calls)
    ensures Settled(m) && |m.results| <= |calls| && (m.queue == [] ==> !m.phase.Persisting? && |m.results| == |calls|)
    ensures m.queue != [] ==> |m.results| < |calls| && m.queue[0] == calls[|m.results|]
    ensures m.phase.Persisting? ==>
              && Commits(m.queue[0].op)
              && Perform(CellAfter(start, calls[..|m.results|]), m.queue[0].op).result == m.phase.committed
  {
    hide CellAfter, Results, Perform;
  }

  lemma StepHeard(m: Machine, start: Cell, calls: seq<Call>, e: Event, l: nat, heard: seq<Option<Json>>, p: nat)
    requires Refines(m, start, calls) && Since(m, start, calls, l, heard, p) && e != Unsubscribe(l)
    ensures Since(Step(m, e), start, calls + (if e.Arrive? then [e.call] else []), l, heard, p)
  {
    hide Heard, Received, Refines, Advance;
    assert calls + [] == calls;
    match e {
      case Arrive(call) => assert (calls + [call])[..|m.results|] == calls[..|m.results|];
      case Tick =>
        TickHeard(m, start, calls, l, heard, p);
      case _ =>
    }
  }

  ghost predicate Stays(events: seq<Event>, l: nat) {
    forall i :: 0 <= i < |events| ==> events[i] != Unsubscribe(l)
  }

  /** Whenever l subscribes, and whatever is under way then: as long as it stays, it has
      received exactly what the calls completed since let it hear, in order. */
  lemma {:induction false} HeardSince(disk: Option<Json>, before: seq<Event>, l: nat, during: seq<Event>)
    requires Stays(during, l)
    ensures var joined := before + [Subscribe(l)];
            var m0, m, calls := Run(disk, joined), Run(disk, joined + during), Calls(joined + during);
            && |m0.results| <= |m.results| <= |calls| && m0.pushes <= m.pushes
            && Heard(Cell(None, disk), calls[..|m.results|], l) ==
               Heard(Cell(None, disk), calls[..|m0.results|], l) + Received(m.pushes[|m0.pushes|..], l)
  {
    var joined := before + [Subscribe(l)];
    var start, m0 := Cell(None, disk), Run(disk, joined);
    RunRefines(disk, joined);
    if during == [] {
      assert joined + during == joined;
      assert l in m0.listeners by { assert joined[..|before|] == before; }
      assert m0.pushes[|m0.pushes|..] == [];
    } else {
      var n := |during| - 1;
      var events := joined + during[..n];
      assert Stays(during[..n], l);
      HeardSince(disk, before, l, during[..n]);
      assert joined + during == events + [during[n]];
      ListeningSince(disk, before, l, during[..n]);
      RunRefines(disk, events);
      OneEvent(disk, events, during[n]);
      var m, calls := Run(disk, events), Calls(events);
      var next := calls + if during[n].Arrive? then [during[n].call] else [];
      assert next[..|m0.results|] == calls[..|m0.results|];
      hide Heard, Received, Run, Calls, Refines, Settled, Step;
      StepHeard(m, start, calls, during[n], l, Heard(start, calls[..|m0.results|], l), |m0.pushes|);
      StepGrows(m, during[n]);
    }
  }

  lemma OneEvent(disk: Option<Json>, events: seq<Event>, e: Event)
    ensures Run(disk, events + [e]) == Step(Run(disk, events), e)
    ensures Calls(events + [e]) == Calls(events) + if e.Arrive? then [e.call] else []
  {
    assert (events + [e])[..|events|] == events;
  }

  lemma StepGrows(m: Machine, e: Event)
    requires Settled(m)
    ensures |m.results| <= |Step(m, e).results| && m.pushes <= Step(m, e).pushes
  {
    AdvancePushes(m);
    hide Advance;
  }

  lemma {:induction false} ListeningSince(disk: Option<Json>, before: seq<Event>, l: nat, during: seq<Event>)
    requires Stays(during, l)
    ensures l in Run(disk, before + [Subscribe(l)] + during).listeners
  {
    var joined := before + [Subscribe(l)];
    if during == [] {
      assert joined + during == joined;
      OneEvent(disk, before, Subscribe(l));
    } else {
      var n := |during| - 1;
      assert Stays(during[..n], l);
      ListeningSince(disk, before, l, during[..n]);
      assert joined + during == (joined + during[..n]) + [during[n]];
      OneEvent(disk, joined + during[..n], during[n]);
      AdvancePushes(Run(disk, joined + during[..n]));
      hide Advance, Run;
    }
  }

  /** A subscriber that joins at any time hears every write that somebody else commits from then
      on exactly once and in order, and none of its own: when nothing is queued, what it heard
      since is all there is to hear after the calls completed when it joined. */
  lemma EachHearsOthers(disk: Option<Json>, before: seq<Event>, l: nat, during: seq<Event>)
    requires Stays(during, l) && Run(disk, before + [Subscribe(l)] + during).queue == []
    ensures var joined := before + [Subscribe(l)];
            var m0, m, calls := Run(disk, joined), Run(disk, joined + during), Calls(joined + during);
            && |m0.results| <= |calls| && m0.pushes <= m.pushes
            && Heard(Cell(None, disk), calls, l) ==
               Heard(Cell(None, disk), calls[..|m0.results|], l) + Received(m.pushes[|m0.pushes|..], l)
  {
    var events := before + [Subscribe(l)] + during;
    HeardSince(disk, before, l, during);
    RunRefines(disk, events);
    var m, calls := Run(disk, events), Calls(events);
    assert |m.results| == |calls| && calls[..|m.results|] == calls;
  }

  // ---- the document in place ----

  class Doc {
    var value: Option<Json>
    var loaded: bool
    var disk: Option<Json>
    var queue: seq<Call>
    var phase: Phase
    var results: seq<Option<Json>>
    var pushes: seq<Push>
    var listeners: set<nat>

    function State(): Machine
      reads this
    {
      Machine(value, loaded, disk, queue, phase, results, pushes, listeners)
    }

    constructor (disk: Option<Json>)
      ensures State() == Fresh(disk) && Settled(State())
    {
      value, loaded, this.disk, queue, phase, results, pushes, listeners := None, false, disk, [], Idle, [], [], {};
    }

    method Enqueue(call: Call)
      requires Settled(State())
      modifies this
      ensures State() == Step(old(State()), Arrive(call)) && Settled(State())
    {
      queue := queue + [call];
    }

    method SubscribeListener(l: nat)
      requires Settled(State())
      modifies this`listeners
      ensures State() == Step(old(State()), Subscribe(l)) && Settled(State())
    {
      listeners := listeners + {l};
    }

    method UnsubscribeListener(l: nat)
      requires Settled(State())
      modifies this`listeners
      ensures State() == Step(old(State()), Unsubscribe(l)) && Settled(State())
    {
      listeners := listeners - {l};
    }

    method Return(result: Option<Json>)
      requires queue != []
      modifies this
      ensures State() == Complete(old(State()), result)
    {
      queue, phase := queue[1..], Idle;
      results := results + [result];
    }

    method Notify(v: Option<Json>, except: Option<nat>)
      modifies this`pushes
      ensures pushes == old(pushes) + [Push(v, if except.Some? then listeners - {except.value} else listeners)]
    {
      var to := {};
      var rest := listeners;
      while rest != {}
        invariant rest <= listeners && listeners == old(listeners)
        invariant to == set l | l in listeners - rest && except != Some(l)
        decreases rest
      {
        var l :| l in rest;
        rest := rest - {l};
        if except != Some(l) {
          to := to + {l};
        }
      }
      assert to == if except.Some? then listeners - {except.value} else listeners;
      pushes := pushes + [Push(v, to)];
    }

    /** The head operation has its loaded value: return it, or compute and start to persist. */
    method Proceed()
      requires queue != [] && value.Some? && !queue[0].op.Clear? && !queue[0].op.Write?
      modifies this
      ensures State() == Compute(old(State()))
    {
      match queue[0].op {
        case Read(_) => Return(value);
        case Update(patch) =>
          value := Some(Merged(value.value, patch));
          phase := Persisting(value);
        case Patch(ops) =>
          var v := ApplyPatch(value.value, ops);
          value := Some(v);
          phase := Persisting(value);
      }
    }

    /** The next step of the queue: the file system has answered, or the next operation starts. */
    method Next()
      requires Settled(State())
      modifies this
      ensures State() == Advance(old(State())) && Settled(State())
    {
      StepSettled(State(), Tick);
      match phase {
        case Persisting(v) =>
          disk := v;
          Notify(v, queue[0].origin);
          Return(v);
        case Reading =>
          var fallback := if queue[0].op.Read? then queue[0].op.fallback else Object(map[]);
          value := Some(if disk.Some? then disk.value else fallback);
          loaded := true;
          Proceed();
        case Idle =>
          if queue == [] {
            return;
          }
          match queue[0].op {
            case Write(v) => value, loaded, phase := Some(v), true, Persisting(Some(v));
            case Clear => value, loaded, phase := None, false, Persisting(None);
            case _ =>
              if loaded {
                Proceed();
              } else {
                phase := Reading;
              }
          }
      }
    }
  }
}
