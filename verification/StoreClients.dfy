/**
 Windows and the store authority as one system. Every window keeps the document it shows and
 the last document it knows the authority has; edits are flushed as key differences, patches
 and pushes travel over first-in-first-out links, and a push goes to every window but the one
 whose patch caused it.
 */
module StoreClients {
  import opened Options
  import opened StorePatch

  /** `touched` are the keys edited since the window last agreed with itself. */
  datatype Window = Window(tracked: map<string, Json>, acked: map<string, Json>, outbox: seq<seq<PatchOp>>,
                           inbox: seq<map<string, Json>>, touched: set<string>)

  datatype System = System(document: map<string, Json>, windows: seq<Window>)

  datatype Event =
    | Edit(w: nat, key: string, value: Option<Json>)
    | Flush(w: nat, ops: seq<PatchOp>)
    | PatchArrives(w: nat)
    | PushArrives(w: nat)

  // ---- one window ----

  function Edited(d: map<string, Json>, key: string, value: Option<Json>): map<string, Json> {
    if value.Some? then d[key := value.value] else d - {key}
  }

  /** A user's edit changes the tracked object only. */
  function UserEdit(v: Window, key: string, value: Option<Json>): Window {
    v.(tracked := Edited(v.tracked, key, value), touched := v.touched + {key})
  }

  /** The debounced write: send the difference, and from now on diff against what was sent. */
  function FlushWindow(v: Window, ops: seq<PatchOp>): Window {
    if ops == [] then v.(touched := {}) else v.(acked := v.tracked, outbox := v.outbox + [ops], touched := {})
  }

  /** A push is brought into the tracked document and what results is acknowledged. */
  function Applied(v: Window, value: map<string, Json>): Window {
    var d := Replaced(v.tracked, value);
    v.(tracked := d, acked := d, touched := {})
  }

  // ---- the system ----

  /** The authority merges a patch and the result is on its way to every other window. */
  function Broadcast(windows: seq<Window>, origin: nat, document: map<string, Json>): (out: seq<Window>)
    ensures |out| == |windows|
  {
    seq(|windows|, i requires 0 <= i < |windows| =>
      if i == origin then windows[i] else windows[i].(inbox := windows[i].inbox + [document]))
  }

  ghost predicate Enabled(s: System, e: Event) {
    && e.w < |s.windows|
    && match e
       case Edit(_, _, _) => true
       case Flush(w, ops) => IsKeyDiff(s.windows[w].tracked, s.windows[w].acked, ops)
       case PatchArrives(w) => s.windows[w].outbox != []
       case PushArrives(w) => s.windows[w].inbox != []
  }

  function Step(s: System, e: Event): System
    requires e.w < |s.windows|
    requires e.PatchArrives? ==> s.windows[e.w].outbox != [] && KeyOps(s.windows[e.w].outbox[0])
    requires e.PushArrives? ==> s.windows[e.w].inbox != []
  {
    var v := s.windows[e.w];
    match e
    case Edit(w, key, value) => s.(windows := s.windows[w := UserEdit(v, key, value)])
    case Flush(w, ops) => s.(windows := s.windows[w := FlushWindow(v, ops)])
    case PatchArrives(w) =>
      var d := ApplyOps(Object(s.document), v.outbox[0]);
      var document := if d.Object? then d.fields else s.document;
      System(document, Broadcast(s.windows[w := v.(outbox := v.outbox[1..])], w, document))
    case PushArrives(w) => s.(windows := s.windows[w := Applied(v, v.inbox[0]).(inbox := v.inbox[1..])])
  }

  /** A patch a flush can send: about keys, and never removing an inherited name. */
  predicate Sendable(ops: seq<PatchOp>) {
    KeyOps(ops) && forall i :: 0 <= i < |ops| && ops[i].Remove? ==> ops[i].key !in INHERITED
  }

  /** Every patch under way is one a flush can send, and a flush would say nothing about a key
      the user has not touched. */
  ghost predicate WindowOk(v: Window) {
    && (forall i :: 0 <= i < |v.outbox| ==> Sendable(v.outbox[i]))
    && (forall k :: k !in v.touched ==> !Reported(v.tracked, v.acked, k))
  }

  ghost predicate Ok(s: System) {
    forall w :: 0 <= w < |s.windows| ==> WindowOk(s.windows[w])
  }

  /** A window opened at some document, perhaps already stale, with nothing under way. */
  ghost predicate Opened(v: Window) {
    v.acked == v.tracked && v.outbox == [] && v.inbox == [] && v.touched == {}
  }

  ghost predicate Start(s: System) {
    forall w :: 0 <= w < |s.windows| ==> Opened(s.windows[w])
  }

  /** s is reached from start by the events, each possible when it happened. */
  ghost predicate Reaches(start: System, events: seq<Event>, s: System)
    decreases |events|
  {
    if events == [] then s == start && Start(start)
    else
      var n := |events| - 1;
      exists r: System :: Reaches(start, events[..n], r) && Ok(r) && Enabled(r, events[n]) && s == Step(r, events[n])
  }

  lemma StepOk(s: System, e: Event)
    requires Ok(s) && Enabled(s, e)
    ensures Ok(Step(s, e)) && |Step(s, e).windows| == |s.windows|
  {
    var t := Step(s, e);
    var v := s.windows[e.w];
    assert WindowOk(v);
    if e.Flush? {
      DiffEmpty(Object(v.tracked), Object(v.acked), e.ops);
    }
    forall w | 0 <= w < |t.windows| ensures WindowOk(t.windows[w]) {
      assert WindowOk(s.windows[w]);
    }
  }

  lemma {:induction false} ReachedOk(start: System, events: seq<Event>, s: System)
    requires Reaches(start, events, s)
    ensures Ok(s) && |s.windows| == |start.windows|
  {
    if events != [] {
      var n := |events| - 1;
      var r :| Reaches(start, events[..n], r) && Ok(r) && Enabled(r, events[n]) && s == Step(r, events[n]);
      ReachedOk(start, events[..n], r);
      StepOk(r, events[n]);
    }
  }

  // ---- pushes cause no patches ----

  /** Right after a push has been applied a flush has nothing to send: an echo is not an edit. */
  lemma PushCausesNoPatch(start: System, events: seq<Event>, s: System, w: nat, ops: seq<PatchOp>)
    requires Reaches(start, events, s) && Enabled(s, PushArrives(w))
    requires Enabled(Step(s, PushArrives(w)), Flush(w, ops))
    ensures ops == []
  {
    var v := Step(s, PushArrives(w)).windows[w];
    DiffEmpty(Object(v.tracked), Object(v.acked), ops);
  }

  /** A window never says anything about a key its user has not edited since the window last
      agreed with itself; in particular a stale push never makes it remove one. */
  lemma OnlyTouchedKeysSent(start: System, events: seq<Event>, s: System, w: nat, ops: seq<PatchOp>, key: string)
    requires Reaches(start, events, s) && Enabled(s, Flush(w, ops)) && Mentions(ops, key)
    ensures key in s.windows[w].touched
  {
    ReachedOk(start, events, s);
    assert WindowOk(s.windows[w]);
  }

  // ---- a key with one editor ----

  /** Only window a edits the key. */
  ghost predicate OnlyEditor(events: seq<Event>, a: nat, key: string) {
    forall i :: 0 <= i < |events| && events[i].Edit? && events[i].key == key ==> events[i].w == a
  }

  /** The last value window a flushed for the key, or its value at the start. */
  function LastFlushed(initial: Option<Json>, events: seq<Event>, a: nat, key: string): Option<Json> {
    if events == [] then initial
    else
      var before, e := LastFlushed(initial, events[..|events| - 1], a, key), events[|events| - 1];
      if e.Flush? && e.w == a && KeyOps(e.ops) then OnKey(before, e.ops, key) else before
  }

  /** What the patches under way will leave at the key. */
  function AfterOutbox(v: Option<Json>, outbox: seq<seq<PatchOp>>, key: string): Option<Json>
    requires forall i :: 0 <= i < |outbox| ==> KeyOps(outbox[i])
    decreases |outbox|
  {
    if outbox == [] then v else AfterOutbox(OnKey(v, outbox[0], key), outbox[1..], key)
  }

  lemma {:induction false} AfterOutboxAppend(v: Option<Json>, outbox: seq<seq<PatchOp>>, ops: seq<PatchOp>, key: string)
    requires KeyOps(ops) && forall i :: 0 <= i < |outbox| ==> KeyOps(outbox[i])
    ensures AfterOutbox(v, outbox + [ops], key) == OnKey(AfterOutbox(v, outbox, key), ops, key)
    decreases |outbox|
  {
    if outbox == [] {
      assert ([] + [ops])[1..] == [];
      assert AfterOutbox(v, [ops], key) == AfterOutbox(OnKey(v, ops, key), [], key);
      assert outbox + [ops] == [ops];
    } else {
      AfterOutboxAppend(OnKey(v, outbox[0], key), outbox[1..], ops, key);
      assert (outbox + [ops])[1..] == outbox[1..] + [ops];
    }
  }

  /** Nobody but a has touched the key or has anything about it under way. */
  ghost predicate Quiet(v: Window, key: string) {
    key !in v.touched && forall i :: 0 <= i < |v.outbox| ==> KeyOps(v.outbox[i]) && !Mentions(v.outbox[i], key)
  }

  ghost predicate Owned(s: System, a: nat, key: string, last: Option<Json>) {
    && a < |s.windows| && Ok(s)
    && (forall w :: 0 <= w < |s.windows| && w != a ==> Quiet(s.windows[w], key))
    && (assert WindowOk(s.windows[a]); AfterOutbox(Lookup(Object(s.document), key), s.windows[a].outbox, key) == last)
  }

  function NextFlushed(last: Option<Json>, e: Event, a: nat, key: string): Option<Json> {
    if e.Flush? && e.w == a && KeyOps(e.ops) then OnKey(last, e.ops, key) else last
  }

  lemma OwnedStep(s: System, e: Event, a: nat, key: string, last: Option<Json>)
    requires Owned(s, a, key, last) && Enabled(s, e)
    requires e.Edit? && e.key == key ==> e.w == a
    ensures Owned(Step(s, e), a, key, NextFlushed(last, e, a, key))
  {
    var t := Step(s, e);
    StepOk(s, e);
    assert WindowOk(s.windows[a]) && WindowOk(s.windows[e.w]) && WindowOk(t.windows[a]);
    forall w | 0 <= w < |t.windows| && w != a ensures Quiet(t.windows[w], key) {
      QuietStep(s, e, w, key);
    }
    match e {
      case Flush(w, ops) =>
        if w == a {
          AfterOutboxAppend(Lookup(Object(s.document), key), s.windows[a].outbox, ops, key);
        }
      case PatchArrives(w) =>
        PatchByKey(Object(s.document), s.windows[w].outbox[0], key);
        ArrivedLookup(s, w, key);
        if w != a {
          assert Quiet(s.windows[w], key);
          UnmentionedKey(Lookup(Object(s.document), key), s.windows[w].outbox[0], key);
        }
      case Edit(_, _, _) =>
      case PushArrives(_) =>
    }
  }

  lemma ArrivedLookup(s: System, w: nat, key: string)
    requires Ok(s) && Enabled(s, PatchArrives(w)) && KeyOps(s.windows[w].outbox[0])
    ensures Lookup(Object(Step(s, PatchArrives(w)).document), key) ==
            OnKey(Lookup(Object(s.document), key), s.windows[w].outbox[0], key)
  {
    PatchByKey(Object(s.document), s.windows[w].outbox[0], key);
    ObjectStays(Object(s.document), s.windows[w].outbox[0]);
  }

  lemma {:induction false} ObjectStays(d: Json, ops: seq<PatchOp>)
    requires d.Object? && KeyOps(ops)
    ensures ApplyOps(d, ops).Object?
  {
    if ops != [] {
      PatchByKey(d, ops, "");
    }
  }

  lemma QuietStep(s: System, e: Event, w: nat, key: string)
    requires Ok(s) && Enabled(s, e) && w < |s.windows| && Quiet(s.windows[w], key)
    requires KeyOps(if e.PatchArrives? then s.windows[e.w].outbox[0] else [])
    requires e.Edit? && e.w == w ==> e.key != key
    ensures Quiet(Step(s, e).windows[w], key)
  {
    assert WindowOk(s.windows[w]);
  }

  lemma {:induction false} OwnedRun(start: System, events: seq<Event>, s: System, a: nat, key: string)
    requires Reaches(start, events, s) && a < |start.windows| && OnlyEditor(events, a, key)
    ensures Owned(s, a, key, LastFlushed(Lookup(Object(start.document), key), events, a, key))
  {
    if events != [] {
      var n := |events| - 1;
      var r :| Reaches(start, events[..n], r) && Ok(r) && Enabled(r, events[n]) && s == Step(r, events[n]);
      assert forall i :: 0 <= i < n ==> events[..n][i] == events[i];
      OwnedRun(start, events[..n], r, a, key);
      OwnedStep(r, events[n], a, key, LastFlushed(Lookup(Object(start.document), key), events[..n], a, key));
    }
  }

  /** A key edited by one window only ends at the authority with that window's last flushed
      value once its patches have arrived, whatever everybody else does in between. */
  lemma OwnerWins(start: System, events: seq<Event>, s: System, a: nat, key: string)
    requires Reaches(start, events, s) && a < |s.windows| && OnlyEditor(events, a, key)
    requires s.windows[a].outbox == []
    ensures Lookup(Object(s.document), key) == LastFlushed(Lookup(Object(start.document), key), events, a, key)
  {
    ReachedOk(start, events, s);
    OwnedRun(start, events, s, a, key);
  }

  // ---- an edit on its way ----

  /** The window edits the key at i, and neither edits it again nor takes in a push before n. */
  ghost predicate EditStands(events: seq<Event>, a: nat, key: string, value: Option<Json>, i: nat, n: nat) {
    && i < n <= |events| && events[i] == Edit(a, key, value)
    && forall j :: i < j < n ==> !(events[j].Edit? && events[j].w == a && events[j].key == key)
                                 && events[j] != PushArrives(a)
  }

  /** The state before the last event of a run. */
  lemma LastStep(start: System, events: seq<Event>, s: System) returns (r: System)
    requires Reaches(start, events, s) && events != []
    ensures var e := events[|events| - 1];
            && Reaches(start, events[..|events| - 1], r) && Ok(r) && Enabled(r, e)
            && (e.PatchArrives? ==> KeyOps(r.windows[e.w].outbox[0])) && s == Step(r, e)
  {
    var n := |events| - 1;
    r :| Reaches(start, events[..n], r) && Ok(r) && Enabled(r, events[n]) && s == Step(r, events[n]);
    hide Reaches;
    assert WindowOk(r.windows[events[n].w]);
  }

  lemma EditShows(r: System, a: nat, key: string, value: Option<Json>)
    requires a < |r.windows|
    ensures Lookup(Object(Step(r, Edit(a, key, value)).windows[a].tracked), key) == value
  {
  }

  /** Until then the window shows the edit. */
  lemma {:induction false} ShowsEdit(start: System, events: seq<Event>, s: System, a: nat, key: string,
                                     value: Option<Json>, i: nat)
    requires Reaches(start, events, s) && a < |s.windows| && EditStands(events, a, key, value, i, |events|)
    ensures Lookup(Object(s.windows[a].tracked), key) == value
  {
    hide Reaches, Ok, Lookup;
    var n := |events| - 1;
    var r := LastStep(start, events, s);
    StepOk(r, events[n]);
    hide Enabled, Step;
    if i < n {
      ShowsEdit(start, events[..n], r, a, key, value, i);
      OthersShow(r, events[n], a, key);
    } else {
      EditShows(r, a, key, value);
    }
  }

  lemma OthersShow(r: System, e: Event, a: nat, key: string)
    requires Ok(r) && Enabled(r, e) && a < |r.windows| && e != PushArrives(a)
    requires !(e.Edit? && e.w == a && e.key == key)
    requires e.PatchArrives? ==> KeyOps(r.windows[e.w].outbox[0])
    ensures a < |Step(r, e).windows|
    ensures Lookup(Object(Step(r, e).windows[a].tracked), key) == Lookup(Object(r.windows[a].tracked), key)
  {
    hide ApplyOps, IsKeyDiff;
  }

  /** The window does not edit the key from i on. */
  ghost predicate Untouched(events: seq<Event>, a: nat, key: string, i: nat) {
    forall j :: i <= j < |events| ==> !(events[j].Edit? && events[j].w == a && events[j].key == key)
  }

  /** After a flush a window says nothing more of a key it does not edit again. */
  lemma {:induction false} SaidAtLast(start: System, events: seq<Event>, s: System, a: nat, key: string,
                                      initial: Option<Json>, ops: seq<PatchOp>, j: nat)
    requires Reaches(start, events, s) && a < |s.windows| && j < |events| && events[j] == Flush(a, ops)
    requires Untouched(events, a, key, j)
    ensures key !in s.windows[a].touched
    ensures LastFlushed(initial, events, a, key) == LastFlushed(initial, events[..j + 1], a, key)
  {
    hide Reaches, ApplyOps, OnKey, Replaced;
    var n := |events| - 1;
    var r := LastStep(start, events, s);
    StepOk(r, events[n]);
    if j == n {
      assert events[..j + 1] == events;
    } else {
      assert events[..n][..j + 1] == events[..j + 1];
      SaidAtLast(start, events[..n], r, a, key, initial, ops, j);
      assert WindowOk(r.windows[a]);
      if events[n].Flush? && events[n].w == a {
        FlushedKey(r.windows[a].tracked, r.windows[a].acked, events[n].ops,
                   LastFlushed(initial, events[..n], a, key), key);
      }
    }
  }

  /** What a flush says of a key is what the window shows under it. */
  lemma FlushSays(start: System, events: seq<Event>, r: System, a: nat, key: string, value: Option<Json>,
                  initial: Option<Json>, ops: seq<PatchOp>, i: nat)
    requires Reaches(start, events, r) && a < |r.windows| && EditStands(events, a, key, value, i, |events|)
    requires Enabled(r, Flush(a, ops)) && Mentions(ops, key)
    ensures LastFlushed(initial, events + [Flush(a, ops)], a, key) == value
  {
    ShowsEdit(start, events, r, a, key, value, i);
    assert (events + [Flush(a, ops)])[..|events|] == events;
    FlushedKey(r.windows[a].tracked, r.windows[a].acked, ops, LastFlushed(initial, events, a, key), key);
    hide Reaches;
  }

  /** The state after the first n events of a run. */
  lemma {:induction false} Midway(start: System, events: seq<Event>, s: System, n: nat) returns (r: System)
    requires Reaches(start, events, s) && n < |events|
    ensures Reaches(start, events[..n], r) && Enabled(r, events[n]) && |r.windows| == |s.windows|
  {
    var k := |events| - 1;
    var q :| Reaches(start, events[..k], q) && Ok(q) && Enabled(q, events[k]) && s == Step(q, events[k]);
    StepOk(q, events[k]);
    hide Reaches, Ok, Enabled, Step;
    if n == k {
      r := q;
    } else {
      r := Midway(start, events[..k], q, n);
      assert events[..k][..n] == events[..n];
    }
  }

  /** An edit lands: when its window is the only one that edits the key and neither edits it again
      nor takes in a push before a flush that speaks of it, the authority ends with the edited
      value once the window's patches have arrived, whatever everybody does meanwhile. */
  lemma EditLands(start: System, events: seq<Event>, s: System, a: nat, key: string, value: Option<Json>,
                  ops: seq<PatchOp>, i: nat, j: nat)
    requires Reaches(start, events, s) && a < |s.windows| && OnlyEditor(events, a, key)
    requires j < |events| && EditStands(events, a, key, value, i, j)
    requires events[j] == Flush(a, ops) && KeyOps(ops) && Mentions(ops, key) && Untouched(events, a, key, j)
    requires s.windows[a].outbox == []
    ensures Lookup(Object(s.document), key) == value
  {
    hide Reaches, LastFlushed, Enabled, OnlyEditor, Untouched, Mentions, Lookup;
    var initial := Lookup(Object(start.document), key);
    OwnerWins(start, events, s, a, key);
    SaidAtLast(start, events, s, a, key, initial, ops, j);
    var r := Midway(start, events, s, j);
    assert events[..j + 1] == events[..j] + [Flush(a, ops)];
    assert EditStands(events[..j], a, key, value, i, j);
    hide EditStands;
    FlushSays(start, events[..j], r, a, key, value, initial, ops, i);
  }

  // ---- a document with one editor ----

  /** Only window a edits anything. */
  ghost predicate SoleEditor(events: seq<Event>, a: nat) {
    forall i :: 0 <= i < |events| && events[i].Edit? ==> events[i].w == a
  }

  /** No inherited name of one document is missing from another. */
  ghost predicate Grows(d: map<string, Json>, e: map<string, Json>) {
    forall k :: k in INHERITED && k in d ==> k in e
  }

  /** The pushes on their way to a window end at the document, losing no inherited name. */
  ghost predicate Chain(tracked: map<string, Json>, inbox: seq<map<string, Json>>, document: map<string, Json>) {
    if inbox == [] then tracked == document
    else
      && inbox[|inbox| - 1] == document
      && (forall i :: 0 <= i < |inbox| ==> Grows(tracked, inbox[i]))
      && (forall i, j :: 0 <= i < j < |inbox| ==> Grows(inbox[i], inbox[j]))
  }

  ghost predicate Follower(v: Window, document: map<string, Json>) {
    v.outbox == [] && v.tracked == v.acked && Chain(v.tracked, v.inbox, document)
  }

  /** An inherited name the editor removed: no patch says so, and the authority keeps it. */
  predicate Lingers(acked: map<string, Json>, key: string) {
    key in INHERITED && key !in acked
  }

  /** What the patches under way leave at the key is what the editor knows, unless it lingers. */
  ghost predicate LeaderAt(v: Window, document: map<string, Json>, key: string)
    requires WindowOk(v)
  {
    AfterOutbox(Lookup(Object(document), key), v.outbox, key) == Lookup(Object(v.acked), key) || Lingers(v.acked, key)
  }

  ghost predicate Led(s: System, a: nat) {
    && a < |s.windows| && Ok(s) && s.windows[a].inbox == []
    && (forall k :: LedAt(s, a, k))
    && forall w :: 0 <= w < |s.windows| && w != a ==> Follower(s.windows[w], s.document)
  }

  ghost predicate LedAt(s: System, a: nat, key: string)
    requires a < |s.windows| && Ok(s)
  {
    WindowOk(s.windows[a]) && LeaderAt(s.windows[a], s.document, key)
  }

  lemma {:induction false} InheritedStays(v: Option<Json>, ops: seq<PatchOp>, key: string)
    requires Sendable(ops) && key in INHERITED && v.Some?
    ensures OnKey(v, ops, key).Some?
  {
    if ops != [] {
      assert forall i :: 0 <= i < |ops| - 1 ==> ops[..|ops| - 1][i] == ops[i];
      InheritedStays(v, ops[..|ops| - 1], key);
    }
  }

  /** A patch that arrives loses no inherited name of the document. */
  lemma ArrivalGrows(s: System, w: nat)
    requires Ok(s) && Enabled(s, PatchArrives(w)) && Sendable(s.windows[w].outbox[0])
    ensures Grows(s.document, Step(s, PatchArrives(w)).document)
  {
    forall k | k in INHERITED && k in s.document ensures k in Step(s, PatchArrives(w)).document {
      ArrivedLookup(s, w, k);
      InheritedStays(Lookup(Object(s.document), k), s.windows[w].outbox[0], k);
    }
  }

  lemma LeaderStep(s: System, e: Event, a: nat, key: string)
    requires Led(s, a) && Enabled(s, e) && (e.Edit? ==> e.w == a)
    ensures Ok(Step(s, e)) && a < |Step(s, e).windows| && LedAt(Step(s, e), a, key)
  {
    StepOk(s, e);
    assert LedAt(s, a, key);
    var v := s.windows[e.w];
    assert WindowOk(v) && WindowOk(Step(s, e).windows[a]);
    if e.w != a {
      assert Follower(v, s.document);
    } else if e.Flush? {
      var now := AfterOutbox(Lookup(Object(s.document), key), v.outbox, key);
      AfterOutboxAppend(Lookup(Object(s.document), key), v.outbox, e.ops, key);
      FlushedKey(v.tracked, v.acked, e.ops, now, key);
    } else if e.PatchArrives? {
      ArrivedLookup(s, a, key);
    }
  }

  /** What a flushed difference makes of one key. */
  lemma FlushedKey(next: map<string, Json>, prev: map<string, Json>, ops: seq<PatchOp>, v: Option<Json>, key: string)
    requires IsKeyDiff(next, prev, ops)
    ensures OnKey(v, ops, key) == if Reported(next, prev, key) then Lookup(Object(next), key) else v
  {
    if Mentions(ops, key) {
      DiffOnKey(v, next, ops, key);
    } else {
      UnmentionedKey(v, ops, key);
    }
  }

  lemma FollowerStep(s: System, e: Event, a: nat, w: nat)
    requires Led(s, a) && Enabled(s, e) && (e.Edit? ==> e.w == a) && w < |s.windows| && w != a
    ensures Follower(Step(s, e).windows[w], Step(s, e).document)
  {
    var v := s.windows[w];
    assert Follower(v, s.document) && WindowOk(s.windows[e.w]);
    assert e.w != a ==> Follower(s.windows[e.w], s.document);
    match e {
      case Flush(u, ops) =>
        DiffEmpty(Object(s.windows[u].tracked), Object(s.windows[u].acked), ops);
      case PatchArrives(u) =>
        ArrivalGrows(s, u);
        ChainOn(v.tracked, v.inbox, s.document, Step(s, e).document);
      case PushArrives(u) =>
        if u == w {
          ReplacedIff(v.tracked, v.inbox[0]);
          assert Grows(v.tracked, v.inbox[0]);
        }
      case Edit(_, _, _) =>
    }
  }

  lemma ChainOn(tracked: map<string, Json>, inbox: seq<map<string, Json>>, document: map<string, Json>,
                next: map<string, Json>)
    requires Chain(tracked, inbox, document) && Grows(document, next)
    ensures Chain(tracked, inbox + [next], next)
  {
    var out := inbox + [next];
    forall i | 0 <= i < |inbox| ensures Grows(inbox[i], next) {
      assert i < |inbox| - 1 ==> Grows(inbox[i], inbox[|inbox| - 1]);
    }
    forall i | 0 <= i < |out| ensures Grows(tracked, out[i]) {
      assert i == |inbox| && inbox != [] ==> Grows(tracked, inbox[|inbox| - 1]);
    }
  }

  lemma LedStep(s: System, e: Event, a: nat)
    requires Led(s, a) && Enabled(s, e) && (e.Edit? ==> e.w == a)
    ensures Led(Step(s, e), a)
  {
    StepOk(s, e);
    assert e.w != a ==> Follower(s.windows[e.w], s.document);
    forall w | 0 <= w < |s.windows| && w != a ensures Follower(Step(s, e).windows[w], Step(s, e).document) {
      FollowerStep(s, e, a, w);
    }
    forall k ensures LedAt(Step(s, e), a, k) {
      LeaderStep(s, e, a, k);
    }
  }

  lemma {:induction false} LedRun(start: System, events: seq<Event>, s: System, a: nat)
    requires Reaches(start, events, s) && a < |start.windows| && SoleEditor(events, a)
    requires forall w :: 0 <= w < |start.windows| ==> start.windows[w].tracked == start.document
    ensures Led(s, a)
  {
    if events == [] {
      forall k ensures LedAt(s, a, k) {
        assert WindowOk(s.windows[a]);
      }
    } else {
      var n := |events| - 1;
      var r :| Reaches(start, events[..n], r) && Ok(r) && Enabled(r, events[n]) && s == Step(r, events[n]);
      assert forall i :: 0 <= i < n ==> events[..n][i] == events[i];
      LedRun(start, events[..n], r, a);
      LedStep(r, events[n], a);
    }
  }

  predicate Sets(ops: seq<PatchOp>, key: string) {
    exists j :: 0 <= j < |ops| && ops[j].Set? && ops[j].key == key
  }

  /** The document held the key at the start, or window a flushed a value for it since. */
  predicate EverSent(initial: map<string, Json>, events: seq<Event>, a: nat, key: string) {
    if events == [] then key in initial
    else
      var e := events[|events| - 1];
      EverSent(initial, events[..|events| - 1], a, key) || (e.Flush? && e.w == a && Sets(e.ops, key))
  }

  /** A patch leaves an inherited name with a value exactly when it had one or is given one. */
  lemma {:induction false} InheritedSet(v: Option<Json>, ops: seq<PatchOp>, key: string)
    requires Sendable(ops) && key in INHERITED
    ensures OnKey(v, ops, key).Some? <==> v.Some? || Sets(ops, key)
  {
    if ops != [] {
      var n := |ops| - 1;
      assert forall i :: 0 <= i < n ==> ops[..n][i] == ops[i];
      InheritedSet(v, ops[..n], key);
      assert Sets(ops, key) <==> Sets(ops[..n], key) || (ops[n].Set? && ops[n].key == key);
    }
  }

  /** What a flushed difference can be sent as. */
  lemma FlushSendable(next: map<string, Json>, prev: map<string, Json>, ops: seq<PatchOp>)
    requires IsKeyDiff(next, prev, ops)
    ensures Sendable(ops)
  {
  }

  /** An inherited name once sent stays among what was last flushed. */
  lemma {:induction false} FlushedEverSent(start: System, events: seq<Event>, s: System, a: nat, key: string)
    requires Reaches(start, events, s) && key in INHERITED
    ensures LastFlushed(Lookup(Object(start.document), key), events, a, key).Some? <==>
            EverSent(start.document, events, a, key)
  {
    if events != [] {
      var n := |events| - 1;
      var e := events[n];
      var r :| Reaches(start, events[..n], r) && Ok(r) && Enabled(r, e) && s == Step(r, e);
      FlushedEverSent(start, events[..n], r, a, key);
      if e.Flush? {
        FlushSendable(r.windows[e.w].tracked, r.windows[e.w].acked, e.ops);
        InheritedSet(LastFlushed(Lookup(Object(start.document), key), events[..n], a, key), e.ops, key);
      }
      hide Reaches, Step, IsKeyDiff, Ok, OnKey, Sets;
    }
  }

  /** With one editor and nothing under way, every window and the authority show one document.
      It is what the editor last flushed at every key but the inherited names it removed; it is
      that document itself exactly when the editor still has every inherited name that was in
      the document at the start or that it ever sent. */
  lemma SoleEditorConverges(start: System, events: seq<Event>, s: System, a: nat, w: nat)
    requires Reaches(start, events, s) && a < |s.windows| && w < |s.windows| && SoleEditor(events, a)
    requires forall i :: 0 <= i < |start.windows| ==> start.windows[i].tracked == start.document
    requires forall i :: 0 <= i < |s.windows| ==> s.windows[i].outbox == [] && s.windows[i].inbox == []
    ensures w != a ==> s.windows[w].tracked == s.windows[w].acked == s.document
    ensures var acked := s.windows[a].acked;
            forall k :: Lookup(Object(acked), k) != Lookup(Object(s.document), k) ==> Lingers(acked, k)
    ensures var acked := s.windows[a].acked;
            acked == s.document <==>
            forall k :: k in INHERITED && EverSent(start.document, events, a, k) ==> k in acked
  {
    ReachedOk(start, events, s);
    LedRun(start, events, s, a);
    var acked := s.windows[a].acked;
    forall k ensures Lookup(Object(acked), k) == Lookup(Object(s.document), k) || Lingers(acked, k) {
      assert LedAt(s, a, k);
    }
    forall k | k in INHERITED ensures EverSent(start.document, events, a, k) <==> k in s.document {
      OwnerWins(start, events, s, a, k);
      FlushedEverSent(start, events, s, a, k);
    }
    hide Reaches, Led, EverSent;
    if forall k :: k in s.document ==> !Lingers(acked, k) {
      SameLookups(Object(acked), Object(s.document));
    }
  }

  // ---- the client in place ----

  /** The renderer's copy of one document: the tracked object, the acknowledged snapshot, and
      the guards of the debounced write. `sent` are the patches handed to the bridge. */
  class StoreClient {
    const tracked: Tracked
    var acked: map<string, Json>
    var applying: bool
    var writePending: bool
    var sent: seq<seq<PatchOp>>

    /** The window this client is, apart from what is on its way to it. */
    ghost predicate Is(v: Window)
      reads this, tracked
    {
      tracked.fields == v.tracked && acked == v.acked && sent == v.outbox
    }

    /** Between calls no push is being applied, and while there is something to send a write is
        queued. */
    ghost predicate Valid()
      reads this, tracked
    {
      !applying && (writePending || forall k :: !Reported(tracked.fields, acked, k))
    }

    constructor (initial: map<string, Json>)
      ensures Valid() && fresh(tracked) && Is(Window(initial, initial, [], [], {}))
    {
      tracked := new Tracked(initial);
      acked, applying, writePending, sent := initial, false, false, [];
    }

    method QueueWrite()
      modifies this`writePending
      ensures writePending == (old(writePending) || !applying)
    {
      if applying || writePending {
        return;
      }
      writePending := true;
    }

    /** The user changes a key; the watcher queues a write. */
    method EditKey(key: string, value: Option<Json>)
      requires Valid()
      modifies this, tracked
      ensures Valid() && tracked.fields == Edited(old(tracked.fields), key, value)
      ensures acked == old(acked) && sent == old(sent) && writePending
    {
      tracked.fields := if value.Some? then tracked.fields[key := value.value] else tracked.fields - {key};
      QueueWrite();
    }

    /** The queued write runs. */
    method Microtask() returns (ops: seq<PatchOp>)
      requires Valid() && writePending
      modifies this
      ensures Valid() && tracked.fields == old(tracked.fields) && !writePending
      ensures IsKeyDiff(old(tracked.fields), old(acked), ops)
      ensures forall v :: old(Is(v)) ==> Is(FlushWindow(v, ops))
    {
      writePending := false;
      ops := DiffKeys(Object(tracked.fields), Object(acked));
      DiffEmpty(Object(tracked.fields), Object(acked), ops);
      if |ops| == 0 {
        return;
      }
      acked := tracked.fields;
      sent := sent + [ops];
    }

    /** A change made by another window arrives; the watcher may fire during or after it. */
    method ApplyIncoming(value: Option<map<string, Json>>)
      requires Valid()
      modifies this, tracked
      ensures Valid() && sent == old(sent)
      ensures tracked.fields == acked == if value.Some? then Replaced(old(tracked.fields), value.value) else map[]
      ensures value.Some? ==> forall v :: old(Is(v)) ==> Is(Applied(v, value.value))
    {
      applying := true;
      tracked.ReplaceInPlace(value);
      acked := tracked.fields;
      applying := false;
      QueueWrite();
    }
  }
}
