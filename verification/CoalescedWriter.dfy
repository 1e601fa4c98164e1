/**
 The latest-value write coalescer of one device: one write at a time, newer values replacing
 queued ones, accepted values persisted on a trailing debounce. Writes settle, timers fire
 and persists finish at any time between calls.
 */
module CoalescedWriter {
  import opened Options
  import opened InsertionMap

  /** Values are only stored and passed on. */
  type Value = int
  type Item = Entry<string, Value>

  /** The value waiting under a key, if any. */
  function Waiting(m: seq<Item>, key: string): seq<Value> {
    match Find(m, key) case None => [] case Some(v) => [v]
  }

  /** The values logged under a key, in order. */
  function Values(s: seq<Item>, key: string): seq<Value> {
    if s == [] then []
    else
      var last := s[|s| - 1];
      Values(s[..|s| - 1], key) + if last.key == key then [last.value] else []
  }

  lemma ValuesMore(s: seq<Item>, x: Item, key: string)
    ensures Values(s + [x], key) == Values(s, key) + if x.key == key then [x.value] else []
  {
    assert (s + [x])[..|s|] == s;
  }

  // ---- subsequences ----

  ghost predicate Subsequence(a: seq<Value>, b: seq<Value>) {
    if a == [] then true
    else if b == [] then false
    else
      || Subsequence(a, b[..|b| - 1])
      || (a[|a| - 1] == b[|b| - 1] && Subsequence(a[..|a| - 1], b[..|b| - 1]))
  }

  lemma SubsequenceMore(a: seq<Value>, b: seq<Value>, x: Value)
    requires Subsequence(a, b)
    ensures Subsequence(a, b + [x]) && Subsequence(a + [x], b + [x])
  {
    assert (b + [x])[..|b|] == b && (a + [x])[..|a|] == a;
  }

  lemma {:induction false} SubsequenceLess(a: seq<Value>, x: Value, b: seq<Value>)
    requires Subsequence(a + [x], b)
    ensures Subsequence(a, b)
  {
    assert (a + [x])[..|a|] == a;
    if Subsequence(a + [x], b[..|b| - 1]) {
      SubsequenceLess(a, x, b[..|b| - 1]);
    }
  }

  // ---- a coalescing buffer ----

  /** Of what came in under a key, what went out and then the waiting value are a subsequence;
      a waiting value is the last one that came in; with nothing waiting, and nothing dropped
      since the last one came in, that one is the last one out. */
  ghost predicate Coalesced(came: seq<Value>, out: seq<Value>, waiting: seq<Value>, dropped: bool) {
    && |waiting| <= 1
    && Subsequence(out + waiting, came)
    && (waiting != [] ==> came != [] && waiting[0] == came[|came| - 1])
    && (waiting == [] && !dropped && came == [] ==> out == [])
    && (waiting == [] && !dropped && came != [] ==> out != [] && out[|out| - 1] == came[|came| - 1])
  }

  lemma CoalescedIn(came: seq<Value>, out: seq<Value>, waiting: seq<Value>, dropped: bool, x: Value)
    requires Coalesced(came, out, waiting, dropped)
    ensures Coalesced(came + [x], out, [x], false)
  {
    CoalescedDrop(came, out, waiting, dropped);
    assert out + [] == out;
    SubsequenceMore(out, came, x);
  }

  lemma CoalescedOut(came: seq<Value>, out: seq<Value>, x: Value, dropped: bool)
    requires Coalesced(came, out, [x], dropped)
    ensures Coalesced(came, out + [x], [], dropped)
  {
    assert (out + [x]) + [] == out + [x];
  }

  lemma CoalescedDrop(came: seq<Value>, out: seq<Value>, waiting: seq<Value>, dropped: bool)
    requires Coalesced(came, out, waiting, dropped)
    ensures Coalesced(came, out, [], true)
  {
    assert out + [] == out;
    if waiting != [] {
      assert out + waiting == out + [waiting[0]];
      SubsequenceLess(out, waiting[0], came);
    }
  }

  lemma CoalescedIdle(came: seq<Value>, out: seq<Value>)
    requires Coalesced(came, out, [], false) && came != []
    ensures out != [] && out[|out| - 1] == came[|came| - 1]
  {
  }

  // ---- the writer ----

  /** `enqueued` are the values handed to the persist chain, of which the first `persisted`
      have gone through; the logs record what was submitted, started and accepted. The dropped
      keys had a value thrown away while it waited, and none newer since. */
  datatype Writer = Writer(pending: seq<Item>, pumping: bool, disposed: bool, persists: seq<Item>,
                           enqueued: seq<Item>, persisted: nat, inFlight: seq<Item>,
                           submitted: seq<Item>, written: seq<Item>, accepted: seq<Item>,
                           droppedWrites: set<string>, droppedPersists: set<string>)

  datatype Event =
    | Submit(key: string, value: Value)
    | WriteSettles(ok: bool)
    | TimerFires(key: string)
    | PersistSettles
    | ClearAll
    | Dispose

  const START := Writer([], false, false, [], [], 0, [], [], [], [], {}, {})

  /** The head of the pump loop: start the oldest queued write, or stop pumping. */
  function Pump(w: Writer): Writer {
    if w.disposed || w.pending == [] then w.(pumping := false)
    else
      var x := w.pending[0];
      w.(pumping := true, pending := Remove(w.pending, x.key), inFlight := w.inFlight + [x], written := w.written + [x])
  }

  /** An accepted value is persisted after the debounce, or at once after disposal. */
  function Schedule(w: Writer, x: Item): Writer {
    var v := w.(accepted := w.accepted + [x], droppedPersists := w.droppedPersists - {x.key});
    if w.disposed then v.(persists := Remove(w.persists, x.key), enqueued := w.enqueued + [x])
    else v.(persists := Put(w.persists, x.key, x.value))
  }

  function Flush(w: Writer, key: string): Writer {
    match Find(w.persists, key)
    case None => w
    case Some(value) => w.(persists := Remove(w.persists, key), enqueued := w.enqueued + [Entry(key, value)])
  }

  function FlushAll(w: Writer, keys: seq<Item>): Writer {
    if keys == [] then w else Flush(FlushAll(w, keys[..|keys| - 1]), keys[|keys| - 1].key)
  }

  function Queued(w: Writer, key: string, value: Value): Writer {
    w.(pending := Put(w.pending, key, value), submitted := w.submitted + [Entry(key, value)],
       droppedWrites := w.droppedWrites - {key})
  }

  /** Disposal up to the flush: whatever is queued is dropped. */
  function Closed(w: Writer): Writer {
    w.(disposed := true, pending := [], droppedWrites := w.droppedWrites + Keys(w.pending))
  }

  function Step(w: Writer, e: Event): Writer {
    match e
    case Submit(key, value) =>
      if w.disposed then w else if w.pumping then Queued(w, key, value) else Pump(Queued(w, key, value))
    case WriteSettles(ok) =>
      if w.inFlight == [] then w
      else
        var v := w.(inFlight := w.inFlight[1..]);
        Pump(if ok then Schedule(v, w.inFlight[0]) else v)
    case TimerFires(key) => Flush(w, key)
    case PersistSettles => if w.persisted < |w.enqueued| then w.(persisted := w.persisted + 1) else w
    case ClearAll =>
      w.(pending := [], persists := [], droppedWrites := w.droppedWrites + Keys(w.pending),
         droppedPersists := w.droppedPersists + Keys(w.persists))
    case Dispose => FlushAll(Closed(w), w.persists)
  }

  function Run(events: seq<Event>): Writer {
    if events == [] then START else Step(Run(events[..|events| - 1]), events[|events| - 1])
  }

  // ---- what holds in every run ----

  ghost predicate WritesOk(w: Writer, k: string) {
    Coalesced(Values(w.submitted, k), Values(w.written, k), Waiting(w.pending, k), k in w.droppedWrites)
  }

  ghost predicate PersistsOk(w: Writer, k: string) {
    Coalesced(Values(w.accepted, k), Values(w.enqueued, k), Waiting(w.persists, k), k in w.droppedPersists)
  }

  ghost predicate Shape(w: Writer) {
    && Distinct(w.pending) && Distinct(w.persists) && w.persisted <= |w.enqueued|
    && |w.inFlight| <= 1 && (w.pumping <==> |w.inFlight| == 1)
    && (!w.pumping || w.disposed ==> w.pending == [])
  }

  ghost predicate Ok(w: Writer) {
    Shape(w) && forall k :: WritesOk(w, k) && PersistsOk(w, k)
  }

  lemma PumpShape(w: Writer)
    requires Distinct(w.pending) && Distinct(w.persists) && w.persisted <= |w.enqueued|
    requires w.inFlight == [] && (w.disposed ==> w.pending == [])
    ensures Shape(Pump(w))
  {
    if !w.disposed && w.pending != [] {
      RemoveDistinct(w.pending, w.pending[0].key);
    }
  }

  lemma PumpKey(w: Writer, k: string)
    requires Distinct(w.pending) && WritesOk(w, k) && PersistsOk(w, k)
    ensures WritesOk(Pump(w), k) && PersistsOk(Pump(w), k)
  {
    if !w.disposed && w.pending != [] {
      var x := w.pending[0];
      hide Coalesced, Values;
      ValuesMore(w.written, x, k);
      RemoveFind(w.pending, x.key, k);
      if k == x.key {
        CoalescedOut(Values(w.submitted, k), Values(w.written, k), x.value, k in w.droppedWrites);
      } else {
        assert Values(w.written, k) + [] == Values(w.written, k);
      }
    }
  }

  lemma QueuedKey(w: Writer, key: string, value: Value, k: string)
    requires WritesOk(w, k) && PersistsOk(w, k)
    ensures WritesOk(Queued(w, key, value), k) && PersistsOk(Queued(w, key, value), k)
  {
    hide Coalesced, Values, Find, Put;
    ValuesMore(w.submitted, Entry(key, value), k);
    PutFind(w.pending, key, value, k);
    if k == key {
      CoalescedIn(Values(w.submitted, k), Values(w.written, k), Waiting(w.pending, k), k in w.droppedWrites, value);
    } else {
      assert Values(w.submitted, k) + [] == Values(w.submitted, k);
    }
  }

  lemma ScheduleKey(w: Writer, x: Item, k: string)
    requires Distinct(w.persists) && WritesOk(w, k) && PersistsOk(w, k)
    ensures WritesOk(Schedule(w, x), k) && PersistsOk(Schedule(w, x), k)
  {
    hide Coalesced, Values, Find, Put, Remove;
    ValuesMore(w.accepted, x, k);
    ValuesMore(w.enqueued, x, k);
    PutFind(w.persists, x.key, x.value, k);
    RemoveFind(w.persists, x.key, k);
    var came, out := Values(w.accepted, k), Values(w.enqueued, k);
    if k == x.key {
      CoalescedIn(came, out, Waiting(w.persists, k), k in w.droppedPersists, x.value);
      CoalescedOut(came + [x.value], out, x.value, false);
    } else {
      assert came + [] == came && out + [] == out;
    }
  }

  lemma ScheduleShape(w: Writer, x: Item)
    requires Distinct(w.persists)
    ensures Distinct(Schedule(w, x).persists)
  {
    RemoveDistinct(w.persists, x.key);
    PutDistinct(w.persists, x.key, x.value);
  }

  lemma FlushKey(w: Writer, key: string, k: string)
    requires Distinct(w.persists) && WritesOk(w, k) && PersistsOk(w, k)
    ensures WritesOk(Flush(w, key), k) && PersistsOk(Flush(w, key), k)
    ensures Distinct(Flush(w, key).persists)
            && Find(Flush(w, key).persists, k) == if k == key then None else Find(w.persists, k)
  {
    RemoveFind(w.persists, key, k);
    RemoveDistinct(w.persists, key);
    hide Coalesced, Values, Remove, Distinct;
    if Find(w.persists, key).Some? {
      var x := Entry(key, Find(w.persists, key).value);
      ValuesMore(w.enqueued, x, k);
      var out := Values(w.enqueued, k);
      if k == key {
        CoalescedOut(Values(w.accepted, k), out, x.value, k in w.droppedPersists);
      } else {
        assert out + [] == out;
      }
    }
  }

  lemma {:induction false} FlushAllKey(w: Writer, keys: seq<Item>, k: string)
    requires Distinct(w.persists) && WritesOk(w, k) && PersistsOk(w, k)
    ensures var v := FlushAll(w, keys);
            && Distinct(v.persists) && WritesOk(v, k) && PersistsOk(v, k) && |v.enqueued| >= |w.enqueued|
            && v == w.(persists := v.persists, enqueued := v.enqueued)
  {
    hide WritesOk, PersistsOk, Distinct;
    if keys != [] {
      var n := |keys| - 1;
      FlushAllKey(w, keys[..n], k);
      FlushKey(FlushAll(w, keys[..n]), keys[n].key, k);
    }
  }

  /** Dropping whatever waits in a buffer. */
  lemma DropKey(came: seq<Value>, out: seq<Value>, m: seq<Item>, dropped: set<string>, k: string)
    requires Coalesced(came, out, Waiting(m, k), k in dropped)
    ensures Coalesced(came, out, [], k in dropped + Keys(m))
  {
    CoalescedDrop(came, out, Waiting(m, k), k in dropped);
  }

  lemma StepKey(w: Writer, e: Event, k: string)
    requires Ok(w)
    ensures WritesOk(Step(w, e), k) && PersistsOk(Step(w, e), k)
  {
    assert WritesOk(w, k) && PersistsOk(w, k);
    hide Coalesced, Values, Keys, Put, Remove;
    match e {
      case Submit(key, value) =>
        if !w.disposed {
          QueuedKey(w, key, value, k);
          PutDistinct(w.pending, key, value);
          PumpKey(Queued(w, key, value), k);
        }
      case WriteSettles(ok) =>
        if w.inFlight != [] {
          var v := w.(inFlight := w.inFlight[1..]);
          ScheduleKey(v, w.inFlight[0], k);
          PumpKey(if ok then Schedule(v, w.inFlight[0]) else v, k);
        }
      case TimerFires(key) => FlushKey(w, key, k);
      case PersistSettles =>
      case ClearAll =>
        DropKey(Values(w.submitted, k), Values(w.written, k), w.pending, w.droppedWrites, k);
        DropKey(Values(w.accepted, k), Values(w.enqueued, k), w.persists, w.droppedPersists, k);
      case Dispose =>
        DropKey(Values(w.submitted, k), Values(w.written, k), w.pending, w.droppedWrites, k);
        FlushAllKey(Closed(w), w.persists, k);
    }
  }

  lemma StepShape(w: Writer, e: Event)
    requires Ok(w)
    ensures Shape(Step(w, e))
  {
    match e {
      case Submit(key, value) =>
        PutDistinct(w.pending, key, value);
        if !w.disposed && !w.pumping {
          PumpShape(Queued(w, key, value));
        }
      case WriteSettles(ok) =>
        if w.inFlight != [] {
          var v := w.(inFlight := w.inFlight[1..]);
          ScheduleShape(v, w.inFlight[0]);
          PumpShape(if ok then Schedule(v, w.inFlight[0]) else v);
        }
      case TimerFires(key) => RemoveDistinct(w.persists, key);
      case PersistSettles =>
      case ClearAll =>
      case Dispose =>
        assert WritesOk(w, "") && PersistsOk(w, "");
        DropKey(Values(w.submitted, ""), Values(w.written, ""), w.pending, w.droppedWrites, "");
        FlushAllKey(Closed(w), w.persists, "");
    }
  }

  /** The writer's invariant holds in every run. */
  lemma {:induction false} RunOk(events: seq<Event>)
    ensures Ok(Run(events))
  {
    if events == [] {
      var none: seq<Value> := [];
      assert none + none == none;
    } else {
      var n := |events| - 1;
      RunOk(events[..n]);
      StepShape(Run(events[..n]), events[n]);
      forall k ensures WritesOk(Run(events), k) && PersistsOk(Run(events), k) {
        StepKey(Run(events[..n]), events[n], k);
      }
    }
  }

  /** At most one device write is ever in flight. */
  lemma OneWriteInFlight(events: seq<Event>)
    ensures |Run(events).inFlight| <= 1
  {
    RunOk(events);
  }

  /** Per key the device sees a subsequence of the submits, in order. */
  lemma WritesAreSubmits(events: seq<Event>, k: string)
    ensures Subsequence(Values(Run(events).written, k), Values(Run(events).submitted, k))
  {
    RunOk(events);
    var w := Run(events);
    assert WritesOk(w, k);
    CoalescedDrop(Values(w.submitted, k), Values(w.written, k), Waiting(w.pending, k), k in w.droppedWrites);
    assert Values(w.written, k) + [] == Values(w.written, k);
  }

  // ---- what clears and disposals throw away ----

  /** Some clear or disposal came after the last submit of the key that was taken. */
  predicate ClearedSinceSubmit(events: seq<Event>, k: string) {
    events != [] &&
    var n := |events| - 1;
    match events[n]
    case Submit(key, _) => (key != k || Run(events[..n]).disposed) && ClearedSinceSubmit(events[..n], k)
    case ClearAll => true
    case Dispose => true
    case _ => ClearedSinceSubmit(events[..n], k)
  }

  /** Some clear came after the last value of the key that the device accepted. */
  predicate ClearedSinceAccept(events: seq<Event>, k: string) {
    events != [] &&
    var n := |events| - 1;
    var flight := Run(events[..n]).inFlight;
    if events[n] == WriteSettles(true) && flight != [] && flight[0].key == k then false
    else events[n] == ClearAll || ClearedSinceAccept(events[..n], k)
  }

  lemma {:induction false} FlushAllFrame(w: Writer, keys: seq<Item>)
    ensures var v := FlushAll(w, keys); v == w.(persists := v.persists, enqueued := v.enqueued)
  {
    if keys != [] {
      FlushAllFrame(w, keys[..|keys| - 1]);
    }
  }

  /** Only clears and disposals drop a write, and a submit that is taken undoes it. */
  lemma StepDropsWrite(w: Writer, e: Event, k: string)
    requires k in Step(w, e).droppedWrites && !e.ClearAll? && !e.Dispose?
    ensures k in w.droppedWrites && (e.Submit? && e.key == k ==> w.disposed)
  {
    hide Put, Remove, Find;
  }

  /** Only clears drop a persist, and a newly accepted value undoes it. */
  lemma StepDropsPersist(w: Writer, e: Event, k: string)
    requires k in Step(w, e).droppedPersists && !e.ClearAll?
    ensures k in w.droppedPersists && !(e == WriteSettles(true) && w.inFlight != [] && w.inFlight[0].key == k)
  {
    hide Put, Remove, Find;
    FlushAllFrame(Closed(w), w.persists);
  }

  /** A key counts as dropped only while a clear or disposal is newer than its last value. */
  lemma {:induction false} DroppedMeansCleared(events: seq<Event>, k: string)
    ensures k in Run(events).droppedWrites ==> ClearedSinceSubmit(events, k)
    ensures k in Run(events).droppedPersists ==> ClearedSinceAccept(events, k)
  {
    if events != [] {
      var n := |events| - 1;
      var w := Run(events[..n]);
      DroppedMeansCleared(events[..n], k);
      hide Step;
      if k in Run(events).droppedWrites && !events[n].ClearAll? && !events[n].Dispose? {
        StepDropsWrite(w, events[n], k);
      }
      if k in Run(events).droppedPersists && !events[n].ClearAll? {
        StepDropsPersist(w, events[n], k);
      }
    }
  }

  lemma IdleWrites(w: Writer, k: string)
    requires Shape(w) && WritesOk(w, k) && !w.pumping && k !in w.droppedWrites && Values(w.submitted, k) != []
    ensures var s, t := Values(w.submitted, k), Values(w.written, k);
            t != [] && t[|t| - 1] == s[|s| - 1]
  {
    hide Values, Coalesced;
    CoalescedIdle(Values(w.submitted, k), Values(w.written, k));
  }

  /** When the writer is idle, the last value submitted under a key is the last one written,
      whatever was cleared before it was submitted. */
  lemma FinalValueLands(events: seq<Event>, k: string)
    requires !Run(events).pumping && Values(Run(events).submitted, k) != [] && !ClearedSinceSubmit(events, k)
    ensures var s, t := Values(Run(events).submitted, k), Values(Run(events).written, k);
            t != [] && t[|t| - 1] == s[|s| - 1]
  {
    hide Values, Coalesced, Pump, Schedule, Run, ClearedSinceSubmit;
    RunOk(events);
    DroppedMeansCleared(events, k);
    IdleWrites(Run(events), k);
  }

  /** Per key what goes to the persist chain is a subsequence of the accepted values, so a
      refused or replaced value is never persisted over a newer accepted one. */
  lemma PersistedAreAccepted(events: seq<Event>, k: string)
    ensures Subsequence(Values(Run(events).enqueued, k), Values(Run(events).accepted, k))
  {
    RunOk(events);
    var w := Run(events);
    assert PersistsOk(w, k);
    CoalescedDrop(Values(w.accepted, k), Values(w.enqueued, k), Waiting(w.persists, k), k in w.droppedPersists);
    assert Values(w.enqueued, k) + [] == Values(w.enqueued, k);
  }

  lemma IdlePersists(w: Writer, k: string)
    requires PersistsOk(w, k) && Find(w.persists, k) == None && k !in w.droppedPersists && Values(w.accepted, k) != []
    ensures var s, t := Values(w.accepted, k), Values(w.enqueued, k);
            t != [] && t[|t| - 1] == s[|s| - 1]
  {
    hide Values, Coalesced;
    CoalescedIdle(Values(w.accepted, k), Values(w.enqueued, k));
  }

  /** With no timer armed for a key and the chain run dry, the last accepted value of the key is
      the last persisted one, whatever was cleared before it was accepted. */
  lemma LastAcceptedPersists(events: seq<Event>, k: string)
    requires var w := Run(events);
             Find(w.persists, k) == None && w.persisted == |w.enqueued| && Values(w.accepted, k) != []
    requires !ClearedSinceAccept(events, k)
    ensures var w := Run(events);
            var s, t := Values(w.accepted, k), Values(w.enqueued[..w.persisted], k);
            t != [] && t[|t| - 1] == s[|s| - 1]
  {
    hide Values, Coalesced, Run, ClearedSinceAccept, Find;
    RunOk(events);
    DroppedMeansCleared(events, k);
    var w := Run(events);
    assert w.enqueued[..w.persisted] == w.enqueued;
    IdlePersists(w, k);
  }

  // ---- how long a key waits ----

  ghost predicate Uncleared(events: seq<Event>) {
    forall i :: 0 <= i < |events| ==> !events[i].ClearAll? && !events[i].Dispose?
  }

  function Settled(events: seq<Event>): nat {
    if events == [] then 0 else Settled(events[..|events| - 1]) + if events[|events| - 1].WriteSettles? then 1 else 0
  }

  predicate InFlight(w: Writer, key: string) {
    |w.inFlight| == 1 && w.inFlight[0].key == key
  }

  /** No submit moves a queued key back, every settled write moves it up by one, and from the
      front it goes to the device. */
  lemma StepMovesUp(w: Writer, e: Event, i: nat)
    requires Shape(w) && i < |w.pending| && !e.ClearAll? && !e.Dispose?
    ensures var v := Step(w, e);
            var key := w.pending[i].key;
            if !e.WriteSettles? then i < |v.pending| && v.pending[i].key == key
            else if i == 0 then InFlight(v, key)
            else i - 1 < |v.pending| && v.pending[i - 1].key == key
  {
    if e.Submit? {
      PutKeepsPlace(w.pending, e.key, e.value, i);
    }
    hide Put, Distinct, Find;
  }

  lemma {:induction false} PutKeepsPlace(m: seq<Item>, key: string, value: Value, i: nat)
    requires i < |m|
    ensures i < |Put(m, key, value)| && Put(m, key, value)[i].key == m[i].key
  {
    if m[0].key != key && i > 0 {
      PutKeepsPlace(m[1..], key, value, i - 1);
    }
  }

  /** After any events a queued key has been in flight, or has moved up by the settled writes. */
  lemma {:induction false} MovesUp(before: seq<Event>, during: seq<Event>, i: nat)
    requires i < |Run(before).pending| && Uncleared(during)
    ensures var key, n := Run(before).pending[i].key, Settled(during);
            || (exists m :: 0 <= m <= |during| && InFlight(Run(before + during[..m]), key))
            || (n <= i < |Run(before + during).pending| + n && Run(before + during).pending[i - n].key == key)
  {
    hide Run, Step, Shape, InFlight, WritesOk, PersistsOk;
    var key := Run(before).pending[i].key;
    if during == [] {
      assert before + during == before;
    } else {
      var d := |during| - 1;
      assert Uncleared(during[..d]);
      MovesUp(before, during[..d], i);
      var events := before + during[..d];
      assert before + during == events + [during[d]];
      if m :| 0 <= m <= d && InFlight(Run(before + during[..d][..m]), key) {
        assert during[..d][..m] == during[..m];
      } else {
        RunOk(events);
        RunMore(events, during[d]);
        StepMovesUp(Run(events), during[d], i - Settled(during[..d]));
        assert during[..|during|] == during;
      }
    }
  }

  lemma RunMore(events: seq<Event>, e: Event)
    ensures Run(events + [e]) == Step(Run(events), e)
  {
    assert (events + [e])[..|events|] == events;
  }

  /** A queued key waits for at most the keys ahead of it: from position i it has been handed to
      the device by the time i + 1 more writes have settled. */
  lemma NoStarvation(before: seq<Event>, during: seq<Event>, i: nat)
    requires i < |Run(before).pending| && Uncleared(during) && Settled(during) > i
    ensures exists m :: 0 <= m <= |during| && InFlight(Run(before + during[..m]), Run(before).pending[i].key)
  {
    MovesUp(before, during, i);
  }

  // ---- what the logs mean, read off the events ----

  predicate Disposed(events: seq<Event>) {
    exists i :: 0 <= i < |events| && events[i] == Dispose
  }

  /** The submits that came before any disposal. */
  function Submits(events: seq<Event>): seq<Item> {
    if events == [] then []
    else
      var before, e := events[..|events| - 1], events[|events| - 1];
      Submits(before) + if e.Submit? && !Disposed(before) then [Entry(e.key, e.value)] else []
  }

  /** How many device writes have settled, and which of those were accepted. */
  function SettledWrites(events: seq<Event>): seq<bool> {
    if events == [] then []
    else
      var before, e := events[..|events| - 1], events[|events| - 1];
      SettledWrites(before) + if e.WriteSettles? && |SettledWrites(before)| < |Run(before).written| then [e.ok] else []
  }

  function Good(written: seq<Item>, oks: seq<bool>): seq<Item>
    requires |oks| <= |written|
  {
    if oks == [] then []
    else
      var n := |oks| - 1;
      Good(written, oks[..n]) + if oks[n] then [written[n]] else []
  }

  lemma {:induction false} GoodMore(written: seq<Item>, x: Item, oks: seq<bool>)
    requires |oks| <= |written|
    ensures Good(written + [x], oks) == Good(written, oks)
  {
    if oks != [] {
      GoodMore(written, x, oks[..|oks| - 1]);
    }
  }

  lemma GoodSettles(written: seq<Item>, oks: seq<bool>, ok: bool)
    requires |oks| < |written|
    ensures Good(written, oks + [ok]) == Good(written, oks) + if ok then [written[|oks|]] else []
  {
    assert (oks + [ok])[..|oks|] == oks;
  }

  /** The logs are what they are called: what was submitted before any disposal; what was handed to
      the device, of which what has not settled is in flight; and what of it was accepted. */
  ghost predicate LogsTrue(events: seq<Event>) {
    Logs(Run(events), Disposed(events), Submits(events), SettledWrites(events))
  }

  ghost predicate Logs(w: Writer, disposed: bool, submits: seq<Item>, oks: seq<bool>) {
    && w.disposed == disposed && w.submitted == submits
    && |oks| <= |w.written| && w.inFlight == w.written[|oks|..] && w.accepted == Good(w.written, oks)
  }

  lemma {:induction false} LogsAreTrue(events: seq<Event>)
    ensures LogsTrue(events)
  {
    if events != [] {
      var n := |events| - 1;
      LogsAreTrue(events[..n]);
      assert events == events[..n] + [events[n]];
      StepLogs(events[..n], events[n]);
    }
  }

  lemma OneMoreEvent(events: seq<Event>, e: Event)
    ensures Run(events + [e]) == Step(Run(events), e)
    ensures Disposed(events + [e]) <==> Disposed(events) || e == Dispose
    ensures Submits(events + [e]) ==
            Submits(events) + if e.Submit? && !Disposed(events) then [Entry(e.key, e.value)] else []
    ensures SettledWrites(events + [e]) == SettledWrites(events)
      + if e.WriteSettles? && |SettledWrites(events)| < |Run(events).written| then [e.ok] else []
  {
    var all := events + [e];
    assert all[..|events|] == events && all[|events|] == e;
    assert forall i :: 0 <= i < |events| ==> all[i] == events[i];
    hide Step;
  }

  lemma PumpLogs(w: Writer, submits: seq<Item>, oks: seq<bool>)
    requires Logs(w, w.disposed, submits, oks)
    ensures Logs(Pump(w), w.disposed, submits, oks)
  {
    hide Remove;
    if !w.disposed && w.pending != [] {
      GoodMore(w.written, w.pending[0], oks);
    }
  }

  lemma SettleLogs(w: Writer, submits: seq<Item>, oks: seq<bool>, ok: bool)
    requires Logs(w, w.disposed, submits, oks) && w.inFlight != []
    ensures Logs(Step(w, WriteSettles(ok)), w.disposed, submits, oks + [ok])
  {
    hide Put, Remove, Good, Pump;
    var v := w.(inFlight := w.inFlight[1..]);
    var u := if ok then Schedule(v, w.inFlight[0]) else v;
    GoodSettles(w.written, oks, ok);
    assert Good(w.written, oks) + [] == Good(w.written, oks);
    assert w.inFlight[0] == w.written[|oks|] && w.inFlight[1..] == w.written[|oks| + 1..];
    PumpLogs(u, submits, oks + [ok]);
  }

  lemma StepLogs(events: seq<Event>, e: Event)
    requires LogsTrue(events)
    ensures LogsTrue(events + [e])
  {
    hide Run, Submits, SettledWrites, Disposed, Put, Remove, Pump, Schedule, Good, Find;
    OneMoreEvent(events, e);
    var w, submits, oks := Run(events), Submits(events), SettledWrites(events);
    assert oks + [] == oks && submits + [] == submits;
    if e.Submit? {
      PumpLogs(Queued(w, e.key, e.value), submits + [Entry(e.key, e.value)], oks);
    } else if e.WriteSettles? {
      if w.inFlight != [] {
        SettleLogs(w, submits, oks, e.ok);
      }
    } else if e == Dispose {
      FlushAllFrame(Closed(w), w.persists);
    }
  }

  /** Until a timer fires or the writer is disposed nothing goes to the persist chain: an accepted
      value waits out its debounce. */
  lemma {:induction false} DebounceWaits(events: seq<Event>)
    requires forall i :: 0 <= i < |events| ==> !events[i].TimerFires? && events[i] != Dispose
    ensures Run(events).enqueued == [] && !Run(events).disposed
  {
    if events != [] {
      DebounceWaits(events[..|events| - 1]);
      hide Put, Remove, Find;
    }
  }

  /** A timer sends the value that waits under its key to the persist chain, and no other. */
  lemma TimerPersists(events: seq<Event>, key: string)
    ensures var w, v := Run(events), Run(events + [TimerFires(key)]);
            && Find(v.persists, key) == None
            && v.enqueued == w.enqueued
                 + (match Find(w.persists, key) case None => [] case Some(value) => [Entry(key, value)])
            && forall k :: k != key ==> Find(v.persists, k) == Find(w.persists, k)
  {
    RunOk(events);
    RunMore(events, TimerFires(key));
    var w := Run(events);
    forall k ensures Find(Remove(w.persists, key), k) == if k == key then None else Find(w.persists, k) {
      RemoveFind(w.persists, key, k);
    }
    hide Run, Remove, WritesOk, PersistsOk;
  }

  /** Until something is submitted again, nothing is written after a clear, and nothing persisted but
      the write that was in flight when it came, if that is accepted. */
  lemma {:induction false} ClearForgets(events: seq<Event>, more: seq<Event>)
    requires forall i :: 0 <= i < |more| ==> !more[i].Submit?
    ensures var w, v := Run(events), Run(events + [ClearAll] + more);
            && v.written == w.written && v.pending == []
            && |v.enqueued| + |v.persists| + |v.inFlight| <= |w.enqueued| + |w.inFlight|
            && w.enqueued <= v.enqueued
  {
    hide Step, Run;
    if more == [] {
      RunMore(events, ClearAll);
      assert events + [ClearAll] + [] == events + [ClearAll];
      ClearNow(Run(events));
    } else {
      var n := |more| - 1;
      ClearForgets(events, more[..n]);
      assert events + [ClearAll] + more == (events + [ClearAll] + more[..n]) + [more[n]];
      RunMore(events + [ClearAll] + more[..n], more[n]);
      OnlyDrains(Run(events + [ClearAll] + more[..n]), more[n]);
    }
  }

  lemma ClearNow(w: Writer)
    ensures var v := Step(w, ClearAll);
            && v.pending == [] && v.persists == [] && v.written == w.written
            && v.inFlight == w.inFlight && v.enqueued == w.enqueued
  {
  }

  /** With nothing queued and nothing submitted, values only move on to the persist chain. */
  lemma OnlyDrains(w: Writer, e: Event)
    requires w.pending == [] && !e.Submit?
    ensures var v := Step(w, e);
            && v.pending == [] && v.written == w.written && w.enqueued <= v.enqueued
            && |v.enqueued| + |v.persists| + |v.inFlight| <= |w.enqueued| + |w.persists| + |w.inFlight|
  {
    if e.WriteSettles? && w.inFlight != [] {
      PutLength(w.persists, w.inFlight[0].key, w.inFlight[0].value);
      RemoveLength(w.persists, w.inFlight[0].key);
    } else if e.TimerFires? {
      RemoveLength(w.persists, e.key);
    } else if e == Dispose {
      FlushAllDrains(Closed(w), w.persists);
    }
    hide Put, Remove, Find, FlushAll, Keys;
  }

  lemma {:induction false} PutLength(m: seq<Item>, key: string, value: Value)
    ensures |Put(m, key, value)| <= |m| + 1
  {
    if m != [] {
      PutLength(m[1..], key, value);
    }
  }

  lemma {:induction false} RemoveLength(m: seq<Item>, key: string)
    ensures |Remove(m, key)| == |m| - if Find(m, key).Some? then 1 else 0
  {
    if m != [] {
      RemoveLength(m[1..], key);
    }
  }

  lemma {:induction false} FlushAllDrains(w: Writer, keys: seq<Item>)
    ensures var v := FlushAll(w, keys);
            && v.pending == w.pending && v.written == w.written && v.inFlight == w.inFlight
            && w.enqueued <= v.enqueued && |v.enqueued| + |v.persists| <= |w.enqueued| + |w.persists|
  {
    if keys != [] {
      var n := |keys| - 1;
      FlushAllDrains(w, keys[..n]);
      RemoveLength(FlushAll(w, keys[..n]).persists, keys[n].key);
      hide Remove, Find;
    }
  }

  /** A disposal leaves nothing waiting: every pending persist is on its way. */
  lemma DisposeFlushes(events: seq<Event>)
    ensures var w := Run(events + [Dispose]); w.disposed && w.pending == [] && w.persists == []
  {
    RunOk(events);
    RunMore(events, Dispose);
    var w := Run(events);
    FlushAllFrame(Closed(w), w.persists);
    forall k ensures Find(FlushAll(Closed(w), w.persists).persists, k) == None {
      FlushedAll(Closed(w), w.persists, k);
      FoundAt(w.persists, k);
    }
    var left := FlushAll(Closed(w), w.persists).persists;
    assert left != [] ==> Find(left, left[0].key) != None;
    hide Run, FlushAll;
  }

  lemma {:induction false} FoundAt(m: seq<Item>, k: string)
    ensures Find(m, k) != None ==> exists i :: 0 <= i < |m| && m[i].key == k
  {
    if m != [] && m[0].key != k {
      FoundAt(m[1..], k);
      if Find(m, k) != None {
        var i :| 0 <= i < |m| - 1 && m[1..][i].key == k;
        assert m[i + 1].key == k;
      }
    }
  }

  lemma {:induction false} FlushedAll(w: Writer, keys: seq<Item>, k: string)
    requires Distinct(w.persists)
    ensures var m := FlushAll(w, keys).persists;
            && Distinct(m)
            && Find(m, k) == if exists i :: 0 <= i < |keys| && keys[i].key == k then None else Find(w.persists, k)
  {
    if keys != [] {
      var n := |keys| - 1;
      FlushedAll(w, keys[..n], k);
      var v := FlushAll(w, keys[..n]);
      RemoveFind(v.persists, keys[n].key, k);
      RemoveDistinct(v.persists, keys[n].key);
      assert forall i :: 0 <= i < n ==> keys[..n][i] == keys[i];
    }
  }

  // ---- the writer in place ----

  class Coalescer {
    var pending: seq<Item>
    var pumping: bool
    var disposed: bool
    var persists: seq<Item>
    var enqueued: seq<Item>
    var persisted: nat
    var inFlight: seq<Item>
    ghost var submitted: seq<Item>
    ghost var written: seq<Item>
    ghost var accepted: seq<Item>
    ghost var droppedWrites: set<string>
    ghost var droppedPersists: set<string>

    ghost function State(): Writer
      reads this
    {
      Writer(pending, pumping, disposed, persists, enqueued, persisted, inFlight,
             submitted, written, accepted, droppedWrites, droppedPersists)
    }

    ghost predicate Valid()
      reads this
    {
      Shape(State())
    }

    constructor ()
      ensures Valid() && State() == START
    {
      pending, pumping, disposed, persists, enqueued, persisted, inFlight := [], false, false, [], [], 0, [];
      submitted, written, accepted, droppedWrites, droppedPersists := [], [], [], {}, {};
    }

    /** The pump loop up to its next wait. */
    method PumpOn()
      modifies this
      ensures State() == Pump(old(State()))
    {
      if disposed || pending == [] {
        pumping := false;
        return;
      }
      var x := pending[0];
      pumping := true;
      pending := Remove(pending, x.key);
      inFlight := inFlight + [x];
      written := written + [x];
    }

    method SubmitValue(key: string, value: Value)
      requires Valid()
      modifies this
      ensures Valid() && State() == Step(old(State()), Submit(key, value))
    {
      if disposed {
        return;
      }
      PutDistinct(pending, key, value);
      pending := Put(pending, key, value);
      submitted := submitted + [Entry(key, value)];
      droppedWrites := droppedWrites - {key};
      if !pumping {
        PumpShape(State());
        PumpOn();
      }
    }

    method FlushPersist(key: string)
      requires Distinct(persists)
      modifies this
      ensures State() == Flush(old(State()), key) && Distinct(persists)
    {
      RemoveDistinct(persists, key);
      match Find(persists, key) {
        case None =>
        case Some(value) =>
          persists := Remove(persists, key);
          enqueued := enqueued + [Entry(key, value)];
      }
    }

    method WriteSettled(ok: bool)
      requires Valid() && inFlight != []
      modifies this
      ensures Valid() && State() == Step(old(State()), WriteSettles(ok))
    {
      hide Put, Remove, Distinct;
      var x := inFlight[0];
      inFlight := inFlight[1..];
      ScheduleShape(State(), x);
      if ok {
        accepted := accepted + [x];
        droppedPersists := droppedPersists - {x.key};
        if disposed {
          persists := Remove(persists, x.key);
          enqueued := enqueued + [x];
        } else {
          persists := Put(persists, x.key, x.value);
        }
      }
      PumpShape(State());
      PumpOn();
    }

    method TimerFired(key: string)
      requires Valid()
      modifies this
      ensures Valid() && State() == Step(old(State()), TimerFires(key))
    {
      FlushPersist(key);
    }

    method PersistSettled()
      requires Valid() && persisted < |enqueued|
      modifies this
      ensures Valid() && State() == Step(old(State()), PersistSettles)
    {
      persisted := persisted + 1;
    }

    method Clear()
      requires Valid()
      modifies this
      ensures Valid() && State() == Step(old(State()), ClearAll)
    {
      droppedWrites, droppedPersists := droppedWrites + Keys(pending), droppedPersists + Keys(persists);
      pending, persists := [], [];
    }

    /** Stop accepting writes and flush every pending persist, oldest key first. */
    method DisposeWriter()
      requires Valid()
      modifies this
      ensures Valid() && State() == Step(old(State()), Dispose)
    {
      hide Distinct, Pump, Schedule;
      assert Distinct<string, Value>([]) by { EmptyDistinct(); }
      droppedWrites := droppedWrites + Keys(pending);
      disposed, pending := true, [];
      ghost var w := State();
      var keys := persists;
      for i := 0 to |keys|
        invariant Distinct(persists) && State() == FlushAll(w, keys[..i]) && Shape(State())
      {
        assert keys[..i + 1][..i] == keys[..i];
        FlushPersist(keys[i].key);
      }
      assert keys[..|keys|] == keys;
    }
  }

  lemma EmptyDistinct()
    ensures Distinct<string, Value>([])
  {
  }
}
