/**
 What a document of the store says under a key, told without its machinery: whatever the last
 call that spoke of the key gave it, and what was on disk when none did.
 */
module StoreWords {
  import opened Options
  import opened StorePatch
  import opened StoreAuthority

  // ---- what a call says of a key ----

  /** The last word of a patch about a key: a replaced document speaks of every key. */
  function PatchWord(ops: seq<PatchOp>, key: string): Option<Option<Json>> {
    if ops == [] then None
    else
      var op := ops[|ops| - 1];
      if op.Replace? then Some(Lookup(op.document, key))
      else if op.key == key then Some(if op.Set? then Some(op.value) else None)
      else PatchWord(ops[..|ops| - 1], key)
  }

  /** What a call gives a key, if it speaks of it: written, read as a fallback, or cleared
      documents speak of every key. */
  function Word(op: Operation, key: string): Option<Option<Json>> {
    match op
    case Read(fallback) => Some(Lookup(fallback, key))
    case Write(v) => Some(Lookup(v, key))
    case Update(patch) => if key in patch then Some(Some(patch[key])) else None
    case Patch(ops) => PatchWord(ops, key)
    case Clear => Some(None)
  }

  /** The document is absent when call i comes: it was cleared just before, or never there. */
  predicate Absent(disk: Option<Json>, calls: seq<Call>, i: nat)
    requires i <= |calls|
  {
    if i == 0 then disk.None? else calls[i - 1].op.Clear?
  }

  /** A read speaks only when its fallback stands in for an absent document. */
  predicate Speaks(disk: Option<Json>, calls: seq<Call>, i: nat, key: string)
    requires i < |calls|
  {
    if calls[i].op.Read? then Absent(disk, calls, i) else Word(calls[i].op, key).Some?
  }

  // ---- documents with keys of their own ----

  predicate Keyed(v: Json) {
    !v.Array? && !v.Text?
  }

  predicate KeyedOp(op: Operation) {
    match op
    case Read(fallback) => Keyed(fallback)
    case Write(v) => Keyed(v)
    case Update(_) => true
    case Patch(ops) => forall i :: 0 <= i < |ops| && ops[i].Replace? ==> Keyed(ops[i].document)
    case Clear => true
  }

  /** No whole document the calls or the disk bring is an array or a text. */
  predicate AllKeyed(disk: Option<Json>, calls: seq<Call>) {
    (disk.Some? ==> Keyed(disk.value)) && forall i :: 0 <= i < |calls| ==> KeyedOp(calls[i].op)
  }

  /** What a reader that brings an empty document is shown. */
  function Shown(c: Cell): Json {
    if c.cache.Some? then c.cache.value else if c.disk.Some? then c.disk.value else Object(map[])
  }

  lemma {:induction false} PatchLeaves(d: Json, ops: seq<PatchOp>, key: string)
    requires Keyed(d) && forall i :: 0 <= i < |ops| && ops[i].Replace? ==> Keyed(ops[i].document)
    ensures Keyed(ApplyOps(d, ops))
    ensures Lookup(ApplyOps(d, ops), key) ==
            if PatchWord(ops, key).Some? then PatchWord(ops, key).value else Lookup(d, key)
  {
    if ops != [] {
      PatchLeaves(d, ops[..|ops| - 1], key);
    }
  }

  /** One call on a cell: it gives the key what it says, or leaves it. */
  lemma PerformWord(c: Cell, op: Operation, key: string)
    requires Keyed(Shown(c)) && KeyedOp(op)
    ensures var d := Perform(c, op).cell;
            && Keyed(Shown(d)) && (d.cache.None? <==> op.Clear?) && (d.cache.None? ==> d.disk.None?)
            && Lookup(Shown(d), key) ==
               if (if op.Read? then c.cache.None? && c.disk.None? else Word(op, key).Some?) then Word(op, key).value
               else Lookup(Shown(c), key)
  {
    if op.Patch? {
      PatchLeaves(Shown(c), op.ops, key);
    }
    hide ApplyOps, PatchWord, Indexed;
  }

  /** What the calls so far leave: a document with keys of its own, absent exactly where they say. */
  ghost predicate Left(disk: Option<Json>, calls: seq<Call>) {
    var c := CellAfter(Cell(None, disk), calls);
    && Keyed(Shown(c)) && (c.cache.None? && c.disk.None? <==> Absent(disk, calls, |calls|))
  }

  /** What one more call leaves under a key. */
  lemma OneCall(disk: Option<Json>, calls: seq<Call>, call: Call, key: string)
    requires KeyedOp(call.op) && Left(disk, calls)
    ensures Left(disk, calls + [call])
    ensures Lookup(Shown(CellAfter(Cell(None, disk), calls + [call])), key) ==
            if Speaks(disk, calls + [call], |calls|, key) then Word(call.op, key).value
            else Lookup(Shown(CellAfter(Cell(None, disk), calls)), key)
  {
    var all, c := calls + [call], CellAfter(Cell(None, disk), calls);
    assert all[..|calls|] == calls && all[|calls|] == call;
    PerformWord(c, call.op, key);
    assert CellAfter(Cell(None, disk), all) == Perform(c, call.op).cell;
    hide Perform, Word, Shown, Keyed, CellAfter;
  }

  lemma {:induction false} CallsLeave(disk: Option<Json>, calls: seq<Call>)
    requires AllKeyed(disk, calls)
    ensures Left(disk, calls)
  {
    hide Left;
    if calls == [] {
      NothingLeft(disk);
    } else {
      var n := |calls| - 1;
      CallsLeave(disk, calls[..n]);
      assert calls == calls[..n] + [calls[n]];
      OneCall(disk, calls[..n], calls[n], "");
    }
  }

  lemma NothingLeft(disk: Option<Json>)
    requires disk.Some? ==> Keyed(disk.value)
    ensures Left(disk, [])
  {
  }

  // ---- the last word ----

  ghost predicate LastSpeaker(disk: Option<Json>, calls: seq<Call>, i: nat, key: string) {
    && i < |calls| && Speaks(disk, calls, i, key)
    && forall j :: i < j < |calls| ==> !Speaks(disk, calls, j, key)
  }

  lemma SpeaksBefore(disk: Option<Json>, calls: seq<Call>, call: Call, i: nat, key: string)
    requires i < |calls|
    ensures Speaks(disk, calls + [call], i, key) == Speaks(disk, calls, i, key)
  {
    assert (calls + [call])[i] == calls[i] && (i > 0 ==> (calls + [call])[i - 1] == calls[i - 1]);
    hide Word;
  }

  /** After any calls a key holds what the last of them that spoke of it gave it. */
  lemma {:induction false} LastWord(disk: Option<Json>, calls: seq<Call>, i: nat, key: string)
    requires AllKeyed(disk, calls) && LastSpeaker(disk, calls, i, key)
    ensures Lookup(Shown(CellAfter(Cell(None, disk), calls)), key) == Word(calls[i].op, key).value
  {
    var n := |calls| - 1;
    var before := calls[..n];
    assert calls == before + [calls[n]];
    hide CellAfter, Speaks, Word, Lookup, Shown, Left, KeyedOp;
    CallsLeave(disk, before);
    OneCall(disk, before, calls[n], key);
    if i < n {
      SpeaksBefore(disk, before, calls[n], i, key);
      forall j | i < j < n ensures !Speaks(disk, before, j, key) {
        SpeaksBefore(disk, before, calls[n], j, key);
      }
      LastWord(disk, before, i, key);
    }
  }

  /** A key nobody spoke of holds what it held on disk. */
  lemma {:induction false} NoWord(disk: Option<Json>, calls: seq<Call>, key: string)
    requires AllKeyed(disk, calls) && forall j :: 0 <= j < |calls| ==> !Speaks(disk, calls, j, key)
    ensures Lookup(Shown(CellAfter(Cell(None, disk), calls)), key) ==
            if disk.Some? then Lookup(disk.value, key) else None
  {
    if calls != [] {
      var n := |calls| - 1;
      var before := calls[..n];
      assert calls == before + [calls[n]];
      hide CellAfter, Speaks, Word, Lookup, Shown, Left, KeyedOp;
      CallsLeave(disk, before);
      OneCall(disk, before, calls[n], key);
      forall j | 0 <= j < n ensures !Speaks(disk, before, j, key) {
        SpeaksBefore(disk, before, calls[n], j, key);
      }
      NoWord(disk, before, key);
    }
  }

  // ---- over the runs of the machine ----

  lemma {:induction false} ResultAt(c: Cell, calls: seq<Call>, n: nat)
    requires n < |calls|
    ensures |Results(c, calls)| == |calls|
    ensures Results(c, calls)[n] == Perform(CellAfter(c, calls[..n]), calls[n].op).result
  {
    var k := |calls| - 1;
    if k > 0 {
      ResultAt(c, calls[..k], if n < k then n else 0);
    }
    if n < k {
      assert calls[..k][..n] == calls[..n];
    }
    hide Perform, CellAfter;
  }

  /** A call returns the document it leaves, and nothing when it clears it. */
  lemma Returned(c: Cell, op: Operation)
    ensures var out := Perform(c, op);
            && out.result == (if op.Clear? then None else Some(Shown(out.cell)))
            && (Commits(op) ==> out.cell.disk == out.result) && (!Commits(op) ==> out.cell.disk == c.disk)
  {
    hide ApplyOps, Indexed;
  }

  /** In every run every completed call but a clear has returned a document in which every key
      holds what the last call up to then that spoke of it gave it. */
  lemma EveryAnswer(disk: Option<Json>, events: seq<Event>, n: nat, i: nat, key: string)
    requires n < |Run(disk, events).results| && |Run(disk, events).results| <= |Calls(events)|
    requires var calls := Calls(events)[..n + 1];
             AllKeyed(disk, calls) && LastSpeaker(disk, calls, i, key) && !calls[n].op.Clear?
    ensures var answer := Run(disk, events).results[n];
            answer.Some? && Lookup(answer.value, key) == Word(Calls(events)[i].op, key).value
  {
    var m, all := Run(disk, events), Calls(events);
    var calls := all[..n + 1];
    RunRefines(disk, events);
    var done := all[..|m.results|];
    hide Run, Calls, Settled, Refines, Word, Lookup, Speaks, AllKeyed, CellAfter, Results, Perform;
    ResultsOf(disk, events);
    ResultAt(Cell(None, disk), done, n);
    assert done[..n] == calls[..n] && done[n] == calls[n];
    LastWord(disk, calls, i, key);
    AfterLast(disk, calls);
    Returned(CellAfter(Cell(None, disk), calls[..n]), calls[n].op);
  }

  lemma ResultsOf(disk: Option<Json>, events: seq<Event>)
    ensures var m, calls := Run(disk, events), Calls(events);
            && |m.results| <= |calls| && m.results == Results(Cell(None, disk), calls[..|m.results|])
            && m.disk == CellAfter(Cell(None, disk), calls[..|m.results|]).disk
  {
    RunRefines(disk, events);
    hide Run, Calls, Settled, CellAfter, Results, Perform;
  }

  lemma AfterLast(disk: Option<Json>, calls: seq<Call>)
    requires calls != []
    ensures var n := |calls| - 1;
            CellAfter(Cell(None, disk), calls) == Perform(CellAfter(Cell(None, disk), calls[..n]), calls[n].op).cell
  {
  }

  ghost predicate LastCommit(calls: seq<Call>, i: nat) {
    i < |calls| && Commits(calls[i].op) && forall j :: i < j < |calls| ==> !Commits(calls[j].op)
  }

  /** In every run the file is what the last completed call that commits returned, and as it was
      found when none did. */
  lemma FileIsLastCommit(disk: Option<Json>, events: seq<Event>, i: nat)
    ensures |Run(disk, events).results| <= |Calls(events)|
    ensures var m := Run(disk, events);
            var done := Calls(events)[..|m.results|];
            && (LastCommit(done, i) ==> m.disk == m.results[i])
            && ((forall j :: 0 <= j < |done| ==> !Commits(done[j].op)) ==> m.disk == disk)
  {
    ResultsOf(disk, events);
    var m := Run(disk, events);
    var done := Calls(events)[..|m.results|];
    hide Run, Calls, Commits;
    if LastCommit(done, i) {
      ResultAt(Cell(None, disk), done, i);
      DiskSince(disk, done, i + 1);
      AfterLast(disk, done[..i + 1]);
      assert done[..i + 1][..i] == done[..i];
      Returned(CellAfter(Cell(None, disk), done[..i]), done[i].op);
    }
    if forall j :: 0 <= j < |done| ==> !Commits(done[j].op) {
      DiskSince(disk, done, 0);
      assert done[..0] == [];
    }
  }

  /** Calls that do not commit leave the file alone. */
  lemma {:induction false} DiskSince(disk: Option<Json>, calls: seq<Call>, k: nat)
    requires k <= |calls| && forall j :: k <= j < |calls| ==> !Commits(calls[j].op)
    ensures CellAfter(Cell(None, disk), calls).disk == CellAfter(Cell(None, disk), calls[..k]).disk
  {
    if k == |calls| {
      assert calls[..k] == calls;
    } else {
      var n := |calls| - 1;
      DiskSince(disk, calls[..n], k);
      assert calls[..n][..k] == calls[..k];
      AfterLast(disk, calls);
      hide CellAfter, Perform;
      Returned(CellAfter(Cell(None, disk), calls[..n]), calls[n].op);
    }
  }

  // ---- updates of documents that are no objects ----

  /** The number a text of decimal digits stands for. */
  function Number(digits: string): int {
    if digits == [] then 0
    else var n := |digits| - 1; 10 * Number(digits[..n]) + (digits[n] as int - '0' as int)
  }

  predicate IndexOf(key: string, length: nat) {
    0 <= Number(key) < length && key == Decimal(Number(key))
  }

  /** What a document has under a key of its own: an item of an array or a character of a text
      under its index, and nothing in a number, a truth value or null. */
  function Own(v: Json, key: string): Option<Json> {
    match v
    case Array(items) => if IndexOf(key, |items|) then Some(items[Number(key)]) else None
    case Text(s) => if IndexOf(key, |s|) then Some(Text([s[Number(key)]])) else None
    case _ => Lookup(v, key)
  }

  lemma {:induction false} DecimalReads(n: nat)
    ensures Number(Decimal(n)) == n
  {
    if n < 10 {
      assert Decimal(n)[..0] == [];
      var digits := "0123456789";
      assert digits[n] as int == '0' as int + n;
    } else {
      DecimalReads(n / 10);
      DecimalReads(n % 10);
      assert Decimal(n)[..|Decimal(n)| - 1] == Decimal(n / 10);
    }
  }

  lemma {:induction false} IndexedHas(items: seq<Json>, key: string)
    ensures key in Indexed(items) <==> IndexOf(key, |items|)
    ensures key in Indexed(items) ==> Indexed(items)[key] == items[Number(key)]
  {
    if items != [] {
      var n := |items| - 1;
      IndexedHas(items[..n], key);
      DecimalReads(n);
      hide Decimal, Number;
    }
  }

  /** An update sets the keys of its patch; under every other key the document keeps what it had of
      its own, whatever kind of document it is. */
  lemma UpdateKeeps(v: Json, patch: map<string, Json>, key: string)
    ensures Lookup(Merged(v, patch), key) == if key in patch then Some(patch[key]) else Own(v, key)
  {
    hide Indexed, Number, Decimal;
    match v
    case Array(items) => IndexedHas(items, key);
    case Text(s) => IndexedHas(seq(|s|, i requires 0 <= i < |s| => Text([s[i]])), key);
    case _ =>
  }
}
