/**
 Grabbing a burst of consecutive fresh frames off a lossy frame ring: torn and early reads are
 retried, recycled frames counted as dropped, and the burst ends when it has its frames, the
 producer closes or the deadline passes.
 */
module BurstGrab {

  /** What one read of a wanted frame reports. */
  datatype Read = Torn | Closed | NotYet | Gone(oldest: int) | Frame(seqNo: int, bytes: nat)

  /** One round of the burst: the deadline check, then a read unless it had passed. */
  datatype Turn = Expired | Answered(r: Read)

  /** What the burst hands out: a frame, or a run of frames counted as dropped. */
  datatype Out = Delivered(seqNo: int) | Dropped(from: int, count: int)

  datatype Status = Running | Short(expired: bool)
  datatype Burst = Burst(want: int, got: nat, out: seq<Out>, delays: nat, status: Status)

  /** The burst goes on. */
  predicate Going(b: Burst, count: int) {
    b.got < count && b.status == Running
  }

  function Step(b: Burst, count: int, t: Turn): Burst {
    if !Going(b, count) then b
    else
      match t
      case Expired => b.(status := Short(true))
      case Answered(Torn) => b
      case Answered(Closed) => b.(status := Short(false))
      case Answered(NotYet) => b.(delays := b.delays + 1)
      case Answered(Gone(oldest)) => b.(out := b.out + [Dropped(b.want, oldest - b.want)], want := oldest)
      case Answered(Frame(n, _)) => b.(out := b.out + [Delivered(n)], want := n + 1, got := b.got + 1)
  }

  /** The burst after a run of rounds. */
  function Run(start: int, count: int, turns: seq<Turn>): Burst {
    if turns == [] then Burst(start, 0, [], 0, Running)
    else Step(Run(start, count, turns[..|turns| - 1]), count, turns[|turns| - 1])
  }

  /** The ring's contract: a frame is the wanted one, and what is oldest is not older. */
  predicate Honest(b: Burst, count: int, t: Turn) {
    Going(b, count) && t.Answered? ==> (t.r.Frame? ==> t.r.seqNo == b.want) && (t.r.Gone? ==> t.r.oldest >= b.want)
  }

  ghost predicate AllHonest(start: int, count: int, turns: seq<Turn>) {
    forall i :: 0 <= i < |turns| ==> Honest(Run(start, count, turns[..i]), count, turns[i])
  }

  // ---- what was handed out ----

  function Frames(out: seq<Out>): seq<int> {
    if out == [] then []
    else
      var last := out[|out| - 1];
      Frames(out[..|out| - 1]) + if last.Delivered? then [last.seqNo] else []
  }

  function DroppedIn(out: seq<Out>): int {
    if out == [] then 0
    else
      var last := out[|out| - 1];
      DroppedIn(out[..|out| - 1]) + if last.Dropped? then last.count else 0
  }

  /** How often a sequence number is accounted for, delivered or dropped. */
  function Accounted(out: seq<Out>, n: int): nat {
    if out == [] then 0
    else
      var last := out[|out| - 1];
      var here := match last case Delivered(m) => m == n case Dropped(from, count) => from <= n < from + count;
      Accounted(out[..|out| - 1], n) + if here then 1 else 0
  }

  lemma OutMore(out: seq<Out>, x: Out)
    ensures (out + [x])[..|out|] == out && (out + [x])[|out|] == x
  {
  }

  ghost predicate Rising(s: seq<int>, start: int, want: int) {
    && (forall i :: 0 <= i < |s| ==> start <= s[i] < want)
    && forall i, j :: 0 <= i < j < |s| ==> s[i] < s[j]
  }

  /** The books of a burst: next wanted, frames handed out and drops agree, and every sequence
      number up to the next wanted one is accounted for exactly once. */
  ghost predicate Books(b: Burst, start: int) {
    && start <= b.want
    && |Frames(b.out)| == b.got
    && b.want == start + b.got + DroppedIn(b.out)
    && Rising(Frames(b.out), start, b.want)
    && forall n :: Accounted(b.out, n) == if start <= n < b.want then 1 else 0
  }

  lemma StepBooks(b: Burst, start: int, count: int, t: Turn)
    requires Books(b, start) && Honest(b, count, t)
    ensures Books(Step(b, count, t), start)
  {
    if Going(b, count) {
      match t {
        case Answered(Gone(oldest)) => OutMore(b.out, Dropped(b.want, oldest - b.want));
        case Answered(Frame(n, _)) => OutMore(b.out, Delivered(n));
        case _ =>
      }
    }
  }

  /** Whatever the reader does within its contract, the books balance at every round. */
  lemma {:induction false} RunBooks(start: int, count: int, turns: seq<Turn>)
    requires AllHonest(start, count, turns)
    ensures Books(Run(start, count, turns), start)
  {
    if turns == [] {
      assert Frames([]) == [];
    } else {
      var n := |turns| - 1;
      forall i | 0 <= i < n ensures Honest(Run(start, count, turns[..n][..i]), count, turns[..n][i]) {
        assert turns[..n][..i] == turns[..i];
      }
      RunBooks(start, count, turns[..n]);
      StepBooks(Run(start, count, turns[..n]), start, count, turns[n]);
    }
  }

  lemma BrokenBooks(b: Burst, start: int, count: int, t: Turn)
    requires Books(b, start) && !Honest(b, count, t)
    ensures !Books(Step(b, count, t), start)
  {
    var c := Step(b, count, t);
    match t {
      case Answered(Gone(oldest)) =>
        OutMore(b.out, Dropped(b.want, oldest - b.want));
        assert Accounted(c.out, oldest) == Accounted(b.out, oldest);
      case Answered(Frame(n, _)) =>
        OutMore(b.out, Delivered(n));
        assert DroppedIn(c.out) == DroppedIn(b.out);
      case _ =>
    }
  }

  /** The books balance at every round of a burst exactly when the reader keeps its contract. */
  lemma {:induction false} BooksIffHonest(start: int, count: int, turns: seq<Turn>)
    ensures (forall i :: 0 <= i <= |turns| ==> Books(Run(start, count, turns[..i]), start)) <==>
            AllHonest(start, count, turns)
  {
    hide Books, Honest, Step;
    if AllHonest(start, count, turns) {
      forall i | 0 <= i <= |turns| ensures Books(Run(start, count, turns[..i]), start) {
        forall j | 0 <= j < i ensures Honest(Run(start, count, turns[..i][..j]), count, turns[..i][j]) {
          assert turns[..i][..j] == turns[..j];
        }
        RunBooks(start, count, turns[..i]);
      }
    } else {
      var i :| 0 <= i < |turns| && !Honest(Run(start, count, turns[..i]), count, turns[i]);
      assert turns[..i + 1][..i] == turns[..i];
      var before := Run(start, count, turns[..i]);
      assert Run(start, count, turns[..i + 1]) == Step(before, count, turns[i]);
      if Books(before, start) {
        BrokenBooks(before, start, count, turns[i]);
      }
    }
  }

  /** Round `i` is the close or the passed deadline that ended the burst with what it had. */
  ghost predicate StoppedAt(start: int, count: int, turns: seq<Turn>, i: int, b: Burst) {
    && b.status != Running && 0 <= i < |turns|
    && turns[i] == (if b.status.expired then Expired else Answered(Closed))
    && Run(start, count, turns[..i]).got == b.got
  }

  /** A burst ends with fewer frames than asked for only by a close or by its deadline, and never
      hands out more; its last round says which. */
  lemma {:induction false} ShortOnlyWhenStopped(start: int, count: int, turns: seq<Turn>)
    ensures var b := Run(start, count, turns);
            && (b.got <= count || b.got == 0)
            && (b.status != Running ==> b.got < count && exists i :: StoppedAt(start, count, turns, i, b))
  {
    if turns != [] {
      var n := |turns| - 1;
      var before := Run(start, count, turns[..n]);
      ShortOnlyWhenStopped(start, count, turns[..n]);
      if before.status != Running {
        var i :| StoppedAt(start, count, turns[..n], i, before);
        assert turns[..n][..i] == turns[..i];
        assert StoppedAt(start, count, turns, i, before);
      } else if Step(before, count, turns[n]).status != Running {
        assert StoppedAt(start, count, turns, n, Run(start, count, turns));
      }
    }
  }

  /** Rounds that only say "torn" or "not yet" move nothing: the burst asks for the same frame. */
  lemma {:induction false} RetriesKeepWant(b: Burst, count: int, turns: seq<Turn>)
    requires forall i :: 0 <= i < |turns| ==> turns[i] == Answered(Torn) || turns[i] == Answered(NotYet)
    ensures StepAll(b, count, turns) == b.(delays := StepAll(b, count, turns).delays)
  {
    if turns != [] {
      RetriesKeepWant(b, count, turns[..|turns| - 1]);
    }
  }

  function StepAll(b: Burst, count: int, turns: seq<Turn>): Burst {
    if turns == [] then b else Step(StepAll(b, count, turns[..|turns| - 1]), count, turns[|turns| - 1])
  }

  /** Grab a burst from a reader that answers the given rounds; `used` of them were needed. */
  method GrabBurst(start: int, count: int, turns: seq<Turn>) returns (b: Burst, used: nat)
    ensures used <= |turns| && b == Run(start, count, turns[..used])
    ensures used < |turns| ==> !Going(b, count)
    ensures b == Run(start, count, turns)
  {
    var want := start;
    var got := 0;
    var out: seq<Out> := [];
    var delays := 0;
    used := 0;
    while got < count && used < |turns|
      invariant used <= |turns|
      invariant Run(start, count, turns[..used]) == Burst(want, got, out, delays, Running)
      decreases |turns| - used
    {
      assert turns[..used + 1][..used] == turns[..used];
      var turn := turns[used];
      used := used + 1;
      if turn == Expired {
        b := Burst(want, got, out, delays, Short(true));
        Stopped(start, count, turns, used);
        return;
      }
      match turn.r {
        case Torn =>
        case Closed =>
          b := Burst(want, got, out, delays, Short(false));
          Stopped(start, count, turns, used);
          return;
        case NotYet => delays := delays + 1;
        case Gone(oldest) =>
          out := out + [Dropped(want, oldest - want)];
          want := oldest;
        case Frame(n, _) =>
          out := out + [Delivered(n)];
          want := n + 1;
          got := got + 1;
      }
    }
    b := Burst(want, got, out, delays, Running);
    if used < |turns| {
      Stopped(start, count, turns, used);
    } else {
      assert turns[..used] == turns;
    }
  }

  /** A burst that has ended ignores what the reader would still say. */
  lemma {:induction false} Stopped(start: int, count: int, turns: seq<Turn>, used: nat)
    requires used <= |turns| && !Going(Run(start, count, turns[..used]), count)
    ensures Run(start, count, turns) == Run(start, count, turns[..used])
  {
    if used == |turns| {
      assert turns[..used] == turns;
    } else {
      assert turns[..|turns| - 1][..used] == turns[..used];
      Stopped(start, count, turns[..|turns| - 1], used);
    }
  }

  // ---- every answer counts ----

  predicate Says(t: Turn, frame: bool) {
    t.Answered? && (if frame then t.r.Frame? else t.r.NotYet?)
  }

  function Counted(turns: seq<Turn>, frame: bool): nat {
    if turns == [] then 0 else Counted(turns[..|turns| - 1], frame) + if Says(turns[|turns| - 1], frame) then 1 else 0
  }

  ghost predicate GoingThroughout(start: int, count: int, turns: seq<Turn>) {
    forall i :: 0 <= i < |turns| ==> Going(Run(start, count, turns[..i]), count)
  }

  /** As long as a burst goes on every frame it is answered with is handed out, and it waits once
      for every answer that its frame is not there yet. */
  lemma {:induction false} EveryAnswerCounts(start: int, count: int, turns: seq<Turn>)
    requires GoingThroughout(start, count, turns)
    ensures var b := Run(start, count, turns);
            b.got == Counted(turns, true) && b.delays == Counted(turns, false) && |Frames(b.out)| == b.got
  {
    if turns != [] {
      var n := |turns| - 1;
      forall i | 0 <= i < n ensures Going(Run(start, count, turns[..n][..i]), count) {
        assert turns[..n][..i] == turns[..i];
      }
      EveryAnswerCounts(start, count, turns[..n]);
      StepCounts(Run(start, count, turns[..n]), count, turns[n]);
      hide Step, Going, Frames;
    }
  }

  lemma StepCounts(b: Burst, count: int, t: Turn)
    requires Going(b, count)
    ensures var c := Step(b, count, t);
            && c.got == b.got + (if Says(t, true) then 1 else 0)
            && c.delays == b.delays + (if Says(t, false) then 1 else 0)
            && |Frames(c.out)| == |Frames(b.out)| + c.got - b.got
  {
    match t {
      case Answered(Gone(oldest)) => OutMore(b.out, Dropped(b.want, oldest - b.want));
      case Answered(Frame(n, _)) => OutMore(b.out, Delivered(n));
      case _ =>
    }
  }

  /** A close or a passed deadline ends a burst that goes on there and then, for good. */
  lemma StopsForGood(start: int, count: int, turns: seq<Turn>, i: nat)
    requires i < |turns| && Going(Run(start, count, turns[..i]), count)
    requires turns[i] == Expired || turns[i] == Answered(Closed)
    ensures Run(start, count, turns) == Run(start, count, turns[..i]).(status := Short(turns[i] == Expired))
  {
    assert turns[..i + 1][..i] == turns[..i];
    Stopped(start, count, turns, i + 1);
  }

  /** A burst that has its frames asks for nothing more. */
  lemma EnoughIsEnough(start: int, count: int, turns: seq<Turn>, i: nat)
    requires i <= |turns| && Run(start, count, turns[..i]).got == count
    ensures Run(start, count, turns) == Run(start, count, turns[..i])
  {
    Stopped(start, count, turns, i);
  }
}
