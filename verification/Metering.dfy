/**
 The trailing ten-second maximum of the intervals between a stream's events: ten one-second
 bins in a ring, rotated lazily whenever an event is recorded or the maximum is read.
 Timestamps are wall-clock milliseconds and may go backwards.
 */
module Metering {
  import opened Options

  const BIN_MS := 1000
  const BIN_COUNT := 10

  /** What the ring was called with, at which time. */
  datatype Tick = Recorded(t: int) | Queried(t: int)

  function Max(a: int, b: int): int {
    if a < b then b else a
  }

  function Front(ticks: seq<Tick>): seq<Tick>
    requires ticks != []
  {
    ticks[..|ticks| - 1]
  }

  function Last(ticks: seq<Tick>): Tick
    requires ticks != []
  {
    ticks[|ticks| - 1]
  }

  // ---- the history of a ring created at `t0` ----

  /** The grid second of a time. */
  function Grid(t0: int, t: int): int {
    (t - t0) / BIN_MS
  }

  /** The latest grid second the ring has been shown. */
  function Clock(t0: int, ticks: seq<Tick>): (c: int)
    ensures c >= 0
  {
    if ticks == [] then 0 else Max(Clock(t0, Front(ticks)), Grid(t0, Last(ticks).t))
  }

  /** The time of the last recorded event, if any. */
  function LastEvent(ticks: seq<Tick>): Option<int> {
    if ticks == [] then None else if Last(ticks).Recorded? then Some(Last(ticks).t) else LastEvent(Front(ticks))
  }

  /** The interval that tick `i` closes, if it closes one. */
  function Interval(ticks: seq<Tick>, i: nat): Option<int>
    requires i < |ticks|
  {
    if ticks[i].Recorded? && LastEvent(ticks[..i]).Some? then Some(ticks[i].t - LastEvent(ticks[..i]).value) else None
  }

  /** The longest interval closed while the clock stood at second `g`, zero when none was. */
  function SecondMax(t0: int, ticks: seq<Tick>, g: int): (m: int)
    ensures m >= 0 && (g > Clock(t0, ticks) ==> m == 0)
  {
    if ticks == [] then 0
    else
      var m := SecondMax(t0, Front(ticks), g);
      var closed := Interval(ticks, |ticks| - 1);
      if Clock(t0, ticks) == g && closed.Some? then Max(m, closed.value) else m
  }

  /** The maximum over the second `g` and the `n - 1` before it. */
  function WindowMax(t0: int, ticks: seq<Tick>, g: int, n: nat): (m: int)
    ensures m >= 0
  {
    if n == 0 then 0 else Max(WindowMax(t0, ticks, g, n - 1), SecondMax(t0, ticks, g - (n - 1)))
  }

  /** How long the last event has been followed by none. */
  function OpenGap(ticks: seq<Tick>, now: int): int {
    if LastEvent(ticks).None? then 0 else now - LastEvent(ticks).value
  }

  /** What a reading at `now` reports, the reading included in the history. */
  function Report(t0: int, ticks: seq<Tick>, now: int): int {
    Max(WindowMax(t0, ticks, Clock(t0, ticks), BIN_COUNT), OpenGap(ticks, now))
  }

  // ---- what a report means ----

  /** Tick `i` closes an interval of length `m` at second `g`. */
  predicate Closes(t0: int, ticks: seq<Tick>, i: nat, g: int, m: int) {
    i < |ticks| && Clock(t0, ticks[..i + 1]) == g && Interval(ticks, i) == Some(m)
  }

  lemma {:induction false} SecondMaxBounds(t0: int, ticks: seq<Tick>, g: int, i: nat, m: int)
    requires Closes(t0, ticks, i, g, m)
    ensures m <= SecondMax(t0, ticks, g)
  {
    var n := |ticks| - 1;
    if i == n {
      assert ticks[..n + 1] == ticks;
    } else {
      assert Front(ticks)[..i + 1] == ticks[..i + 1] && Front(ticks)[..i] == ticks[..i];
      SecondMaxBounds(t0, Front(ticks), g, i, m);
    }
  }

  lemma {:induction false} SecondMaxAttained(t0: int, ticks: seq<Tick>, g: int) returns (i: nat)
    requires SecondMax(t0, ticks, g) != 0
    ensures Closes(t0, ticks, i, g, SecondMax(t0, ticks, g))
  {
    var n := |ticks| - 1;
    assert ticks[..n + 1] == ticks;
    if SecondMax(t0, Front(ticks), g) == SecondMax(t0, ticks, g) {
      i := SecondMaxAttained(t0, Front(ticks), g);
      assert Front(ticks)[..i + 1] == ticks[..i + 1] && Front(ticks)[..i] == ticks[..i];
    } else {
      i := n;
    }
  }

  lemma {:induction false} WindowMaxBounds(t0: int, ticks: seq<Tick>, g: int, n: nat, a: nat)
    requires a < n
    ensures SecondMax(t0, ticks, g - a) <= WindowMax(t0, ticks, g, n)
  {
    if a < n - 1 {
      WindowMaxBounds(t0, ticks, g, n - 1, a);
    }
  }

  lemma {:induction false} WindowMaxAttained(t0: int, ticks: seq<Tick>, g: int, n: nat) returns (a: nat)
    requires WindowMax(t0, ticks, g, n) != 0
    ensures a < n && SecondMax(t0, ticks, g - a) == WindowMax(t0, ticks, g, n)
  {
    if WindowMax(t0, ticks, g, n) == WindowMax(t0, ticks, g, n - 1) {
      a := WindowMaxAttained(t0, ticks, g, n - 1);
    } else {
      a := n - 1;
    }
  }

  lemma {:induction false} ClockMonotone(t0: int, ticks: seq<Tick>, i: nat)
    requires i <= |ticks|
    ensures Clock(t0, ticks[..i]) <= Clock(t0, ticks)
  {
    if i < |ticks| {
      assert Front(ticks)[..i] == ticks[..i];
      ClockMonotone(t0, Front(ticks), i);
    } else {
      assert ticks[..i] == ticks;
    }
  }

  /** A report is never below an interval closed in the clock's last ten seconds, nor below the
      open gap, and it is one of these, or zero. No order of the timestamps is assumed. */
  lemma ReportIsMaximum(t0: int, ticks: seq<Tick>, now: int)
    ensures var r := Report(t0, ticks, now);
            && OpenGap(ticks, now) <= r && 0 <= r
            && (forall i: nat, g, m :: Closes(t0, ticks, i, g, m) && g > Clock(t0, ticks) - BIN_COUNT ==> m <= r)
            && (r == 0 || r == OpenGap(ticks, now) ||
                exists i: nat, g :: Closes(t0, ticks, i, g, r) && g > Clock(t0, ticks) - BIN_COUNT)
  {
    hide Clock, Closes, WindowMax, LastEvent;
    var c := Clock(t0, ticks);
    var r := Report(t0, ticks, now);
    var w := WindowMax(t0, ticks, c, BIN_COUNT);
    forall i: nat, g, m | Closes(t0, ticks, i, g, m) && g > c - BIN_COUNT ensures m <= w {
      WindowCovers(t0, ticks, i, g, m);
    }
    if w != 0 {
      var a := WindowMaxAttained(t0, ticks, c, BIN_COUNT);
      var i := SecondMaxAttained(t0, ticks, c - a);
      assert Closes(t0, ticks, i, c - a, w);
    }
  }

  lemma WindowCovers(t0: int, ticks: seq<Tick>, i: nat, g: int, m: int)
    requires Closes(t0, ticks, i, g, m) && g > Clock(t0, ticks) - BIN_COUNT
    ensures m <= WindowMax(t0, ticks, Clock(t0, ticks), BIN_COUNT)
  {
    hide Clock, Closes, SecondMax, WindowMax, LastEvent, Interval;
    var c := Clock(t0, ticks);
    ClosesByNow(t0, ticks, i, g, m);
    SecondMaxBounds(t0, ticks, g, i, m);
    WindowMaxBounds(t0, ticks, c, BIN_COUNT, c - g);
    assert c - (c - g) == g;
  }

  lemma ClosesByNow(t0: int, ticks: seq<Tick>, i: nat, g: int, m: int)
    requires Closes(t0, ticks, i, g, m)
    ensures i < |ticks| && g <= Clock(t0, ticks)
  {
    hide Clock, LastEvent, Interval;
    ClockMonotone(t0, ticks, i + 1);
  }

  /** While nothing is recorded after an event every reading shows at least the time since. */
  lemma GapShown(t0: int, ticks: seq<Tick>, i: nat, now: int)
    requires i < |ticks| && ticks[i].Recorded? && forall j :: i < j < |ticks| ==> ticks[j].Queried?
    ensures now - ticks[i].t <= Report(t0, ticks, now)
  {
    LastRecorded(ticks, i);
    hide WindowMax;
  }

  lemma {:induction false} LastRecorded(ticks: seq<Tick>, i: nat)
    requires i < |ticks| && ticks[i].Recorded? && forall j :: i < j < |ticks| ==> ticks[j].Queried?
    ensures LastEvent(ticks) == Some(ticks[i].t)
  {
    if i < |ticks| - 1 {
      LastRecorded(Front(ticks), i);
    }
  }

  ghost predicate Ordered(t0: int, ticks: seq<Tick>) {
    && (forall i :: 0 <= i < |ticks| ==> t0 <= ticks[i].t)
    && forall i, j :: 0 <= i <= j < |ticks| ==> ticks[i].t <= ticks[j].t
  }

  lemma {:induction false} OrderedClock(t0: int, ticks: seq<Tick>)
    requires Ordered(t0, ticks) && ticks != []
    ensures Clock(t0, ticks) == Grid(t0, Last(ticks).t)
  {
    var f := Front(ticks);
    if f != [] {
      OrderedClock(t0, f);
      assert Last(f) == ticks[|ticks| - 2];
      DivMonotone(Last(f).t - t0, Last(ticks).t - t0);
    }
  }

  lemma DivMonotone(a: int, b: int)
    requires a <= b
    ensures a / BIN_MS <= b / BIN_MS
  {
  }

  /** On a clock that never goes back, the intervals a reading covers are those whose closing
      event lies in the current or one of the previous nine grid seconds. */
  lemma OrderedReport(t0: int, ticks: seq<Tick>, now: int, i: nat, m: int)
    requires Ordered(t0, ticks + [Queried(now)]) && i < |ticks|
    ensures var whole := ticks + [Queried(now)];
            (exists g :: Closes(t0, whole, i, g, m) && g > Clock(t0, whole) - BIN_COUNT) <==>
            (Interval(ticks, i) == Some(m) && Grid(t0, ticks[i].t) > Grid(t0, now) - BIN_COUNT)
  {
    hide Clock, LastEvent, Grid;
    var whole := ticks + [Queried(now)];
    var part := whole[..i + 1];
    assert whole[..i] == ticks[..i] && Last(part) == ticks[i] && Last(whole) == Queried(now);
    assert Ordered(t0, part) by {
      assert forall j :: 0 <= j <= i ==> part[j] == whole[j];
    }
    OrderedClock(t0, whole);
    OrderedClock(t0, part);
    var g := Grid(t0, ticks[i].t);
    assert Closes(t0, whole, i, g, m) <==> Interval(ticks, i) == Some(m);
  }

  /** A reading at `now` covers the interval that tick i closes. */
  ghost predicate Covers(t0: int, ticks: seq<Tick>, now: int, i: nat, m: int) {
    var whole := ticks + [Queried(now)];
    exists g :: Closes(t0, whole, i, g, m) && g > Clock(t0, whole) - BIN_COUNT
  }

  /** Tick i lies in the current or one of the previous nine grid seconds of `now`. */
  predicate Recent(t0: int, ticks: seq<Tick>, now: int, i: nat)
    requires i < |ticks|
  {
    Grid(t0, ticks[i].t) > Grid(t0, now) - BIN_COUNT
  }

  /** With no second of its own left behind, a reading covers an interval for ten seconds from
      the clock's second when its event came. */
  lemma CoversFrom(t0: int, ticks: seq<Tick>, now: int, i: nat, m: int)
    requires i < |ticks| && Interval(ticks, i) == Some(m) && Grid(t0, now) >= Clock(t0, ticks)
    ensures Covers(t0, ticks, now, i, m) <==> Clock(t0, ticks[..i + 1]) > Grid(t0, now) - BIN_COUNT
  {
    QueryClock(t0, ticks, now);
    var whole := ticks + [Queried(now)];
    assert whole[..i + 1] == ticks[..i + 1] && whole[..i] == ticks[..i] && whole[i] == ticks[i];
    hide Clock, Grid;
    assert Closes(t0, whole, i, Clock(t0, ticks[..i + 1]), m);
  }

  /** On a clock that never goes back, a reading covers every interval whose closing event is not
      yet nine seconds old, and none whose event is ten seconds old. */
  lemma CoversByAge(t0: int, ticks: seq<Tick>, now: int, i: nat, m: int)
    requires Ordered(t0, ticks + [Queried(now)]) && i < |ticks| && Interval(ticks, i) == Some(m)
    ensures now - ticks[i].t <= 9000 ==> Covers(t0, ticks, now, i, m)
    ensures now - ticks[i].t >= 10000 ==> !Covers(t0, ticks, now, i, m)
  {
    OrderedReport(t0, ticks, now, i, m);
    hide Interval, Ordered, Clock;
  }

  /** From now on every reading covers an interval exactly while its event is recent, if and
      only if the event came in the clock's own second, or the clock is past covering it. */
  lemma RecentIff(t0: int, ticks: seq<Tick>, i: nat, m: int)
    requires i < |ticks| && Interval(ticks, i) == Some(m)
    ensures (forall now :: Grid(t0, now) >= Clock(t0, ticks) ==>
               (Covers(t0, ticks, now, i, m) <==> Recent(t0, ticks, now, i))) <==>
            (Grid(t0, ticks[i].t) == Clock(t0, ticks[..i + 1])
             || Clock(t0, ticks) >= Clock(t0, ticks[..i + 1]) + BIN_COUNT)
  {
    var c, g, own := Clock(t0, ticks), Clock(t0, ticks[..i + 1]), Grid(t0, ticks[i].t);
    assert Last(ticks[..i + 1]) == ticks[i];
    assert g >= own;
    var second := Max(c, own + BIN_COUNT);
    var late := t0 + BIN_MS * second;
    assert Grid(t0, late) == second;
    CoversFrom(t0, ticks, late, i, m);
    hide Clock, Grid, Covers;
    forall now | Grid(t0, now) >= c
      ensures Covers(t0, ticks, now, i, m) <==> g > Grid(t0, now) - BIN_COUNT
    {
      CoversFrom(t0, ticks, now, i, m);
    }
  }

  // ---- the ring ----

  /** How many seconds ago the bin `j` was entered, seen from the cursor. */
  function Age(cursor: nat, j: nat): (a: int)
    requires cursor < BIN_COUNT && j < BIN_COUNT
    ensures 0 <= a < BIN_COUNT
  {
    if j <= cursor then cursor - j else cursor + BIN_COUNT - j
  }

  /** The bins hold the maxima of second `g`, at the cursor, and of the nine before it. */
  ghost predicate Holds(t0: int, ticks: seq<Tick>, bins: seq<int>, cursor: nat, g: int) {
    && |bins| == BIN_COUNT && cursor < BIN_COUNT
    && forall j :: 0 <= j < BIN_COUNT ==> bins[j] == SecondMax(t0, ticks, g - Age(cursor, j))
  }

  /** Entering one more second clears the oldest bin. */
  lemma EnterSecond(t0: int, ticks: seq<Tick>, bins: seq<int>, cursor: nat, g: int)
    requires Holds(t0, ticks, bins, cursor, g) && g >= Clock(t0, ticks)
    ensures var next := (cursor + 1) % BIN_COUNT;
            Holds(t0, ticks, bins[next := 0], next, g + 1)
  {
    hide SecondMax, Clock;
    var next := (cursor + 1) % BIN_COUNT;
    forall j | 0 <= j < BIN_COUNT ensures bins[next := 0][j] == SecondMax(t0, ticks, g + 1 - Age(next, j)) {
      assert j != next ==> Age(next, j) == Age(cursor, j) + 1;
      assert SecondMax(t0, ticks, g + 1) == 0;
    }
  }

  /** Ten seconds past every event all bins are clear, however much later it is. */
  lemma LongIdle(t0: int, ticks: seq<Tick>, bins: seq<int>, cursor: nat, g: int, later: int)
    requires Holds(t0, ticks, bins, cursor, g) && Clock(t0, ticks) + BIN_COUNT <= g <= later
    ensures Holds(t0, ticks, bins, cursor, later)
  {
    forall j | 0 <= j < BIN_COUNT ensures bins[j] == SecondMax(t0, ticks, later - Age(cursor, j)) {
      assert bins[j] == SecondMax(t0, ticks, g - Age(cursor, j)) == 0;
    }
  }

  /** A reading changes no maximum; an event only that of the current second. */
  lemma TickBins(t0: int, ticks: seq<Tick>, tick: Tick, bins: seq<int>, cursor: nat)
    requires var c := Clock(t0, ticks + [tick]);
             Holds(t0, ticks, bins, cursor, c)
    ensures var whole := ticks + [tick];
            var closed := Interval(whole, |ticks|);
            var top := if closed.None? then bins[cursor] else Max(bins[cursor], closed.value);
            Holds(t0, whole, bins[cursor := top], cursor, Clock(t0, whole))
  {
    var whole := ticks + [tick];
    assert Front(whole) == ticks;
    var c := Clock(t0, whole);
    var closed := Interval(whole, |ticks|);
    var top := if closed.None? then bins[cursor] else Max(bins[cursor], closed.value);
    forall j | 0 <= j < BIN_COUNT ensures bins[cursor := top][j] == SecondMax(t0, whole, c - Age(cursor, j)) {
      assert j != cursor ==> Age(cursor, j) != 0;
      assert bins[j] == SecondMax(t0, ticks, c - Age(cursor, j));
    }
  }

  /** The largest of some bins, at least zero. */
  function SlotMax(bins: seq<int>): int {
    if bins == [] then 0 else Max(SlotMax(bins[..|bins| - 1]), bins[|bins| - 1])
  }

  lemma {:induction false} SlotMaxBounds(bins: seq<int>, j: nat)
    requires j < |bins|
    ensures bins[j] <= SlotMax(bins)
  {
    if j < |bins| - 1 {
      SlotMaxBounds(bins[..|bins| - 1], j);
    }
  }

  lemma {:induction false} SlotMaxAttained(bins: seq<int>) returns (j: nat)
    requires SlotMax(bins) != 0
    ensures j < |bins| && bins[j] == SlotMax(bins)
  {
    var n := |bins| - 1;
    if SlotMax(bins) == bins[n] {
      j := n;
    } else {
      j := SlotMaxAttained(bins[..n]);
    }
  }

  lemma {:induction false} SlotMaxNonNegative(bins: seq<int>)
    ensures SlotMax(bins) >= 0
  {
    if bins != [] {
      SlotMaxNonNegative(bins[..|bins| - 1]);
    }
  }

  /** The largest bin is the maximum over the ten seconds. */
  lemma BinsMaximum(t0: int, ticks: seq<Tick>, bins: seq<int>, cursor: nat, g: int)
    requires Holds(t0, ticks, bins, cursor, g)
    ensures SlotMax(bins) == WindowMax(t0, ticks, g, BIN_COUNT)
  {
    SlotMaxNonNegative(bins);
    var w := WindowMax(t0, ticks, g, BIN_COUNT);
    if w != 0 {
      var a := WindowMaxAttained(t0, ticks, g, BIN_COUNT);
      var j := if a <= cursor then cursor - a else cursor + BIN_COUNT - a;
      assert Age(cursor, j) == a;
      SlotMaxBounds(bins, j);
    }
    if SlotMax(bins) != 0 {
      var j := SlotMaxAttained(bins);
      WindowMaxBounds(t0, ticks, g, BIN_COUNT, Age(cursor, j));
    }
  }

  lemma RecordClock(t0: int, ticks: seq<Tick>, now: int)
    ensures var whole := ticks + [Recorded(now)];
            && Clock(t0, whole) == Max(Clock(t0, ticks), Grid(t0, now))
            && LastEvent(whole) == Some(now)
            && Interval(whole, |ticks|) == if LastEvent(ticks).Some? then Some(now - LastEvent(ticks).value) else None
  {
    var whole := ticks + [Recorded(now)];
    assert Front(whole) == ticks && whole[..|ticks|] == ticks;
  }

  lemma QueryClock(t0: int, ticks: seq<Tick>, now: int)
    ensures Clock(t0, ticks + [Queried(now)]) == Max(Clock(t0, ticks), Grid(t0, now))
    ensures LastEvent(ticks + [Queried(now)]) == LastEvent(ticks)
  {
    assert Front(ticks + [Queried(now)]) == ticks;
  }

  /** Reading at `now` leaves the maxima alone, and the largest bin is the window's. */
  lemma QueryBins(t0: int, ticks: seq<Tick>, now: int, bins: seq<int>, cursor: nat)
    requires Holds(t0, ticks, bins, cursor, Clock(t0, ticks + [Queried(now)]))
    ensures var whole := ticks + [Queried(now)];
            && Holds(t0, whole, bins, cursor, Clock(t0, whole))
            && SlotMax(bins) == WindowMax(t0, whole, Clock(t0, whole), BIN_COUNT)
  {
    var whole := ticks + [Queried(now)];
    TickBins(t0, ticks, Queried(now), bins, cursor);
    assert bins[cursor := bins[cursor]] == bins;
    BinsMaximum(t0, whole, bins, cursor, Clock(t0, whole));
  }

  class IntervalRing {
    const bins: array<int>
    var binStart: int
    var cursor: nat
    var lastEventTs: Option<int>
    ghost const t0: int
    ghost var ticks: seq<Tick>

    ghost predicate Valid()
      reads this, bins
    {
      && Holds(t0, ticks, bins[..], cursor, Clock(t0, ticks))
      && binStart == t0 + BIN_MS * Clock(t0, ticks)
      && lastEventTs == LastEvent(ticks)
    }

    constructor (now: int)
      ensures Valid() && fresh(bins) && t0 == now && ticks == []
    {
      bins := new int[BIN_COUNT](_ => 0);
      binStart, cursor, lastEventTs := now, 0, None;
      t0, ticks := now, [];
    }

    /** Advance to `now`, clearing every second entered on the way. */
    method Rotate(now: int)
      requires Valid()
      modifies this`binStart, this`cursor, bins
      ensures var c := Max(Clock(t0, ticks), Grid(t0, now));
              Holds(t0, ticks, bins[..], cursor, c) && binStart == t0 + BIN_MS * c
    {
      hide SecondMax;
      ghost var c := Clock(t0, ticks);
      var steps := (now - binStart) / BIN_MS;
      assert steps == Grid(t0, now) - c;
      if steps <= 0 {
        return;
      }
      var clears := if steps < BIN_COUNT then steps else BIN_COUNT;
      for i := 0 to clears
        invariant Holds(t0, ticks, bins[..], cursor, c + i)
        invariant binStart == t0 + BIN_MS * c
      {
        EnterSecond(t0, ticks, bins[..], cursor, c + i);
        cursor := (cursor + 1) % BIN_COUNT;
        bins[cursor] := 0;
      }
      binStart := binStart + steps * BIN_MS;
      if steps > BIN_COUNT {
        LongIdle(t0, ticks, bins[..], cursor, c + BIN_COUNT, c + steps);
      }
    }

    method RecordEvent(now: int)
      requires Valid()
      modifies this`binStart, this`cursor, this`lastEventTs, this`ticks, bins
      ensures Valid() && ticks == old(ticks) + [Recorded(now)]
    {
      RecordClock(t0, ticks, now);
      hide SecondMax, Clock, Grid, LastEvent, Interval;
      Rotate(now);
      TickBins(t0, ticks, Recorded(now), bins[..], cursor);
      if lastEventTs.Some? {
        var interval := now - lastEventTs.value;
        if interval > bins[cursor] {
          bins[cursor] := interval;
        }
      }
      lastEventTs := Some(now);
      ticks := ticks + [Recorded(now)];
    }

    method LargestBin() returns (m: int)
      ensures m == SlotMax(bins[..])
    {
      m := 0;
      for i := 0 to bins.Length
        invariant m == SlotMax(bins[..i])
      {
        assert bins[..i + 1][..i] == bins[..i];
        if bins[i] > m {
          m := bins[i];
        }
      }
      assert bins[..bins.Length] == bins[..];
    }

    /** The trailing maximum, or the gap still open. */
    method RingMax(now: int) returns (m: int)
      requires Valid()
      modifies this`binStart, this`cursor, this`ticks, bins
      ensures Valid() && ticks == old(ticks) + [Queried(now)]
      ensures m == Report(t0, ticks, now)
    {
      QueryClock(t0, ticks, now);
      hide Holds, Clock, LastEvent, SlotMax, WindowMax, Grid;
      Rotate(now);
      QueryBins(t0, ticks, now, bins[..], cursor);
      m := LargestBin();
      ticks := ticks + [Queried(now)];
      var inProgress := if lastEventTs.Some? then now - lastEventTs.value else 0;
      m := Max(m, inProgress);
    }
  }
}
