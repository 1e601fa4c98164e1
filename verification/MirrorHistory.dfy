/**
 A ring of time-stamped mirror positions and the interpolated position at a past instant.
 */
module MirrorHistory {
  import opened Options

  datatype Pos = Pos(x: real, y: real)
  datatype Sample = Sample(hostNs: int, left: Pos, right: Pos)
  datatype MirrorAt = MirrorAt(left: Pos, right: Pos, ageNs: int, interpolated: bool)

  // ---- the history as a list ----

  ghost predicate Sorted(s: seq<Sample>) {
    forall i, j :: 0 <= i <= j < |s| ==> s[i].hostNs <= s[j].hostNs
  }

  function LastOf(s: seq<Sample>, n: nat): seq<Sample> {
    if |s| <= n then s else s[|s| - n..]
  }

  predicate Accepts(s: seq<Sample>, x: Sample) {
    s == [] || s[|s| - 1].hostNs <= x.hostNs
  }

  /** The samples of a run that were not dropped as out of order. */
  function Accepted(xs: seq<Sample>): seq<Sample> {
    if xs == [] then []
    else
      var before, x := Accepted(xs[..|xs| - 1]), xs[|xs| - 1];
      if Accepts(before, x) then before + [x] else before
  }

  /** Recording one sample into a history of the given capacity. */
  function Recorded(s: seq<Sample>, capacity: nat, x: Sample): seq<Sample> {
    if Accepts(s, x) then LastOf(s + [x], capacity) else s
  }

  function RecordAll(capacity: nat, xs: seq<Sample>): seq<Sample> {
    if xs == [] then [] else Recorded(RecordAll(capacity, xs[..|xs| - 1]), capacity, xs[|xs| - 1])
  }

  lemma {:induction false} AcceptedSorted(xs: seq<Sample>)
    ensures Sorted(Accepted(xs))
  {
    if xs != [] {
      AcceptedSorted(xs[..|xs| - 1]);
    }
  }

  lemma LastOfAppend(s: seq<Sample>, n: nat, x: Sample)
    requires n > 0
    ensures LastOf(LastOf(s, n) + [x], n) == LastOf(s + [x], n)
    ensures Accepts(LastOf(s, n), x) <==> Accepts(s, x)
  {
  }

  /** After any sequence of records the history is the last `capacity` accepted samples. */
  lemma {:induction false} KeepsLastAccepted(capacity: nat, xs: seq<Sample>)
    requires capacity > 0
    ensures RecordAll(capacity, xs) == LastOf(Accepted(xs), capacity)
  {
    if xs != [] {
      KeepsLastAccepted(capacity, xs[..|xs| - 1]);
      hide LastOf;
      LastOfAppend(Accepted(xs[..|xs| - 1]), capacity, xs[|xs| - 1]);
    }
  }

  // ---- interpolation ----

  function Lerp(a: real, b: real, t: real): real {
    a + (b - a) * t
  }

  function LerpPos(a: Pos, b: Pos, t: real): Pos {
    Pos(Lerp(a.x, b.x, t), Lerp(a.y, b.y, t))
  }

  function Fraction(from: int, to: int, at: int): real
    requires from < to
  {
    (at - from) as real / (to - from) as real
  }

  predicate InHull(v: real, a: real, b: real) {
    (a <= v <= b) || (b <= v <= a)
  }

  predicate PosInHull(p: Pos, a: Pos, b: Pos) {
    InHull(p.x, a.x, b.x) && InHull(p.y, a.y, b.y)
  }

  lemma LerpInHull(a: real, b: real, t: real)
    requires 0.0 <= t <= 1.0
    ensures InHull(Lerp(a, b, t), a, b)
  {
    if a <= b {
      Product(b - a, t);
      Product(b - a, 1.0 - t);
    } else {
      Product(a - b, t);
      Product(a - b, 1.0 - t);
      assert (b - a) * t == -((a - b) * t);
    }
  }

  lemma LerpPosInHull(a: Pos, b: Pos, t: real)
    requires 0.0 <= t <= 1.0
    ensures PosInHull(LerpPos(a, b, t), a, b)
  {
    LerpInHull(a.x, b.x, t);
    LerpInHull(a.y, b.y, t);
    hide Lerp, InHull;
  }

  lemma Product(x: real, y: real)
    requires x >= 0.0 && y >= 0.0
    ensures x * y >= 0.0 && x * (1.0 - y) == x - x * y
  {
  }

  lemma FractionRange(from: int, to: int, at: int)
    requires from <= at < to
    ensures 0.0 <= Fraction(from, to, at) < 1.0
  {
    var f, w := Fraction(from, to, at), (to - from) as real;
    assert f * w == (at - from) as real;
  }

  function Distance(s: Sample, t: int): nat {
    if s.hostNs <= t then t - s.hostNs else s.hostNs - t
  }

  /** The reported age is the distance to the nearest stored sample. */
  ghost predicate NearestAge(s: seq<Sample>, t: int, age: int) {
    && (exists i :: 0 <= i < |s| && age == Distance(s[i], t))
    && (forall i :: 0 <= i < |s| ==> age <= Distance(s[i], t))
  }

  /** m is the interpolation between the adjacent samples around t. */
  ghost predicate Bracketed(s: seq<Sample>, t: int, i: nat, m: MirrorAt) {
    && i + 1 < |s| && s[i].hostNs <= t < s[i + 1].hostNs
    && m.left == LerpPos(s[i].left, s[i + 1].left, Fraction(s[i].hostNs, s[i + 1].hostNs, t))
    && m.right == LerpPos(s[i].right, s[i + 1].right, Fraction(s[i].hostNs, s[i + 1].hostNs, t))
    && PosInHull(m.left, s[i].left, s[i + 1].left) && PosInHull(m.right, s[i].right, s[i + 1].right)
  }

  // ---- mirrors that move steadily ----

  /** Where something that moves steadily is at a time. */
  function Moving(start: real, speed: real, t: int): real {
    start + speed * t as real
  }

  /** Interpolation between two samples of something that moves steadily gives where it is. */
  lemma SteadyIsExact(start: real, speed: real, from: int, to: int, t: int)
    requires from <= t < to
    ensures Lerp(Moving(start, speed, from), Moving(start, speed, to), Fraction(from, to, t)) == Moving(start, speed, t)
  {
    var f, w := Fraction(from, to, t), (to - from) as real;
    assert f * w == (t - from) as real;
    assert Moving(start, speed, to) - Moving(start, speed, from) == speed * w;
    assert speed * w * f == speed * (f * w);
  }

  /** A mirror that moves steadily is here at this time. */
  predicate OnLine(p: Pos, start: Pos, speed: Pos, t: int) {
    p == Pos(Moving(start.x, speed.x, t), Moving(start.y, speed.y, t))
  }

  /** Between two samples the answer for a mirror that moves steadily is where it was. */
  lemma SteadyMirror(s: seq<Sample>, t: int, i: nat, m: MirrorAt, start: Pos, speed: Pos)
    requires Bracketed(s, t, i, m)
    ensures OnLine(s[i].left, start, speed, s[i].hostNs) && OnLine(s[i + 1].left, start, speed, s[i + 1].hostNs) ==>
              OnLine(m.left, start, speed, t)
    ensures OnLine(s[i].right, start, speed, s[i].hostNs) && OnLine(s[i + 1].right, start, speed, s[i + 1].hostNs) ==>
              OnLine(m.right, start, speed, t)
  {
    SteadyIsExact(start.x, speed.x, s[i].hostNs, s[i + 1].hostNs, t);
    SteadyIsExact(start.y, speed.y, s[i].hostNs, s[i + 1].hostNs, t);
    hide Moving, Fraction, Lerp;
  }

  /** Samples in time order are all accepted, equal times included. */
  lemma {:induction false} InOrderAccepted(xs: seq<Sample>)
    requires Sorted(xs)
    ensures Accepted(xs) == xs
  {
    if xs != [] {
      InOrderAccepted(xs[..|xs| - 1]);
    }
  }

  // ---- the ring ----

  /** Where the i-th oldest of c samples is stored when the next write goes to h. */
  function Slot(capacity: nat, h: nat, c: nat, i: nat): (k: nat)
    requires h < capacity && i < c <= capacity
    ensures k < capacity
  {
    ((h + 2 * capacity - c) % capacity + i) % capacity
  }

  lemma Wrap(n: nat, m: nat)
    requires 0 < m && n < 3 * m
    ensures n % m == if n < m then n else if n < 2 * m then n - m else n - 2 * m
  {
    if n >= 2 * m {
      Remainder(n, m, 2);
    } else if n >= m {
      Remainder(n, m, 1);
    }
  }

  lemma Remainder(n: nat, m: nat, q: nat)
    requires 0 < m && q * m <= n < q * m + m
    ensures n % m == n - q * m
  {
    var d, r := n / m, n % m;
    assert n == d * m + r;
    if d > q {
      Multiples(q + 1, d, m);
    } else if d < q {
      Multiples(d + 1, q, m);
    }
  }

  lemma Multiples(a: nat, b: nat, m: nat)
    requires a <= b
    ensures a * m <= b * m
  {
  }

  lemma SlotArithmetic(capacity: nat, h: nat, c: nat, i: nat)
    requires h < capacity && i < c <= capacity
    ensures Slot(capacity, h, c, i) ==
            if h + i >= c then h + i - c else h + i - c + capacity
  {
    Wrap(h + 2 * capacity - c, capacity);
    Wrap((h + 2 * capacity - c) % capacity + i, capacity);
  }

  /** The samples of a ring, oldest first. */
  function Window(ring: seq<Sample>, h: nat, c: nat): (s: seq<Sample>)
    requires h < |ring| && c <= |ring|
    ensures |s| == c
  {
    seq(c, i requires 0 <= i < c => ring[Slot(|ring|, h, c, i)])
  }

  /** Writing at the head and moving it on appends, dropping the oldest once the ring is full. */
  lemma WriteAppends(ring: seq<Sample>, h: nat, c: nat, x: Sample)
    requires h < |ring| && c <= |ring|
    ensures (h + 1) % |ring| < |ring|
    ensures Window(ring[h := x], (h + 1) % |ring|, if c < |ring| then c + 1 else c) ==
            LastOf(Window(ring, h, c) + [x], |ring|)
  {
    var n, grown := |ring|, if c < |ring| then c + 1 else c;
    Wrap(h + 1, n);
    var want := LastOf(Window(ring, h, c) + [x], n);
    forall i | 0 <= i < grown ensures ring[h := x][Slot(n, (h + 1) % n, grown, i)] == want[i] {
      SlotArithmetic(n, (h + 1) % n, grown, i);
      var k := if c < n then i else i + 1;
      if k < c {
        SlotArithmetic(n, h, c, k);
      }
      hide Slot;
    }
  }

  class History {
    const capacity: nat
    const ring: array<Sample>
    var head: nat
    var count: nat

    ghost predicate Valid()
      reads this, ring
    {
      && capacity > 0 && ring.Length == capacity && head < capacity && count <= capacity
      && Sorted(Contents())
    }

    ghost function Contents(): (s: seq<Sample>)
      requires ring.Length == capacity && head < capacity && count <= capacity
      reads this, ring
      ensures |s| == count
    {
      Window(ring[..], head, count)
    }

    constructor (capacity: nat)
      requires capacity > 0
      ensures Valid() && fresh(ring) && this.capacity == capacity && Contents() == []
    {
      this.capacity := capacity;
      ring := new Sample[capacity](_ => Sample(0, Pos(0.0, 0.0), Pos(0.0, 0.0)));
      head, count := 0, 0;
    }

    /** i = 0 oldest, count-1 newest; negative counts from the end. */
    function At(i: int): (s: Option<Sample>)
      requires Valid()
      reads this, ring
      ensures var k := if i < 0 then count + i else i; s == if 0 <= k < count then Some(Contents()[k]) else None
    {
      var k := if i < 0 then count + i else i;
      if count == 0 || k < 0 || k >= count then None else Some(ring[Slot(capacity, head, count, k)])
    }

    method Record(hostNs: int, left: Pos, right: Pos)
      requires Valid()
      modifies this, ring
      ensures Valid() && Contents() == Recorded(old(Contents()), capacity, Sample(hostNs, left, right))
    {
      ghost var s := Contents();
      var x := Sample(hostNs, left, right);
      var newest := At(-1);
      if newest.Some? && hostNs < newest.value.hostNs {
        return;
      }
      WriteAppends(ring[..], head, count, x);
      ghost var was := ring[..];
      ring[head] := x;
      assert ring[..] == was[head := x];
      head := (head + 1) % capacity;
      if count < capacity {
        count := count + 1;
      }
      assert Contents() == LastOf(s + [x], capacity);
      hide Window;
    }

    method ClearAll()
      requires Valid()
      modifies this
      ensures Valid() && Contents() == []
    {
      head, count := 0, 0;
    }

    /** The first sample later than t, when t is at or after the oldest and before the newest. */
    method FirstLater(t: int) returns (lo: nat)
      requires Valid() && count > 0 && Contents()[0].hostNs <= t < Contents()[count - 1].hostNs
      ensures 0 < lo < count && Contents()[lo - 1].hostNs <= t < Contents()[lo].hostNs
    {
      lo := 0;
      var hi := count - 1;
      while lo < hi
        invariant lo <= hi < count
        invariant forall i :: 0 <= i < lo ==> Contents()[i].hostNs <= t
        invariant t < Contents()[hi].hostNs
      {
        var mid := (lo + hi) / 2;
        if At(mid).value.hostNs <= t {
          lo := mid + 1;
        } else {
          hi := mid;
        }
      }
    }

    method MirrorAtTime(t: int) returns (m: Option<MirrorAt>)
      requires Valid()
      ensures m.None? <==> Contents() == []
      ensures m.Some? ==> NearestAge(Contents(), t, m.value.ageNs)
      ensures m.Some? ==> (m.value.interpolated <==> Contents()[0].hostNs <= t <= Contents()[count - 1].hostNs)
      ensures m.Some? && t <= Contents()[0].hostNs ==>
              m.value.left == Contents()[0].left && m.value.right == Contents()[0].right
      ensures m.Some? && t >= Contents()[count - 1].hostNs && t > Contents()[0].hostNs ==>
                m.value.left == Contents()[count - 1].left && m.value.right == Contents()[count - 1].right
      ensures m.Some? && Contents()[0].hostNs < t < Contents()[count - 1].hostNs ==>
                exists i :: Bracketed(Contents(), t, i, m.value)
    {
      if count == 0 {
        return None;
      }
      ghost var s := Contents();
      var oldest, newest := At(0).value, At(-1).value;
      if t <= oldest.hostNs {
        assert oldest.hostNs - t == Distance(s[0], t);
        return Some(MirrorAt(oldest.left, oldest.right, oldest.hostNs - t, t == oldest.hostNs));
      }
      if t >= newest.hostNs {
        assert t - newest.hostNs == Distance(s[count - 1], t);
        return Some(MirrorAt(newest.left, newest.right, t - newest.hostNs, t == newest.hostNs));
      }
      var lo := FirstLater(t);
      var after, before := At(lo).value, At(lo - 1).value;
      var f := Fraction(before.hostNs, after.hostNs, t);
      var age := if t - before.hostNs < after.hostNs - t then t - before.hostNs else after.hostNs - t;
      var r := MirrorAt(LerpPos(before.left, after.left, f), LerpPos(before.right, after.right, f), age, true);
      FractionRange(before.hostNs, after.hostNs, t);
      LerpPosInHull(before.left, after.left, f);
      LerpPosInHull(before.right, after.right, f);
      hide Lerp, LerpPos, Fraction, PosInHull, Slot;
      assert Bracketed(s, t, lo - 1, r);
      assert age == Distance(s[lo - 1], t) || age == Distance(s[lo], t);
      forall i | 0 <= i < |s| ensures age <= Distance(s[i], t) {
        assert i <= lo - 1 ==> s[i].hostNs <= s[lo - 1].hostNs;
        assert i >= lo ==> s[lo].hostNs <= s[i].hostNs;
      }
      m := Some(r);
    }
  }
}
